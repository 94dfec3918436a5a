/**
 * The persistence gateway (backend/database.py). The two tables of the store
 * are kept in memory as sequences of rows; the replies of the store to a
 * query or an insert are inputs of each operation, and so is the clock the
 * store stamps rows with. A counter stands for the store's identifier
 * generator.
 */
module Database {
  import opened Wrappers
  import opened Models

  /** The store's reply to a select: the rows were read, or the client raised. */
  datatype QueryReply = Answered | QueryRaised(message: string)

  /** The store's reply to an insert: the rows came back, none came back, or the client raised. */
  datatype InsertReply = Stored | NoDataReturned | InsertRaised(message: string)

  /** The exceptions the gateway raises; `Message` is their text. */
  datatype DbError =
    | QueryFailed(cause: string)
    | CreateFailed(cause: string)
    | SaveFailed(cause: string)
  {
    function Message(): string
    {
      match this
      case QueryFailed(c) => "Failed to query competitor: " + c
      case CreateFailed(c) => "Failed to create competitor record: " + c
      case SaveFailed(c) => "Failed to save insights: " + c
    }
  }

  const NoCompetitorData := "No data returned from competitor creation"
  const NoInsightData := "No data returned from insights insertion"

  /** The text of the exception raised inside an unsuccessful insert. */
  function InsertFault(reply: InsertReply, noData: string): string
    requires !reply.Stored?
  {
    match reply
    case NoDataReturned => noData
    case InsertRaised(m) => m
  }

  /** The row `save_insights` builds for one weakness, before the store gives it an id. */
  datatype InsightDraft = InsightDraft(
    competitorId: Id,
    weaknessTitle: string,
    weaknessDescription: string,
    severity: string,
    category: string)

  /** `draft` carries `w` verbatim under `competitorId`. */
  predicate Drafts(draft: InsightDraft, competitorId: Id, w: ProductWeakness)
  {
    && draft.competitorId == competitorId
    && draft.weaknessTitle == w.title
    && draft.weaknessDescription == w.description
    && draft.severity == w.severity
    && draft.category == w.category
  }

  /** The draft a stored row was made from: the row without its id and time stamp. */
  function DraftOf(rec: InsightRecord): InsightDraft
  {
    InsightDraft(rec.competitorId, rec.weaknessTitle, rec.weaknessDescription, rec.severity, rec.category)
  }

  /** The stored row `rec` carries `w` verbatim under `competitorId`. */
  predicate Mirrors(rec: InsightRecord, competitorId: Id, w: ProductWeakness)
  {
    Drafts(DraftOf(rec), competitorId, w)
  }

  /** `recs` carry `ws` one-for-one, in order, verbatim, under `competitorId`. */
  predicate MirrorsAll(recs: seq<InsightRecord>, competitorId: Id, ws: seq<ProductWeakness>)
  {
    |recs| == |ws| && forall k | 0 <= k < |ws| :: Mirrors(recs[k], competitorId, ws[k])
  }

  /** Position of the first row named `name`, as the select-by-name reads it. */
  function IndexOfName(rows: seq<CompetitorRecord>, name: string): (r: Option<nat>)
    ensures r.Some? ==> r.value < |rows| && rows[r.value].name == name
    ensures r.Some? ==> forall j | 0 <= j < r.value :: rows[j].name != name
    ensures r.None? ==> forall j | 0 <= j < |rows| :: rows[j].name != name
    decreases |rows|
  {
    if rows == [] then None
    else if rows[0].name == name then Some(0)
    else
      match IndexOfName(rows[1..], name)
      case None => None
      case Some(k) => Some(k + 1)
  }

  /** The first row named `name`, if any. */
  function FirstNamed(rows: seq<CompetitorRecord>, name: string): (r: Option<CompetitorRecord>)
    ensures r.Some? ==> r.value in rows && r.value.name == name
    ensures r.None? <==> forall j | 0 <= j < |rows| :: rows[j].name != name
  {
    match IndexOfName(rows, name)
    case None => None
    case Some(k) => Some(rows[k])
  }

  /** Appending a row changes a lookup only for a name that was absent and is the new row's. */
  lemma {:induction false} FirstNamedAppend(rows: seq<CompetitorRecord>, c: CompetitorRecord, name: string)
    ensures FirstNamed(rows + [c], name) ==
              if FirstNamed(rows, name).Some? then FirstNamed(rows, name)
              else if c.name == name then Some(c)
              else None
    decreases |rows|
  {
    if rows != [] && rows[0].name != name {
      assert (rows + [c])[1..] == rows[1..] + [c];
      FirstNamedAppend(rows[1..], c, name);
    }
  }

  /**
   * `after` is the competitors table `before` once get-or-create has succeeded
   * for `name`: unchanged when the name was stored, else with exactly one row
   * appended that carries the name, `url` and `now`.
   */
  ghost predicate GetOrCreated(before: seq<CompetitorRecord>, after: seq<CompetitorRecord>, name: string,
                               url: string, now: Timestamp)
  {
    && FirstNamed(after, name).Some?
    && (FirstNamed(before, name).Some? ==> after == before)
    && (FirstNamed(before, name).None? ==>
          var added := FirstNamed(after, name).value;
          && after == before + [added]
          && added.targetUrl == url && added.createdAt == now && added.updatedAt == now)
  }

  /** The loop of `save_insights`: one draft row per weakness, in order. */
  method BuildInsightRows(competitorId: Id, weaknesses: seq<ProductWeakness>) returns (rows: seq<InsightDraft>)
    ensures |rows| == |weaknesses|
    ensures forall k | 0 <= k < |rows| :: Drafts(rows[k], competitorId, weaknesses[k])
  {
    rows := [];
    for i := 0 to |weaknesses|
      invariant |rows| == i
      invariant forall k | 0 <= k < i :: Drafts(rows[k], competitorId, weaknesses[k])
    {
      var w := weaknesses[i];
      rows := rows + [InsightDraft(competitorId, w.title, w.description, w.severity, w.category)];
    }
  }

  /** The rows the store creates for `drafts`: consecutive fresh ids from `firstId`, stamped `now`. */
  function StoredRows(drafts: seq<InsightDraft>, firstId: Id, now: Timestamp): seq<InsightRecord>
  {
    seq(|drafts|, k requires 0 <= k < |drafts| =>
      InsightRecord(firstId + k, drafts[k].competitorId, drafts[k].weaknessTitle,
                    drafts[k].weaknessDescription, drafts[k].severity, drafts[k].category, now))
  }

  /** The gateway over the `competitors` and `insights` tables. */
  class DatabaseManager {
    var competitors: seq<CompetitorRecord>
    var insights: seq<InsightRecord>
    var nextId: Id  // the store's identifier generator: every identifier handed out is below it

    /** Competitor names are unique; in each table identifiers are unique and already handed out. */
    ghost predicate Valid()
      reads this
    {
      && (forall i, j | 0 <= i < j < |competitors| :: competitors[i].name != competitors[j].name)
      && (forall i, j | 0 <= i < j < |competitors| :: competitors[i].id != competitors[j].id)
      && (forall i | 0 <= i < |competitors| :: competitors[i].id < nextId)
      && (forall i, j | 0 <= i < j < |insights| :: insights[i].id != insights[j].id)
      && (forall i | 0 <= i < |insights| :: insights[i].id < nextId)
    }

    /** A gateway over empty tables. */
    constructor ()
      ensures Valid()
      ensures competitors == [] && insights == []
    {
      competitors, insights, nextId := [], [], 0;
    }

    /** `get_competitor_by_name`: the first stored row with that name, or `None`. */
    method GetCompetitorByName(name: string, reply: QueryReply) returns (r: Result<Option<CompetitorRecord>, DbError>)
      ensures reply.QueryRaised? ==> r == Failure(QueryFailed(reply.message))
      ensures reply.Answered? ==> r == Success(FirstNamed(competitors, name))
    {
      match reply
      case QueryRaised(m) =>
        r := Failure(QueryFailed(m));
      case Answered =>
        r := Success(FirstNamed(competitors, name));
    }

    /**
     * `create_competitor`: get-or-create by name. An existing row is returned
     * as stored (its target URL is not refreshed); otherwise one row is
     * inserted. The insights table is never touched.
     */
    method CreateCompetitor(name: string, targetUrl: string, lookup: QueryReply, insert: InsertReply, now: Timestamp)
      returns (r: Result<CompetitorRecord, DbError>)
      requires Valid()
      modifies this
      ensures Valid()
      ensures insights == old(insights)
      ensures lookup.QueryRaised? ==>
                r == Failure(QueryFailed(lookup.message)) && competitors == old(competitors)
      ensures lookup.Answered? && FirstNamed(old(competitors), name).Some? ==>
                r == Success(FirstNamed(old(competitors), name).value) && competitors == old(competitors)
      ensures lookup.Answered? && FirstNamed(old(competitors), name).None? && !insert.Stored? ==>
                r == Failure(CreateFailed(InsertFault(insert, NoCompetitorData))) && competitors == old(competitors)
      ensures lookup.Answered? && FirstNamed(old(competitors), name).None? && insert.Stored? ==>
                && r.Success?
                && competitors == old(competitors) + [r.value]
                && r.value.name == name && r.value.targetUrl == targetUrl
                && r.value.createdAt == now && r.value.updatedAt == now
                && forall k | 0 <= k < |old(competitors)| :: old(competitors)[k].id != r.value.id
      ensures r.Success? ==> FirstNamed(competitors, name) == Some(r.value)
      ensures r.Success? ==> GetOrCreated(old(competitors), competitors, name, targetUrl, now)
    {
      var existing := GetCompetitorByName(name, lookup);
      if existing.Failure? {
        return Failure(existing.error);
      }
      if existing.value.Some? {
        return Success(existing.value.value);
      }
      if !insert.Stored? {
        return Failure(CreateFailed(InsertFault(insert, NoCompetitorData)));
      }
      var record := CompetitorRecord(nextId, name, targetUrl, now, now);
      FirstNamedAppend(competitors, record, name);
      competitors := competitors + [record];
      nextId := nextId + 1;
      r := Success(record);
    }

    /**
     * `save_insights`: one row per weakness, in order, under `competitorId`,
     * with every field copied verbatim. An empty list touches nothing. The
     * competitors table is never touched.
     */
    method SaveInsights(competitorId: Id, weaknesses: seq<ProductWeakness>, insert: InsertReply, now: Timestamp)
      returns (r: Result<seq<InsightRecord>, DbError>)
      requires Valid()
      modifies this
      ensures Valid()
      ensures competitors == old(competitors)
      ensures weaknesses == [] ==> r == Success([]) && insights == old(insights)
      ensures weaknesses != [] && !insert.Stored? ==>
                r == Failure(SaveFailed(InsertFault(insert, NoInsightData))) && insights == old(insights)
      ensures weaknesses != [] && insert.Stored? ==> r.Success? && insights == old(insights) + r.value
      ensures r.Success? ==> MirrorsAll(r.value, competitorId, weaknesses)
      ensures r.Success? ==> forall k | 0 <= k < |r.value| :: r.value[k].createdAt == now
      ensures r.Success? ==> forall k, j | 0 <= k < |r.value| && 0 <= j < |old(insights)| ::
                r.value[k].id != old(insights)[j].id
    {
      if weaknesses == [] {
        return Success([]);
      }
      var drafts := BuildInsightRows(competitorId, weaknesses);
      if !insert.Stored? {
        return Failure(SaveFailed(InsertFault(insert, NoInsightData)));
      }
      var records := StoredRows(drafts, nextId, now);
      insights := insights + records;
      nextId := nextId + |records|;
      r := Success(records);
    }
  }
}
