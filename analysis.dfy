/**
 * The `POST /analyze` handler and the `GET /models` listing (backend/main.py).
 *
 * The handler scrapes the page, gets or creates the competitor, vets the
 * requested model against the allow-list, picks a model (falling back to the
 * one chosen at startup), asks it for weaknesses with a prompt that embeds at
 * most 10,000 characters of the page, turns the greedy `{ ... }` span of the
 * answer into weaknesses (fixed placeholders on each failure path), saves
 * them and answers. Model instantiation, generation, `json.loads`, the
 * scraping provider, the store's replies and the clocks are inputs.
 */
module Analysis {
  import opened Wrappers
  import opened Models
  import Scraper
  import Database

  // ---------------------------------------------------------------------
  // Model registry
  // ---------------------------------------------------------------------

  /** One entry of the supported-model metadata served to the frontend. */
  datatype ModelOption = ModelOption(id: string, name: string, daily: string, note: string)

  const SupportedModels: seq<ModelOption> := [
    ModelOption("gemini-2.5-flash", "Gemini 2.5 Flash", "20", "Severely limited"),
    ModelOption("gemini-2.5-flash-lite", "Gemini 2.5 Flash-Lite", "1,500", "Recommended for Free Tier"),
    ModelOption("gemini-2.5-pro", "Gemini 2.5 Pro", "0 - 5", "Often removed or restricted")
  ]

  /** The two model ids tried, in order, when the server starts. */
  const PreferredModel := "gemini-flash-latest"
  const BackupModel := "gemini-2.5-flash"

  /** A `GenerativeModel` instance, known by the model id it was built for. */
  datatype ModelHandle = ModelHandle(id: string)

  /** The ids of a list of model entries, in order. */
  function AllowedIds(models: seq<ModelOption>): (ids: seq<string>)
    ensures |ids| == |models|
    ensures forall k | 0 <= k < |models| :: ids[k] == models[k].id
    decreases |models|
  {
    if models == [] then [] else [models[0].id] + AllowedIds(models[1..])
  }

  /** `GET /models`: the supported entries, whose ids form the allow-list. */
  function ListModels(): (models: seq<ModelOption>)
    ensures AllowedIds(models) == ["gemini-2.5-flash", "gemini-2.5-flash-lite", "gemini-2.5-pro"]
    ensures PreferredModel !in AllowedIds(models)
  {
    SupportedModels
  }

  /** The allow-list check of the handler. */
  predicate IsSupported(id: string)
  {
    id in AllowedIds(SupportedModels)
  }

  /**
   * The server default chosen at startup: the first of the two candidates
   * whose instantiation succeeds (`instantiable` holds the ids that do), else none.
   */
  function StartupModel(instantiable: set<string>): (m: Option<ModelHandle>)
    ensures m.Some? ==> m.value.id in instantiable && (m.value.id == PreferredModel || m.value.id == BackupModel)
    ensures m.Some? && m.value.id != PreferredModel ==> PreferredModel !in instantiable
    ensures m.None? <==> PreferredModel !in instantiable && BackupModel !in instantiable
  {
    if PreferredModel in instantiable then Some(ModelHandle(PreferredModel))
    else if BackupModel in instantiable then Some(ModelHandle(BackupModel))
    else None
  }

  /** Python's `str` of a list of plain strings: `['a', 'b']`. */
  function QuotedItems(ids: seq<string>): string
    decreases |ids|
  {
    if ids == [] then ""
    else if |ids| == 1 then "'" + ids[0] + "'"
    else "'" + ids[0] + "', " + QuotedItems(ids[1..])
  }

  /** The allow-list as Python prints a list of strings. */
  function AllowedText(): string
  {
    "[" + QuotedItems(AllowedIds(SupportedModels)) + "]"
  }

  /** The 400 detail for a requested id outside the allow-list. */
  function UnsupportedModelDetail(id: string): string
  {
    "Requested model '" + id + "' is not supported. Allowed: " + AllowedText()
  }

  /** The requested model id when the request carries a non-empty one. */
  predicate Requests(model: Option<string>)
  {
    model.Some? && model.value != ""
  }

  /**
   * The per-request model selection: an unsupported requested id is refused
   * with a 400 detail; a supported one is used if it instantiates now;
   * otherwise (or with no id) the server default is used, possibly none.
   */
  function ModelChoice(model: Option<string>, instantiable: set<string>, serverModel: Option<ModelHandle>)
    : (r: Result<Option<ModelHandle>, string>)
    ensures r.Failure? <==> Requests(model) && !IsSupported(model.value)
    ensures r.Failure? ==> r.error == UnsupportedModelDetail(model.value)
    ensures r.Success? && r.value.Some? && r.value != serverModel ==>
              Requests(model) && r.value.value.id == model.value && IsSupported(model.value) &&
              model.value in instantiable
    ensures r.Success? && Requests(model) && model.value in instantiable ==>
              r.value == Some(ModelHandle(model.value))
    ensures r.Success? && !(Requests(model) && model.value in instantiable) ==> r.value == serverModel
  {
    if Requests(model) && !IsSupported(model.value) then Failure(UnsupportedModelDetail(model.value))
    else if Requests(model) && model.value in instantiable then Success(Some(ModelHandle(model.value)))
    else Success(serverModel)
  }

  /**
   * Whatever a client asks for, the model that generates is an allow-listed
   * id that instantiated for this request, or one of the two startup
   * candidates that instantiated at startup.
   */
  lemma OnlyVettedModelsGenerate(model: Option<string>, instantiable: set<string>, atStartup: set<string>)
    requires ModelChoice(model, instantiable, StartupModel(atStartup)).Success?
    requires ModelChoice(model, instantiable, StartupModel(atStartup)).value.Some?
    ensures var h := ModelChoice(model, instantiable, StartupModel(atStartup)).value.value;
            (h.id in AllowedIds(SupportedModels) && h.id in instantiable) ||
            ((h.id == PreferredModel || h.id == BackupModel) && h.id in atStartup)
  {
  }

  // ---------------------------------------------------------------------
  // Prompt
  // ---------------------------------------------------------------------

  /** The most page characters the prompt embeds. */
  const MaxPromptContent := 10000

  function Min(a: int, b: int): int { if a <= b then a else b }

  /** The page text as the prompt sees it: its first 10,000 characters. */
  function Truncated(content: string): (t: string)
    ensures |t| == Min(|content|, MaxPromptContent)
    ensures t <= content
  {
    if |content| <= MaxPromptContent then content else content[..MaxPromptContent]
  }

  /**
   * A prompt template: the text before the competitor's name, between the
   * name and the page content, and after the content.
   */
  datatype PromptTemplate = PromptTemplate(beforeName: string, afterName: string, afterContent: string)

  /** The template filled with a name and the truncated page text. */
  function Render(t: PromptTemplate, competitorName: string, content: string): string
  {
    t.beforeName + competitorName + t.afterName + Truncated(content) + t.afterContent
  }

  /**
   * The prompt the handler sends. Its last part begins with the text of what
   * reads as a code comment: it sits inside the template, so it is sent too.
   */
  const AnalystPrompt := PromptTemplate(
      "\n" +
      "            You are an expert competitive analyst. Analyze the following content from ",
      "'s website\n" +
      "            and identify their main product weaknesses or areas for improvement.\n" +
      "\n" +
      "            Focus on:\n" +
      "            - Product features and functionality gaps\n" +
      "            - Pricing issues or concerns\n" +
      "            - Customer support problems\n" +
      "            - User experience issues\n" +
      "            - Technical limitations\n" +
      "            - Market positioning weaknesses\n" +
      "\n" +
      "            Content to analyze:\n" +
      "            ",
      "  # Limit content length for API\n" +
      "\n" +
      "            Please provide 8-12 specific weaknesses in the following JSON format:\n" +
      "            {\n" +
      "                \"weaknesses\": [\n" +
      "                    {\n" +
      "                        \"title\": \"Brief title of weakness\",\n" +
      "                        \"description\": \"Detailed explanation of the weakness and why it's a problem\",\n" +
      "                        \"severity\": \"high|medium|low\",\n" +
      "                        \"category\": \"feature|pricing|support|usability|technical|other\"\n" +
      "                    }\n" +
      "                ]\n" +
      "            }\n" +
      "\n" +
      "            Be specific, actionable, and focus on genuine weaknesses that competitors could exploit.\n" +
      "            ")

  /**
   * A rendered prompt is the template's fixed parts with the name and then
   * the first 10,000 characters of the page between them, each at a fixed
   * offset.
   */
  lemma RenderEmbeds(t: PromptTemplate, competitorName: string, content: string)
    ensures var p := Render(t, competitorName, content);
            var n, c, m := |t.beforeName|, |t.afterName|, Min(|content|, MaxPromptContent);
            && |p| == n + |competitorName| + c + m + |t.afterContent|
            && p[..n] == t.beforeName
            && p[n..n + |competitorName|] == competitorName
            && p[n + |competitorName|..n + |competitorName| + c] == t.afterName
            && p[n + |competitorName| + c..n + |competitorName| + c + m] == content[..m]
            && p[|p| - |t.afterContent|..] == t.afterContent
  {
  }

  /** Page text past the first 10,000 characters does not change a rendered prompt. */
  lemma RenderIgnoresContentPastLimit(t: PromptTemplate, competitorName: string, c1: string, c2: string)
    requires |c1| >= MaxPromptContent && |c2| >= MaxPromptContent
    requires c1[..MaxPromptContent] == c2[..MaxPromptContent]
    ensures Render(t, competitorName, c1) == Render(t, competitorName, c2)
  {
  }

  // ---------------------------------------------------------------------
  // Brace-span extraction: the regular expression `\{.*\}` with DOTALL
  // ---------------------------------------------------------------------

  /** The pattern matches `s[i..j+1]`: it opens with `{` and closes with a later `}`. */
  predicate MatchesAt(s: string, i: int, j: int)
  {
    0 <= i < j < |s| && s[i] == '{' && s[j] == '}'
  }

  /** Position of the first `c` in `s`. */
  function FirstIndexOf(s: string, c: char): (r: Option<nat>)
    ensures r.Some? ==> r.value < |s| && s[r.value] == c
    ensures r.Some? ==> forall k | 0 <= k < r.value :: s[k] != c
    ensures r.None? ==> forall k | 0 <= k < |s| :: s[k] != c
    decreases |s|
  {
    if s == [] then None
    else if s[0] == c then Some(0)
    else
      match FirstIndexOf(s[1..], c)
      case None => None
      case Some(k) => Some(k + 1)
  }

  /** Position of the last `c` in `s`. */
  function LastIndexOf(s: string, c: char): (r: Option<nat>)
    ensures r.Some? ==> r.value < |s| && s[r.value] == c
    ensures r.Some? ==> forall k | r.value < k < |s| :: s[k] != c
    ensures r.None? ==> forall k | 0 <= k < |s| :: s[k] != c
    decreases |s|
  {
    if s == [] then None
    else if s[|s| - 1] == c then Some(|s| - 1)
    else LastIndexOf(s[..|s| - 1], c)
  }

  /**
   * The bounds of the match a search for `\{.*\}` finds: it exists exactly
   * when some match exists, and it encloses every other match (leftmost
   * start, then greedy end).
   */
  function BraceSpan(s: string): (r: Option<(nat, nat)>)
    ensures r.Some? ==> MatchesAt(s, r.value.0, r.value.1)
    ensures r.Some? ==> forall i, j | MatchesAt(s, i, j) :: r.value.0 <= i && j <= r.value.1
    ensures r.None? ==> forall i, j :: !MatchesAt(s, i, j)
  {
    match FirstIndexOf(s, '{')
    case None => None
    case Some(i) =>
      match LastIndexOf(s, '}')
      case None => None
      case Some(j) => if i < j then Some((i, j)) else None
  }

  /** The text of the greedy brace span, if any. */
  function ExtractJsonSpan(s: string): (r: Option<string>)
    ensures r.Some? <==> exists i, j :: MatchesAt(s, i, j)
    ensures r.Some? ==> |r.value| >= 2 && r.value[0] == '{' && r.value[|r.value| - 1] == '}'
  {
    match BraceSpan(s)
    case None => None
    case Some((i, j)) => Some(s[i..j + 1])
  }

  /**
   * An object wrapped in text with no `{` before it and no `}` after it is
   * extracted exactly.
   */
  lemma {:induction false} SpanOfWrappedObject(prefix: string, body: string, suffix: string)
    requires |body| >= 2 && body[0] == '{' && body[|body| - 1] == '}'
    requires forall k | 0 <= k < |prefix| :: prefix[k] != '{'
    requires forall k | 0 <= k < |suffix| :: suffix[k] != '}'
    ensures ExtractJsonSpan(prefix + body + suffix) == Some(body)
  {
    var s := prefix + body + suffix;
    var lo, hi := |prefix|, |prefix| + |body| - 1;
    assert MatchesAt(s, lo, hi);
    assert forall k | 0 <= k < lo :: s[k] == prefix[k];
    assert forall k | hi < k < |s| :: s[k] == suffix[k - lo - |body|];
    assert s[lo..hi + 1] == body;
  }

  // ---------------------------------------------------------------------
  // Decoded answers and weaknesses
  // ---------------------------------------------------------------------

  /** A value `json.loads` can produce; numbers are kept only as "not a string". */
  datatype Json =
    | JNull
    | JBool(b: bool)
    | JNumber(n: int)
    | JString(s: string)
    | JArray(items: seq<Json>)
    | JObject(fields: map<string, Json>)

  /** `fields` has `key` bound to a string. */
  predicate TextField(fields: map<string, Json>, key: string)
  {
    key in fields && fields[key].JString?
  }

  /**
   * Building one weakness record from a decoded value: it must be an object
   * with the four fields bound to strings; other keys are ignored.
   */
  function AsWeakness(v: Json): (w: Option<ProductWeakness>)
    ensures w.Some? <==> v.JObject? && TextField(v.fields, "title") && TextField(v.fields, "description") &&
                         TextField(v.fields, "severity") && TextField(v.fields, "category")
    ensures w.Some? ==> v.fields["title"] == JString(w.value.title) &&
                        v.fields["description"] == JString(w.value.description) &&
                        v.fields["severity"] == JString(w.value.severity) &&
                        v.fields["category"] == JString(w.value.category)
  {
    match v
    case JObject(f) =>
      if TextField(f, "title") && TextField(f, "description") && TextField(f, "severity") && TextField(f, "category")
      then Some(ProductWeakness(f["title"].s, f["description"].s, f["severity"].s, f["category"].s))
      else None
    case _ => None
  }

  /** A weakness as the object the prompt asks the model for. */
  function WeaknessJson(w: ProductWeakness): Json
  {
    JObject(map["title" := JString(w.title), "description" := JString(w.description),
                "severity" := JString(w.severity), "category" := JString(w.category)])
  }

  /**
   * The list comprehension over an array of decoded items: all records in
   * order, or the first item that could not be built.
   */
  function RecordsFrom(items: seq<Json>): (r: Result<seq<ProductWeakness>, Json>)
    ensures r.Success? <==> forall k | 0 <= k < |items| :: AsWeakness(items[k]).Some?
    ensures r.Success? ==> |r.value| == |items|
    ensures r.Success? ==> forall k | 0 <= k < |items| :: AsWeakness(items[k]) == Some(r.value[k])
    ensures r.Failure? ==> exists k | 0 <= k < |items| ::
              && items[k] == r.error && AsWeakness(items[k]).None?
              && forall j | 0 <= j < k :: AsWeakness(items[j]).Some?
    decreases |items|
  {
    if items == [] then Success([])
    else
      match AsWeakness(items[0])
      case None => Failure(items[0])
      case Some(w) =>
        match RecordsFrom(items[1..])
        case Failure(bad) => Failure(bad)
        case Success(rest) => Success([w] + rest)
  }

  /**
   * Iterating the value under `"weaknesses"`: an array yields its items; an
   * empty string or empty object yields nothing; any other string or object
   * yields items (characters, keys) no record can be built from; anything
   * else is not iterable. The error is the value itself.
   */
  function IterateRecords(v: Json): (r: Result<seq<ProductWeakness>, Json>)
    ensures v.JArray? ==> (r.Success? <==> forall k | 0 <= k < |v.items| :: AsWeakness(v.items[k]).Some?)
    ensures v.JArray? && r.Success? ==>
              |r.value| == |v.items| && forall k | 0 <= k < |v.items| :: AsWeakness(v.items[k]) == Some(r.value[k])
    ensures v.JArray? && r.Failure? ==> exists k | 0 <= k < |v.items| ::
              && v.items[k] == r.error && AsWeakness(v.items[k]).None?
              && forall j | 0 <= j < k :: AsWeakness(v.items[j]).Some?
    ensures v == JString("") || v == JObject(map[]) ==> r == Success([])
    ensures !v.JArray? && v != JString("") && v != JObject(map[]) ==> r == Failure(v)
  {
    match v
    case JArray(items) => RecordsFrom(items)
    case JString(s) => if s == "" then Success([]) else Failure(v)
    case JObject(f) => if f == map[] then Success([]) else Failure(v)
    case _ => Failure(v)
  }

  /**
   * The weaknesses of a decoded answer: the records of its `"weaknesses"`
   * entry, none when the key is missing; the error is the value whose
   * processing raised.
   */
  function WeaknessesFrom(doc: Json): (r: Result<seq<ProductWeakness>, Json>)
    ensures !doc.JObject? ==> r == Failure(doc)
    ensures doc.JObject? && "weaknesses" !in doc.fields ==> r == Success([])
    ensures doc.JObject? && "weaknesses" in doc.fields && doc.fields["weaknesses"].JArray? ==>
              var items := doc.fields["weaknesses"].items;
              (r.Success? <==> forall k | 0 <= k < |items| :: AsWeakness(items[k]).Some?) &&
              (r.Success? ==> |r.value| == |items| &&
                              forall k | 0 <= k < |items| :: AsWeakness(items[k]) == Some(r.value[k])) &&
              (r.Failure? ==> exists k | 0 <= k < |items| ::
                                && items[k] == r.error && AsWeakness(items[k]).None?
                                && forall j | 0 <= j < k :: AsWeakness(items[j]).Some?)
    ensures doc.JObject? && "weaknesses" in doc.fields &&
            (doc.fields["weaknesses"] == JString("") || doc.fields["weaknesses"] == JObject(map[])) ==>
              r == Success([])
    ensures doc.JObject? && "weaknesses" in doc.fields && !doc.fields["weaknesses"].JArray? &&
            doc.fields["weaknesses"] != JString("") && doc.fields["weaknesses"] != JObject(map[]) ==>
              r == Failure(doc.fields["weaknesses"])
  {
    match doc
    case JObject(f) => if "weaknesses" in f then IterateRecords(f["weaknesses"]) else Success([])
    case _ => Failure(doc)
  }

  /** The document the prompt asks for, listing `ws`. */
  function ListDocument(ws: seq<ProductWeakness>): Json
  {
    JObject(map["weaknesses" := JArray(seq(|ws|, k requires 0 <= k < |ws| => WeaknessJson(ws[k])))])
  }

  /** Decoding the document that lists `ws` gives back `ws`, in order. */
  lemma {:induction false} WeaknessesFromListDocument(ws: seq<ProductWeakness>)
    ensures WeaknessesFrom(ListDocument(ws)) == Success(ws)
  {
    var items := seq(|ws|, k requires 0 <= k < |ws| => WeaknessJson(ws[k]));
    forall k | 0 <= k < |items|
      ensures AsWeakness(items[k]) == Some(ws[k])
    {
      assert items[k] == WeaknessJson(ws[k]);
    }
    var r := WeaknessesFrom(ListDocument(ws));
    assert ListDocument(ws).fields["weaknesses"] == JArray(items);
    assert r.Success?;
    assert |r.value| == |ws|;
    assert forall k | 0 <= k < |ws| :: r.value[k] == ws[k];
    assert r.value == ws;
  }

  // ---------------------------------------------------------------------
  // Placeholder weaknesses
  // ---------------------------------------------------------------------

  // The fixed wording of the placeholders, one constant per literal.
  const UnavailableTitle := "AI Analysis Unavailable"
  const UnavailableText := "Google AI service is currently unavailable. This appears to be a temporary API issue."
  const ManualTitle := "Manual Review Required"
  const ManualBefore := "Content was successfully scraped from "
  const ManualAfter := " but AI analysis failed. Manual review recommended."
  const ServiceTitle := "AI Service Error"
  const ServiceBefore := "Google AI analysis failed: "
  const ServiceAfter := ". Content scraping was successful."
  const IssueTitle := "AI Response Parsing Issue"
  const IssueText := "AI provided a response but it couldn't be parsed as JSON"
  const ErrorTitle := "Analysis parsing error"
  const ErrorBefore := "Failed to parse AI analysis: "
  const Medium := "medium"
  const Low := "low"
  const Technical := "technical"

  /** The two placeholders used when no model is available. */
  function UnavailablePlaceholders(targetUrl: string): seq<ProductWeakness>
  {
    [ ProductWeakness(UnavailableTitle, UnavailableText, Medium, Technical),
      ProductWeakness(ManualTitle, ManualBefore + targetUrl + ManualAfter, Low, Technical) ]
  }

  /** The placeholder used when generation raises. */
  function ServiceErrorPlaceholder(message: string): ProductWeakness
  {
    ProductWeakness(ServiceTitle, ServiceBefore + message + ServiceAfter, Medium, Technical)
  }

  /** The placeholder used when the answer holds no brace span. */
  const ParsingIssuePlaceholder := ProductWeakness(IssueTitle, IssueText, Medium, Technical)

  /** The placeholder used when decoding the span or building the records raises. */
  function ParsingErrorPlaceholder(message: string): ProductWeakness
  {
    ProductWeakness(ErrorTitle, ErrorBefore + message, Medium, Technical)
  }

  /**
   * Parsing a non-empty answer: the records of its decoded brace span, or one
   * placeholder when there is no span, when decoding fails (`loads` gives the
   * decoder's message) or when building the records fails (`explain` gives
   * the message of the exception raised on the offending value).
   */
  function ParseResponse(text: string, loads: string -> Result<Json, string>, explain: Json -> string)
    : (ws: seq<ProductWeakness>)
    ensures ExtractJsonSpan(text).None? ==> ws == [ParsingIssuePlaceholder]
    ensures ExtractJsonSpan(text).Some? && loads(ExtractJsonSpan(text).value).Failure? ==>
              ws == [ParsingErrorPlaceholder(loads(ExtractJsonSpan(text).value).error)]
    ensures ExtractJsonSpan(text).Some? && loads(ExtractJsonSpan(text).value).Success? ==>
              var found := WeaknessesFrom(loads(ExtractJsonSpan(text).value).value);
              && (found.Success? ==> ws == found.value)
              && (found.Failure? ==> ws == [ParsingErrorPlaceholder(explain(found.error))])
  {
    match ExtractJsonSpan(text)
    case None => [ParsingIssuePlaceholder]
    case Some(span) =>
      match loads(span)
      case Failure(message) => [ParsingErrorPlaceholder(message)]
      case Success(doc) =>
        match WeaknessesFrom(doc)
        case Failure(bad) => [ParsingErrorPlaceholder(explain(bad))]
        case Success(ws) => ws
  }

  /**
   * An answer that wraps, in commentary free of braces, an object that
   * decodes to the requested format yields exactly the weaknesses listed.
   */
  lemma {:induction false} ParseRecoversListedWeaknesses(prefix: string, body: string, suffix: string,
                                                          ws: seq<ProductWeakness>,
                                                          loads: string -> Result<Json, string>,
                                                          explain: Json -> string)
    requires |body| >= 2 && body[0] == '{' && body[|body| - 1] == '}'
    requires forall k | 0 <= k < |prefix| :: prefix[k] != '{'
    requires forall k | 0 <= k < |suffix| :: suffix[k] != '}'
    requires loads(body) == Success(ListDocument(ws))
    ensures ParseResponse(prefix + body + suffix, loads, explain) == ws
  {
    SpanOfWrappedObject(prefix, body, suffix);
    WeaknessesFromListDocument(ws);
  }

  // ---------------------------------------------------------------------
  // The handler
  // ---------------------------------------------------------------------

  /** One generation call: the answer's text, or the exception's message. */
  datatype GenerationCall = GenText(text: string) | GenRaised(message: string)

  /** Everything the handler learns from outside during one request. */
  datatype Collaborators = Collaborators(
    fetch: (Scraper.FirecrawlApp, string) -> Scraper.ScrapeCall,  // the scraping provider
    instantiable: set<string>,                                   // ids a model instance can be built for now
    generate: (ModelHandle, string) -> GenerationCall,           // the generation provider
    loads: string -> Result<Json, string>,                       // `json.loads`
    explain: Json -> string,                                     // message of a failed record construction
    lookup: Database.QueryReply,                                 // the store's reply to the name lookup
    competitorInsert: Database.InsertReply,                      // ... to the competitor insert
    insightsInsert: Database.InsertReply,                        // ... to the insights insert
    storeTime: Timestamp,                                        // the store's clock
    now: Timestamp)                                              // the server's clock

  /** The handler's answer: a response body, or an HTTP error with its detail. */
  datatype HttpOutcome = Ok(response: AnalysisResponse) | HttpError(status: int, detail: string)

  const ScrapeFailedDetail := "Failed to scrape content from the provided URL"

  /** Text of the error raised when `weaknesses` is read before any branch bound it. */
  const UnboundWeaknesses := "cannot access local variable 'weaknesses' where it is not associated with a value"

  const ServerErrorPrefix := "Analysis failed: "

  /** Any exception other than an HTTP one becomes a 500 with its text. */
  function ServerError(message: string): HttpOutcome
  {
    HttpError(500, ServerErrorPrefix + message)
  }

  /** What the scraper returns for the request's URL. */
  function Scraped(scraper: Scraper.ContentScraper, request: AnalyzeRequest, env: Collaborators): Option<string>
  {
    Scraper.ScrapeUrl(scraper, request.targetUrl, env.fetch)
  }

  /** The get-or-create step succeeds on the tables `rows`. */
  predicate CompetitorAvailable(rows: seq<CompetitorRecord>, name: string, env: Collaborators)
  {
    env.lookup.Answered? && (Database.FirstNamed(rows, name).Some? || env.competitorInsert.Stored?)
  }

  /**
   * The weaknesses the handler arrives at with model `selected`, or `None`
   * when no branch binds them (the model answered with empty text).
   */
  function Drafted(template: PromptTemplate, selected: Option<ModelHandle>, request: AnalyzeRequest, content: string, env: Collaborators)
    : (r: Option<seq<ProductWeakness>>)
    ensures r.None? <==> selected.Some? &&
                         env.generate(selected.value, Render(template, request.competitorName, content)) == GenText("")
    ensures selected.None? ==> r == Some(UnavailablePlaceholders(request.targetUrl))
    ensures selected.Some? && env.generate(selected.value, Render(template, request.competitorName, content)).GenRaised? ==>
              r == Some([ServiceErrorPlaceholder(
                           env.generate(selected.value, Render(template, request.competitorName, content)).message)])
    ensures selected.Some? && env.generate(selected.value, Render(template, request.competitorName, content)).GenText? &&
            env.generate(selected.value, Render(template, request.competitorName, content)).text != "" ==>
              r == Some(ParseResponse(env.generate(selected.value, Render(template, request.competitorName, content)).text,
                                      env.loads, env.explain))
  {
    match selected
    case None => Some(UnavailablePlaceholders(request.targetUrl))
    case Some(h) =>
      match env.generate(h, Render(template, request.competitorName, content))
      case GenRaised(message) => Some([ServiceErrorPlaceholder(message)])
      case GenText(text) => if text == "" then None else Some(ParseResponse(text, env.loads, env.explain))
  }

  /** The weaknesses do not depend on page text past the first 10,000 characters. */
  lemma {:induction false} DraftedIgnoresContentPastLimit(template: PromptTemplate, selected: Option<ModelHandle>, request: AnalyzeRequest,
                                                          c1: string, c2: string, env: Collaborators)
    requires |c1| >= MaxPromptContent && |c2| >= MaxPromptContent
    requires c1[..MaxPromptContent] == c2[..MaxPromptContent]
    ensures Drafted(template, selected, request, c1, env) == Drafted(template, selected, request, c2, env)
  {
    RenderIgnoresContentPastLimit(template, request.competitorName, c1, c2);
  }

  /**
   * The handler's model selection: a non-empty requested id outside the
   * allow-list is refused; a supported one is instantiated if possible;
   * otherwise the server default stands.
   */
  method SelectModel(model: Option<string>, instantiable: set<string>, serverModel: Option<ModelHandle>)
    returns (r: Result<Option<ModelHandle>, string>)
    ensures r == ModelChoice(model, instantiable, serverModel)
  {
    var selected: Option<ModelHandle> := None;
    if Requests(model) {
      if !IsSupported(model.value) {
        return Failure(UnsupportedModelDetail(model.value));
      }
      if model.value in instantiable {
        selected := Some(ModelHandle(model.value));
      }
    }
    if selected.None? {
      selected := serverModel;
    }
    r := Success(selected);
  }

  /**
   * The handler's generation and parsing: placeholders without a model or
   * when generation raises; the parsed answer when it is non-empty; `None`
   * (weaknesses left unbound) when it is empty.
   */
  method DraftWeaknesses(template: PromptTemplate, selected: Option<ModelHandle>, request: AnalyzeRequest, content: string, env: Collaborators)
    returns (weaknesses: Option<seq<ProductWeakness>>)
    ensures weaknesses == Drafted(template, selected, request, content, env)
  {
    weaknesses := None;                       // `None` while unbound
    var aiResponse: Option<string> := None;   // `None` while unbound
    if selected.None? {
      weaknesses := Some(UnavailablePlaceholders(request.targetUrl));
    } else {
      var prompt := Render(template, request.competitorName, content);
      match env.generate(selected.value, prompt)
      case GenRaised(message) =>
        weaknesses := Some([ServiceErrorPlaceholder(message)]);
      case GenText(text) =>
        aiResponse := Some(text);
    }
    if aiResponse.Some? && aiResponse.value != "" {
      weaknesses := Some(ParseResponse(aiResponse.value, env.loads, env.explain));
    }
  }

  /**
   * The handler's answer once the model is chosen, given the weaknesses it
   * drafted: unbound weaknesses and a failed save are 500s; otherwise the
   * response echoes the request and reports the full scraped length.
   */
  predicate Outcome(request: AnalyzeRequest, content: string, drafted: Option<seq<ProductWeakness>>,
                    env: Collaborators, out: HttpOutcome)
  {
    && (drafted.None? ==> out == ServerError(UnboundWeaknesses))
    && (drafted.Some? && drafted.value != [] && !env.insightsInsert.Stored? ==>
          out == ServerError(Database.SaveFailed(
                   Database.InsertFault(env.insightsInsert, Database.NoInsightData)).Message()))
    && (drafted.Some? && (drafted.value == [] || env.insightsInsert.Stored?) ==>
          out == Ok(AnalysisResponse(request.competitorName, request.targetUrl, drafted.value,
                                     env.now, |content|)))
  }

  /**
   * `POST /analyze`. Each outcome is stated against the inputs and the
   * tables before the call: a failed scrape touches nothing; a failed
   * get-or-create is a 500; otherwise the competitor is found or added
   * (never updated), and then an unsupported model is a 400, unbound
   * weaknesses and a failed save are 500s, and a success echoes the
   * request, reports the full scraped length, and the insights table grows
   * by one row per weakness.
   */
  method AnalyzeCompetitor(db: Database.DatabaseManager, scraper: Scraper.ContentScraper,
                           serverModel: Option<ModelHandle>, request: AnalyzeRequest, env: Collaborators)
    returns (out: HttpOutcome)
    requires db.Valid()
    modifies db
    ensures db.Valid()
    ensures out.HttpError? ==> db.insights == old(db.insights)
    ensures !Scraper.Truthy(Scraped(scraper, request, env)) ==>
              out == HttpError(400, ScrapeFailedDetail) &&
              db.competitors == old(db.competitors)
    ensures Scraper.Truthy(Scraped(scraper, request, env)) ==>
              AnalyzedScraped(old(db.competitors), db.competitors, serverModel, request,
                              Scraped(scraper, request, env).value, env, out)
    ensures out.Ok? ==>
              var competitor := Database.FirstNamed(db.competitors, request.competitorName);
              && competitor.Some?
              && old(db.insights) <= db.insights
              && Database.MirrorsAll(db.insights[|old(db.insights)|..], competitor.value.id, out.response.weaknesses)
  {
    // Step 1: scrape the target URL.
    var scraped := Scraper.ScrapeUrl(scraper, request.targetUrl, env.fetch);
    if !Scraper.Truthy(scraped) {
      return HttpError(400, ScrapeFailedDetail);
    }
    out := AnalyzeScraped(db, serverModel, request, scraped.value, env);
  }

  /**
   * The outcome of `POST /analyze` once the page is scraped, against the
   * competitors table `before` and `after` the call: a failed get-or-create
   * is a 500 with the store's message and leaves the table as it was;
   * otherwise the competitor is found or added, and the rest of the outcome
   * is that of the model choice and of the drafted weaknesses.
   */
  ghost predicate AnalyzedScraped(before: seq<CompetitorRecord>, after: seq<CompetitorRecord>,
                                  serverModel: Option<ModelHandle>, request: AnalyzeRequest, content: string,
                                  env: Collaborators, out: HttpOutcome)
  {
    && (!CompetitorAvailable(before, request.competitorName, env) ==>
          && out == ServerError((if env.lookup.QueryRaised? then Database.QueryFailed(env.lookup.message)
                                 else Database.CreateFailed(Database.InsertFault(env.competitorInsert,
                                                                                 Database.NoCompetitorData))).Message())
          && after == before)
    && (CompetitorAvailable(before, request.competitorName, env) ==>
          var choice := ModelChoice(request.model, env.instantiable, serverModel);
          && Database.GetOrCreated(before, after, request.competitorName, request.targetUrl, env.storeTime)
          && (choice.Failure? ==> out == HttpError(400, choice.error))
          && (choice.Success? ==> Outcome(request, content, Drafted(AnalystPrompt, choice.value, request, content, env),
                                          env, out)))
  }

  /** Steps 2 to 5 of `POST /analyze`, once the page is scraped. */
  method AnalyzeScraped(db: Database.DatabaseManager, serverModel: Option<ModelHandle>, request: AnalyzeRequest,
                        content: string, env: Collaborators)
    returns (out: HttpOutcome)
    requires db.Valid()
    modifies db
    ensures db.Valid()
    ensures out.HttpError? ==> db.insights == old(db.insights)
    ensures AnalyzedScraped(old(db.competitors), db.competitors, serverModel, request, content, env, out)
    ensures out.Ok? ==>
              var competitor := Database.FirstNamed(db.competitors, request.competitorName);
              && competitor.Some?
              && old(db.insights) <= db.insights
              && Database.MirrorsAll(db.insights[|old(db.insights)|..], competitor.value.id, out.response.weaknesses)
  {
    // Step 2: get or create the competitor.
    var created := db.CreateCompetitor(request.competitorName, request.targetUrl,
                                       env.lookup, env.competitorInsert, env.storeTime);
    if created.Failure? {
      return ServerError(created.error.Message());
    }
    var competitor := created.value;

    // Steps 3 to 5.
    out := FinishAnalysis(db, competitor.id, serverModel, AnalystPrompt, request, content, env);
  }

  /**
   * Steps 3 to 5 of `POST /analyze`, once the competitor row is available:
   * model selection, generation and parsing, saving the insights.
   */
  method FinishAnalysis(db: Database.DatabaseManager, competitorId: Id, serverModel: Option<ModelHandle>,
                        template: PromptTemplate, request: AnalyzeRequest, content: string, env: Collaborators)
    returns (out: HttpOutcome)
    requires db.Valid()
    modifies db
    ensures db.Valid()
    ensures db.competitors == old(db.competitors)
    ensures out.HttpError? ==> db.insights == old(db.insights)
    ensures var choice := ModelChoice(request.model, env.instantiable, serverModel);
            && (choice.Failure? ==> out == HttpError(400, choice.error))
            && (choice.Success? ==> Outcome(request, content, Drafted(template, choice.value, request, content, env), env, out))
    ensures out.Ok? ==>
              && old(db.insights) <= db.insights
              && Database.MirrorsAll(db.insights[|old(db.insights)|..], competitorId, out.response.weaknesses)
  {
    // Step 3: pick the model.
    var choice := SelectModel(request.model, env.instantiable, serverModel);
    if choice.Failure? {
      return HttpError(400, choice.error);
    }

    // Step 4: generate and parse.
    var weaknesses := DraftWeaknesses(template, choice.value, request, content, env);
    if weaknesses.None? {
      return ServerError(UnboundWeaknesses);
    }

    // Step 5: save the insights and answer.
    ghost var before := db.insights;
    var saved := db.SaveInsights(competitorId, weaknesses.value, env.insightsInsert, env.storeTime);
    if saved.Failure? {
      return ServerError(saved.error.Message());
    }
    assert db.insights[|before|..] == saved.value;
    out := Ok(AnalysisResponse(request.competitorName, request.targetUrl, weaknesses.value,
                               env.now, |content|));
  }
}
