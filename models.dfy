/**
 * The record shapes of the backend (backend/models.py): the request body of
 * `POST /analyze`, one weakness, the response, and the two table rows.
 * Timestamps are opaque clock readings and identifiers are opaque values
 * generated by the store.
 */
module Models {
  import opened Wrappers

  /** An opaque clock reading (`datetime`). */
  type Timestamp = int

  /** An identifier generated by the store for a row. */
  type Id = nat

  /** Body of `POST /analyze`; `model` is optional. */
  datatype AnalyzeRequest = AnalyzeRequest(targetUrl: string, competitorName: string, model: Option<string>)

  /** One weakness; `severity` and `category` are free strings, not enumerations. */
  datatype ProductWeakness = ProductWeakness(title: string, description: string, severity: string, category: string)

  /** Body of a successful `POST /analyze` response. */
  datatype AnalysisResponse = AnalysisResponse(
    competitorName: string,
    targetUrl: string,
    weaknesses: seq<ProductWeakness>,
    analyzedAt: Timestamp,
    rawContentLength: nat)

  /** A row of the `competitors` table. */
  datatype CompetitorRecord = CompetitorRecord(
    id: Id,
    name: string,
    targetUrl: string,
    createdAt: Timestamp,
    updatedAt: Timestamp)

  /** A row of the `insights` table. */
  datatype InsightRecord = InsightRecord(
    id: Id,
    competitorId: Id,
    weaknessTitle: string,
    weaknessDescription: string,
    severity: string,
    category: string,
    createdAt: Timestamp)
}
