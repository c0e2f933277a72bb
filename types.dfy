/**
 * Value types shared by the worker and the client (shared/types.ts).
 */
module Types {

  datatype Option<+T> = None | Some(value: T)

  /** One element of the `Uint8Array` a digest is read into. */
  newtype byte = x: int | 0 <= x < 256

  /** The multi-field search form: four free-text fields. */
  datatype SearchQuery = SearchQuery(
    personName: string,
    title: string,
    companyName: string,
    additionalInfo: string)

  /**
   * The person, company and outreach sections of an enrichment record. The
   * cache never looks inside them, so they are a blob: either the worker's
   * hard-coded payload or the empty placeholder of an entity's initial state.
   */
  datatype Payload = MockEnrichment | Placeholder

  /** `EnrichmentData`: the payload plus an optional human-readable title. */
  datatype EnrichmentData = EnrichmentData(title: Option<string>, payload: Payload)

  /** `SearchHistoryEntry`: a persisted enrichment result. `timestamp` is in ms. */
  datatype SearchHistoryEntry = SearchHistoryEntry(
    id: string,
    query: SearchQuery,
    data: EnrichmentData,
    timestamp: int,
    userId: string)

  /** What a route handler answers: `ok(c, data)` or `bad(c, message)`. */
  datatype Response<+T> = Ok(data: T) | Bad(error: string)
}
