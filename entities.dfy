/**
 * `SearchHistoryEntity` (worker/entities.ts): where history records live and
 * the state an entity reports before anything has been stored under its id.
 */
module Entities {

  import opened Types

  /** The name records are stored under. */
  const EntityName: string := "searchHistory"

  /** The name of the index that enumerates the stored ids. */
  const IndexName: string := "searchHistories"

  /** `initialState`: empty id, empty query, placeholder payload, time 0, no owner. */
  const InitialState: SearchHistoryEntry :=
    SearchHistoryEntry("", SearchQuery("", "", "", ""), EnrichmentData(None, Placeholder), 0, "")

  /** Records and the index of their ids are kept under different names. */
  lemma NamesDistinct()
    ensures EntityName != IndexName
  {
    assert |EntityName| != |IndexName|;
  }
}
