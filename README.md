# bsp-persona enrichment core in Dafny

This project models the core of bsp-persona. The service takes a search query
about a person (name, title, company, additional information) and returns
enrichment data for it. It caches each answer for two hours under a
fingerprint of the query, keeps the latest computed answer for each
fingerprint as its history, and runs a browser-side store that drives both calls.

Six modules follow the program's own files. Two have no source file of their
own: `Strings` holds string helpers the others share, and `HistoryStore`
stands for the indexed-entity storage library the worker builds on, whose
source is not part of this model.

- `Types` (types.dfy): the shared records. These are `SearchQuery`,
  `EnrichmentData` and `SearchHistoryEntry`, plus the `{success, data | error}`
  response envelope as `Response`.
- `Strings` (strings.dfy): `join`, `split` and a lexicographic string order
  standing in for `localeCompare`. The order is proved a strict total order.
- `QueryHash` (query_hash.dfy): `createQueryHash`. It covers the key sort,
  the `key:value` rendering, the `|` join, the user prefix and the lower-case
  hex encoding of the digest. SHA-256 itself is a parameter. The proofs show
  three things:
  - The canonical string does not depend on field order.
  - The string decodes back to its parts when no value contains a delimiter.
  - Two different queries do collide when a value contains the delimiters.
- `Entities` (entities.dfy): the entity and index names and the initial state
  of a history entity.
- `HistoryStore` (history_store.dfy): the history entity store as a class.
  Its fields are the record map and the id index. It offers `getState`,
  `create` and `list`.
- `UserRoutes` (user_routes.dfy): the `/api/enrich` handler with its two-hour
  cache, and the `/api/history` handler with its newest-first sort. The sort
  is an in-place insertion sort on an array, proved sorted and a permutation.
- `AppStore` (app_store.dfy): the client state store as a class. Each action
  changes exactly the fields the source sets. The two asynchronous actions
  are split at their `await`.
- `HistoryPage` (history_page.dfy): the one-line summary of a query shown in
  the history list.

Five behaviours of the code are easy to miss:

- The worker refuses only a request with no query at all. A query whose
  fields are all blank is refused by the client store only
  (`UserRoutes.PresentQueryAnswered`, `AppStore.Store.StartEnrichment`).
- A cache hit is not a separate result kind. It is the ordinary data with
  `"(Cached) "` put in front of the stored title. A stored entry without a
  title yields `"(Cached) undefined"`.
- The enrich handler does not catch store failures. Only the history handler
  turns a failure into an error response.
- History entries with equal timestamps keep the order the store lists them
  in; they are not ordered by id. The history is not filtered by user.
- A recompute overwrites the earlier record under the same fingerprint, so
  the history holds one record per fingerprint
  (`UserRoutes.RepeatAfterWindowRecomputes`, `UserRoutes.ThreeRequests`).

## Model

| member | source | states |
|---|---|---|
| Strings.LtTrichotomous | worker/user-routes.ts:94 | the string order used for the key sort is total and asymmetric: exactly one of equal, less or greater holds for any two keys |
| Strings.LtTransitive | worker/user-routes.ts:94 | the key-comparison order is transitive, so sorting by it is well defined |
| Strings.SplitAllJoin | worker/user-routes.ts:96 | splitting a joined non-empty list of parts that do not contain the one-character separator returns exactly those parts (the inverse of the join) |
| QueryHash.InsertSorted | worker/user-routes.ts:93-94 | inserting an entry into a key-sorted list keeps it key-sorted and adds exactly that entry (multiset) |
| QueryHash.SortEntries | worker/user-routes.ts:93-94 | the key sort as a stable insertion sort; no ensures of its own, its properties are `QueryHash.SortEntriesSorted` and `QueryHash.SortedUnique` |
| QueryHash.SortEntriesSorted | worker/user-routes.ts:93-94 | the sorted entries are ordered by key and are a permutation of the query's entries |
| QueryHash.SortedUnique | worker/user-routes.ts:93-94 | two key-sorted permutations of the same entries with unique keys are identical, so the sort result does not depend on the input order |
| QueryHash.QueryEntriesSorted | worker/user-routes.ts:93-94 | the four query fields sort as additionalInfo, companyName, personName, title |
| QueryHash.CanonicalString | worker/user-routes.ts:93-97 | the string to hash for any list of entries: user id, bar, then the sorted entries rendered as key colon value and joined by bars; no ensures, described by `QueryHash.CanonicalStringOrderIndependent` and `QueryHash.CanonicalRoundTrip` |
| QueryHash.CanonicalStringOrderIndependent | worker/user-routes.ts:93-97 | two entry lists that are permutations of each other with unique keys give the same string to hash |
| QueryHash.CanonicalRoundTrip | worker/user-routes.ts:93-97 | when the user id contains no bar, no key or value contains a bar and no key contains a colon, the string to hash decodes back to the user id and the sorted entries |
| QueryHash.CanonicalInjective | worker/user-routes.ts:93-97 | under the same delimiter-free condition, equal strings to hash mean the same user and the same sorted entries |
| QueryHash.QueryString | worker/user-routes.ts:93-97 | the string to hash for a query's four entries; no ensures, described by `QueryHash.QueryStringLayout` and `QueryHash.QueryStringInjective` |
| QueryHash.QueryStringLayout | worker/user-routes.ts:93-97 | the string to hash is the user id, then additionalInfo, companyName, personName and title rendered as key colon value, all joined by bars |
| QueryHash.QueryStringInjective | worker/user-routes.ts:93-97 | for bar-free user ids and values, two (user, query) pairs give the same string to hash exactly when both the users and the queries are equal |
| QueryHash.DelimiterInValueCollides | worker/user-routes.ts:95-97 | values containing a bar followed by `companyName:` let two different queries share one string to hash, and so one cache key |
| QueryHash.ToHex | worker/user-routes.ts:101-102 | the hex form has two characters per byte, all lower-case hex digits |
| QueryHash.HexRoundTrip | worker/user-routes.ts:101-102 | decoding the hex form of a byte string gives back the bytes |
| QueryHash.HexDecodeEncodes | worker/user-routes.ts:101-102 | any string the decoder accepts is the hex form of what it decodes to |
| QueryHash.CreateQueryHash | worker/user-routes.ts:92-103 | the fingerprint is 64 lower-case hex digits, and it decodes to the digest of the string to hash |
| QueryHash.FingerprintOrderIndependent | worker/user-routes.ts:92-103 | the fingerprint does not depend on the order in which the query's fields are listed |
| Entities.NamesDistinct | worker/entities.ts:10-11 | the entity name and the index name differ |
| HistoryStore.SearchHistoryStore.constructor | worker/entities.ts:9-19 | a new store holds no records and an empty index |
| HistoryStore.SearchHistoryStore.GetState | worker/entities.ts:12-18 | reading an id gives the stored record, or the initial state with empty id and zero timestamp when nothing is stored |
| HistoryStore.SearchHistoryStore.Create | worker/user-routes.ts:136 | creating an entry stores it under its id, replacing any older record, and adds the id to the index |
| HistoryStore.SearchHistoryStore.List | worker/user-routes.ts:141 | listing returns the record of each id in the store's listing order, position by position, so every stored record comes back exactly once and nothing else does |
| UserRoutes.IsCacheHit | worker/user-routes.ts:117 | a stored state is served when its id is non-empty and it is younger than two hours; no ensures, described by `UserRoutes.FreshnessBoundary` and `UserRoutes.InitialStateNeverHit` |
| UserRoutes.CachedCopy | worker/user-routes.ts:119 | a cached answer keeps the stored payload and prefixes the stored title with `(Cached) `; a stored state without a title gives `(Cached) undefined` |
| UserRoutes.OrDefault | worker/user-routes.ts:124 | an empty name or company is replaced by its default, a non-empty one is kept |
| UserRoutes.FreshTitle | worker/user-routes.ts:123-124 | the new title: person or `Person`, ` at `, company or `Company`, ` - Enriched on ` and the date text; no ensures, described by `UserRoutes.MissWritesFreshEntry` |
| UserRoutes.FreshEntry | worker/user-routes.ts:125-135 | the record a miss writes; no ensures, described by `UserRoutes.MissWritesFreshEntry` |
| UserRoutes.Resolve | worker/user-routes.ts:105-138 | the enrich handler as a function of the stored records: the answer and the write, if any; no ensures, described by `UserRoutes.CacheHitIff`, `UserRoutes.MissWritesFreshEntry` and the repeat lemmas, and tied to the store by `UserRoutes.Enrich` |
| UserRoutes.Enrich | worker/user-routes.ts:105-138 | the handler answers as the cache rules say; it writes only on a miss, writes only the new entry under the fingerprint, and changes nothing on a hit or a refusal |
| UserRoutes.MissingQueryRejected | worker/user-routes.ts:107-109 | a request without a query is refused with the fixed message and writes nothing |
| UserRoutes.PresentQueryAnswered | worker/user-routes.ts:107-110 | every request that carries a query is answered with data, blank fields included |
| UserRoutes.InitialStateNeverHit | worker/user-routes.ts:117 | an entity with nothing stored (empty id) is never a cache hit |
| UserRoutes.InitialStateDistinguishable | worker/entities.ts:12-18 | the initial state (the constant `Entities.InitialState`) has an empty id, a zero timestamp and no title, and its id differs from every query fingerprint |
| UserRoutes.FreshnessBoundary | worker/user-routes.ts:116-117 | for a stored entry (non-empty id), a request at any time `now` is a hit exactly when `now` is before the entry's timestamp plus two hours; so one millisecond before that is a hit and that instant itself is a miss |
| UserRoutes.CacheHitIff | worker/user-routes.ts:113-120 | the handler returns the cached copy without writing exactly when a fresh entry is stored under the fingerprint |
| UserRoutes.MissWritesFreshEntry | worker/user-routes.ts:121-137 | on a miss the handler writes an entry keyed by the fingerprint, holding the query, the write time, the user id and the new title, and returns that entry's data |
| UserRoutes.RepeatWithinWindowHits | worker/user-routes.ts:105-138 | repeating a query within two hours of a miss returns the cached copy of the first answer |
| UserRoutes.RepeatAfterWindowRecomputes | worker/user-routes.ts:105-138 | repeating a query two hours or more after a miss computes and stores a new entry |
| UserRoutes.ThreeRequests | worker/user-routes.ts:105-138 | a fresh answer, then a cached copy five minutes later, then a recomputed answer three hours later, all under one index entry |
| UserRoutes.SortNewestFirst | worker/user-routes.ts:144 | the history array is rearranged in place into non-increasing timestamp order, as a permutation of its old contents |
| UserRoutes.History | worker/user-routes.ts:139-150 | a failing list gives the fixed error; otherwise every stored record appears once, newest first, and nothing else appears |
| AppStore.Merge | src/stores/app-store.ts:39 | a partial update replaces exactly the fields it carries and keeps the others |
| AppStore.MergeIdempotent | src/stores/app-store.ts:39 | applying the same partial update twice equals applying it once |
| AppStore.MergeEmpty | src/stores/app-store.ts:39 | an update with no fields leaves the query unchanged |
| AppStore.Trim | src/stores/app-store.ts:42 | `trim()` as both trims in turn; no ensures, described by `AppStore.TrimEmptyIff` |
| AppStore.TrimStart | src/stores/app-store.ts:42 | trimming the front removes a white-space prefix and leaves a suffix that is empty or starts with a non-space; the result is empty exactly when the input is all white space |
| AppStore.TrimEnd | src/stores/app-store.ts:42 | trimming the back removes a white-space suffix and leaves a prefix that is empty or ends with a non-space; the result is empty exactly when the input is all white space |
| AppStore.TrimEmptyIff | src/stores/app-store.ts:42 | a field trims to the empty string exactly when it is entirely whitespace |
| AppStore.IsQueryEmpty | src/stores/app-store.ts:42 | the client guard: every field trims to the empty string; no ensures, described by `AppStore.QueryEmptyIff` |
| AppStore.ErrorMessage | src/stores/app-store.ts:55 | the message of a rejection, or `An unknown error occurred.` when it carries none (also line 66); no ensures, used by `AppStore.Store.FinishEnrichment` and `AppStore.Store.FinishHistory` |
| AppStore.QueryEmptyIff | src/stores/app-store.ts:42 | the client guard fires exactly when all four fields are whitespace only |
| AppStore.Store.constructor | src/stores/app-store.ts:22-36 | a new store is logged out, has the empty query, no data, no history, nothing loading and no error |
| AppStore.Store.Login | src/stores/app-store.ts:37 | logging in sets the authenticated flag and nothing else |
| AppStore.Store.Logout | src/stores/app-store.ts:38 | logging out clears the flag and the enrichment data and resets the query to the empty query; history and errors are kept |
| AppStore.Store.SetQuery | src/stores/app-store.ts:39 | the query becomes the partial update merged over the old query; nothing else changes |
| AppStore.Store.StartEnrichment | src/stores/app-store.ts:40-47 | a whitespace-only query sets the fixed error and sends nothing; otherwise loading is set, data and error are cleared and the current query is sent |
| AppStore.Store.FinishEnrichment | src/stores/app-store.ts:48-58 | success stores the data and stops loading; failure stores the error text or the fallback message and stops loading |
| AppStore.Store.FetchEnrichmentData | src/stores/app-store.ts:40-59 | the whole action: the guard or the request, then the outcome applied |
| AppStore.Store.StartHistory | src/stores/app-store.ts:61 | fetching history sets its loading flag and clears its error, nothing else |
| AppStore.Store.FinishHistory | src/stores/app-store.ts:62-68 | success stores the list and stops loading; failure stops loading and sets the error |
| AppStore.Store.FetchHistory | src/stores/app-store.ts:60-69 | the whole history action: loading set, then the outcome applied |
| HistoryPage.DropEmptyFilters | src/pages/HistoryPage.tsx:61 | the filter output holds no empty string, and every non-empty string occurs in it exactly as often as in the input |
| HistoryPage.SummaryPartsFiltered | src/pages/HistoryPage.tsx:61 | the filtered parts are the four fields in display order, each present exactly when it is not empty |
| HistoryPage.QuerySummary | src/pages/HistoryPage.tsx:60-64 | `getQuerySummary`; no ensures, described by `HistoryPage.SummaryNonEmpty` and the three summary lemmas below |
| HistoryPage.SummaryNonEmpty | src/pages/HistoryPage.tsx:60-64 | the summary is never the empty string |
| HistoryPage.SummaryOfEmptyQuery | src/pages/HistoryPage.tsx:61-62 | a query with all four fields empty is summarised as `Empty Query` |
| HistoryPage.SummaryOfSingleField | src/pages/HistoryPage.tsx:61-63 | a query with exactly one non-empty field is summarised as that field alone |
| HistoryPage.SummaryOfFullQuery | src/pages/HistoryPage.tsx:61-63 | a query with all fields non-empty is summarised as name / title / company / additional information |

## Left out

- SHA-256 and `TextEncoder` are a parameter, any function from strings to 32 bytes. The UTF-8 encoding of the string to hash is therefore not modelled.
- `localeCompare` is modelled as plain code-point lexicographic order. Locale collation is not modelled. Both orders agree on the four field names, which is the only place the comparison is used.
- A query is exactly four strings. JSON bodies with extra keys, missing keys or non-string values are not modelled. Neither is the full `Object.entries` of such a body.
- `Date.now()` and `new Date()` are the parameters `now` and `writeTime`. `toLocaleString()` is the parameter `dateText`.
- The one-second simulated latency (`setTimeout`) and all console logging are left out. Neither changes a result.
- The fixed mock enrichment payload is the opaque constructor `MockEnrichment`. Its field contents are not modelled.
- UserRoutes.Enrich: storage failures in `getState` and `create` are not modelled. The source does not catch them, so they escape the handler.
- The internals of the indexed entity library (durable objects, pagination of `list`) are not part of this model. The store's own listing order is the `order` parameter of `List`, and a failure of `list` is the `listFails` parameter of `History`.
- UserRoutes.SortNewestFirst: stability is not proved. The source's `Array.prototype.sort` keeps entries with equal timestamps in list order; the model only promises newest first as a permutation.
- Concurrent or duplicate requests racing on one fingerprint are not modelled. Each handler call is one atomic step on the store.
- AppStore.Store.SetQuery: a partial update that sets a field explicitly to `undefined` is not modelled. Each field of an update is either present as a string or absent.
- The HTTP client layer (`api-client`), React rendering, routing, the login page and `HomePage`'s submit handler are not part of this model. The store's asynchronous calls take their outcome as a parameter.
