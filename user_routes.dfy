/**
 * The two worker routes of worker/user-routes.ts: `POST /api/enrich`, a
 * TTL cache in front of the (simulated) enrichment, keyed by the query
 * fingerprint; and `GET /api/history`, every stored record, newest first.
 *
 * The clock, the simulated latency, the date text of the title and SHA-256
 * are inputs; HTTP framing becomes a `Response`.
 */
module UserRoutes {

  import opened Types
  import opened QueryHash
  import Entities
  import opened HistoryStore

  /** The user every request is attributed to: authentication is simulated. */
  const MockUserId: string := "user_12345"

  /** The freshness window of a cached record, in milliseconds. */
  const TwoHoursMs: int := 2 * 60 * 60 * 1000

  const MissingQueryMessage: string := "Missing query in request body."
  const HistoryFailureMessage: string := "Could not retrieve search history."

  /** Prefix that marks a response served from the cache. */
  const CachedMarker: string := "(Cached) "

  // ------------------------------------------------------ cache decision

  /** A stored entry is served iff its id is non-empty and it is younger than two hours. */
  predicate IsCacheHit(cached: SearchHistoryEntry, now: int)
  {
    cached.id != "" && now - cached.timestamp < TwoHoursMs
  }

  /** What a template literal prints for an optional string. */
  function TemplateText(s: Option<string>): string
  {
    match s
    case Some(t) => t
    case None => "undefined"
  }

  /** `{ ...data, title: `(Cached) ${data.title}` }`. */
  function CachedCopy(data: EnrichmentData): (r: EnrichmentData)
    ensures r.payload == data.payload
    ensures r.title.Some? && |r.title.value| >= |CachedMarker| && r.title.value[..|CachedMarker|] == CachedMarker
    ensures data.title.Some? ==> r.title.value[|CachedMarker|..] == data.title.value
    ensures data.title.None? ==> r.title.value == CachedMarker + "undefined"
  {
    data.(title := Some(CachedMarker + TemplateText(data.title)))
  }

  /** JavaScript `s || fallback` on a string. */
  function OrDefault(s: string, fallback: string): (r: string)
    ensures s == "" ==> r == fallback
    ensures s != "" ==> r == s
  {
    if s == "" then fallback else s
  }

  /** The title of a freshly computed record; `dateText` is `toLocaleString()` of the write time. */
  function FreshTitle(q: SearchQuery, dateText: string): string
  {
    OrDefault(q.personName, "Person") + " at " + OrDefault(q.companyName, "Company")
      + " - Enriched on " + dateText
  }

  /** The record a miss writes: the mock payload under the fingerprint, stamped with the write time. */
  function FreshEntry(id: string, q: SearchQuery, writeTime: int, dateText: string): SearchHistoryEntry
  {
    SearchHistoryEntry(id, q, EnrichmentData(Some(FreshTitle(q, dateText)), MockEnrichment), writeTime, MockUserId)
  }

  /** What one `/api/enrich` request answers and what, if anything, it writes. */
  datatype EnrichOutcome = EnrichOutcome(response: Response<EnrichmentData>, written: Option<SearchHistoryEntry>)

  /**
   * The `/api/enrich` handler as a function of the stored records. `now` is
   * `Date.now()` at the freshness check, `writeTime` the `new Date()` taken
   * after the simulated latency.
   */
  function Resolve(records: map<string, SearchHistoryEntry>, body: Option<SearchQuery>, now: int,
                   writeTime: int, dateText: string, sha256: string -> Digest): EnrichOutcome
  {
    match body
    case None => EnrichOutcome(Bad(MissingQueryMessage), None)
    case Some(q) =>
      var id := CreateQueryHash(q, MockUserId, sha256);
      var cached := StoredOrInitial(records, id);
      if IsCacheHit(cached, now) then EnrichOutcome(Ok(CachedCopy(cached.data)), None)
      else
        var e := FreshEntry(id, q, writeTime, dateText);
        EnrichOutcome(Ok(e.data), Some(e))
  }

  /** The records after an outcome's write, if any. */
  function AfterWrite(records: map<string, SearchHistoryEntry>, written: Option<SearchHistoryEntry>)
    : map<string, SearchHistoryEntry>
  {
    match written
    case None => records
    case Some(e) => records[e.id := e]
  }

  /** `app.post('/api/enrich', ...)`: decide, and write through the store on a miss. */
  method Enrich(store: SearchHistoryStore, body: Option<SearchQuery>, now: int, writeTime: int,
                dateText: string, sha256: string -> Digest) returns (r: Response<EnrichmentData>)
    requires store.Valid()
    modifies store
    ensures store.Valid()
    ensures var outcome := Resolve(old(store.records), body, now, writeTime, dateText, sha256);
            r == outcome.response &&
            store.records == AfterWrite(old(store.records), outcome.written) &&
            (outcome.written.None? ==> unchanged(store)) &&
            (outcome.written.Some? ==> store.index == old(store.index) + {outcome.written.value.id})
  {
    if body.None? {
      return Bad(MissingQueryMessage);
    }
    var query := body.value;
    var queryHash := CreateQueryHash(query, MockUserId, sha256);
    var cachedEntry := store.GetState(queryHash);
    if IsCacheHit(cachedEntry, now) {
      return Ok(CachedCopy(cachedEntry.data));
    }
    var newHistoryEntry := FreshEntry(queryHash, query, writeTime, dateText);
    store.Create(newHistoryEntry);
    r := Ok(newHistoryEntry.data);
  }

  // ------------------------------------------------------ cache properties

  /** A request without a query is refused before any hashing or store access. */
  lemma MissingQueryRejected(records: map<string, SearchHistoryEntry>, now: int, writeTime: int,
                             dateText: string, sha256: string -> Digest)
    ensures Resolve(records, None, now, writeTime, dateText, sha256)
         == EnrichOutcome(Bad(MissingQueryMessage), None)
  {
  }

  /**
   * The missing query is the only request refused: any present query, even
   * one whose fields are all blank, is answered with data.
   */
  lemma PresentQueryAnswered(records: map<string, SearchHistoryEntry>, q: SearchQuery, now: int,
                             writeTime: int, dateText: string, sha256: string -> Digest)
    ensures Resolve(records, Some(q), now, writeTime, dateText, sha256).response.Ok?
  {
  }

  /** An entity with nothing stored reports the initial state, which is never served. */
  lemma InitialStateNeverHit(now: int)
    ensures !IsCacheHit(Entities.InitialState, now)
  {
  }

  /**
   * The initial state is recognisable: its id is empty, which no query
   * fingerprint is, and its timestamp is zero.
   */
  lemma InitialStateDistinguishable(q: SearchQuery, userId: string, sha256: string -> Digest)
    ensures Entities.InitialState.id == "" && Entities.InitialState.timestamp == 0
    ensures Entities.InitialState.data.title.None?
    ensures Entities.InitialState.id != CreateQueryHash(q, userId, sha256)
  {
    assert |CreateQueryHash(q, userId, sha256)| == 64;
  }

  /** The window is half-open: one millisecond before two hours is fresh, two hours exactly is stale. */
  lemma FreshnessBoundary(e: SearchHistoryEntry)
    requires e.id != ""
    ensures forall now :: IsCacheHit(e, now) <==> now < e.timestamp + TwoHoursMs
    ensures IsCacheHit(e, e.timestamp + TwoHoursMs - 1)
    ensures !IsCacheHit(e, e.timestamp + TwoHoursMs)
  {
  }

  /**
   * In a store whose records sit under their own ids, a request is served from
   * the cache iff a record for its fingerprint exists and is younger than two
   * hours; a served request writes nothing and answers the record's data with
   * a marked title.
   */
  lemma CacheHitIff(records: map<string, SearchHistoryEntry>, q: SearchQuery, now: int,
                    writeTime: int, dateText: string, sha256: string -> Digest)
    requires KeyedById(records)
    ensures var id := CreateQueryHash(q, MockUserId, sha256);
            var outcome := Resolve(records, Some(q), now, writeTime, dateText, sha256);
            (outcome.written.None? <==> id in records && now - records[id].timestamp < TwoHoursMs) &&
            (outcome.written.None? ==> outcome.response == Ok(CachedCopy(records[id].data)))
  {
    var id := CreateQueryHash(q, MockUserId, sha256);
    if id in records {
      assert records[id].id == id;
      assert |id| == 64;
    }
  }

  /**
   * A miss writes exactly one record: under the fingerprint, holding the
   * request's query, stamped with the write time and the mock user, and the
   * answer is that record's data, titled "<person> at <company> - ...".
   */
  lemma MissWritesFreshEntry(records: map<string, SearchHistoryEntry>, q: SearchQuery, now: int,
                             writeTime: int, dateText: string, sha256: string -> Digest)
    requires !IsCacheHit(StoredOrInitial(records, CreateQueryHash(q, MockUserId, sha256)), now)
    ensures var outcome := Resolve(records, Some(q), now, writeTime, dateText, sha256);
            var prefix := OrDefault(q.personName, "Person") + " at " + OrDefault(q.companyName, "Company");
            outcome.written.Some? &&
            var e := outcome.written.value;
            e.id == CreateQueryHash(q, MockUserId, sha256) && e.query == q &&
            e.timestamp == writeTime && e.userId == MockUserId &&
            outcome.response == Ok(e.data) && e.data.payload == MockEnrichment &&
            e.data.title.Some? && |prefix| <= |e.data.title.value| &&
            e.data.title.value[..|prefix|] == prefix
  {
    var id := CreateQueryHash(q, MockUserId, sha256);
    var e := FreshEntry(id, q, writeTime, dateText);
    var prefix := OrDefault(q.personName, "Person") + " at " + OrDefault(q.companyName, "Company");
    assert FreshTitle(q, dateText) == prefix + (" - Enriched on " + dateText);
    assert Resolve(records, Some(q), now, writeTime, dateText, sha256).written == Some(e);
  }

  /**
   * A repeat of a request that missed, less than two hours after the write,
   * is served from the cache and writes nothing.
   */
  lemma RepeatWithinWindowHits(records: map<string, SearchHistoryEntry>, q: SearchQuery,
                               now1: int, write1: int, now2: int, write2: int,
                               dateText1: string, dateText2: string, sha256: string -> Digest)
    requires Resolve(records, Some(q), now1, write1, dateText1, sha256).written.Some?
    requires now2 - write1 < TwoHoursMs
    ensures var first := Resolve(records, Some(q), now1, write1, dateText1, sha256);
            var second := Resolve(AfterWrite(records, first.written), Some(q), now2, write2, dateText2, sha256);
            second.written.None? &&
            second.response == Ok(CachedCopy(first.written.value.data))
  {
    var id := CreateQueryHash(q, MockUserId, sha256);
    assert |id| == 64;
  }

  /**
   * A repeat two hours or more after the write recomputes and overwrites the
   * record under the same fingerprint: the set of stored ids does not grow.
   */
  lemma RepeatAfterWindowRecomputes(records: map<string, SearchHistoryEntry>, q: SearchQuery,
                                    now1: int, write1: int, now2: int, write2: int,
                                    dateText1: string, dateText2: string, sha256: string -> Digest)
    requires Resolve(records, Some(q), now1, write1, dateText1, sha256).written.Some?
    requires now2 - write1 >= TwoHoursMs
    ensures var first := Resolve(records, Some(q), now1, write1, dateText1, sha256);
            var after1 := AfterWrite(records, first.written);
            var second := Resolve(after1, Some(q), now2, write2, dateText2, sha256);
            second.written.Some? &&
            second.written.value.id == first.written.value.id &&
            second.written.value.timestamp == write2 &&
            AfterWrite(after1, second.written).Keys == after1.Keys
  {
    var id := CreateQueryHash(q, MockUserId, sha256);
    var first := Resolve(records, Some(q), now1, write1, dateText1, sha256);
    assert first.written == Some(FreshEntry(id, q, write1, dateText1));
    var after1 := AfterWrite(records, first.written);
    assert id in after1 && StoredOrInitial(after1, id).timestamp == write1;
    assert !IsCacheHit(StoredOrInitial(after1, id), now2);
    var second := Resolve(after1, Some(q), now2, write2, dateText2, sha256);
    assert second.written == Some(FreshEntry(id, q, write2, dateText2));
  }

  /** The outcome of a request whose fingerprint's stored state is not fresh. */
  lemma ResolveMiss(records: map<string, SearchHistoryEntry>, q: SearchQuery, now: int,
                    writeTime: int, dateText: string, sha256: string -> Digest)
    requires !IsCacheHit(StoredOrInitial(records, CreateQueryHash(q, MockUserId, sha256)), now)
    ensures var e := FreshEntry(CreateQueryHash(q, MockUserId, sha256), q, writeTime, dateText);
            Resolve(records, Some(q), now, writeTime, dateText, sha256) == EnrichOutcome(Ok(e.data), Some(e))
  {
  }

  /** The outcome of a request whose fingerprint's stored state is fresh. */
  lemma ResolveHit(records: map<string, SearchHistoryEntry>, q: SearchQuery, now: int,
                   writeTime: int, dateText: string, sha256: string -> Digest)
    requires IsCacheHit(StoredOrInitial(records, CreateQueryHash(q, MockUserId, sha256)), now)
    ensures var cached := StoredOrInitial(records, CreateQueryHash(q, MockUserId, sha256));
            Resolve(records, Some(q), now, writeTime, dateText, sha256) == EnrichOutcome(Ok(CachedCopy(cached.data)), None)
  {
  }

  /**
   * Three identical requests against an empty store (for instance for
   * "Jane Doe" at "Acme"): the first misses and writes, a repeat five minutes
   * later is served from the cache, and one three hours later recomputes and
   * overwrites the same record.
   */
  method ThreeRequests(q: SearchQuery, sha256: string -> Digest, dateText: string)
    returns (first: Response<EnrichmentData>, second: Response<EnrichmentData>,
             third: Response<EnrichmentData>, indexed: set<string>)
    ensures var id := CreateQueryHash(q, MockUserId, sha256);
            first == Ok(FreshEntry(id, q, 1000, dateText).data) &&
            second == Ok(CachedCopy(first.data)) &&
            third == Ok(FreshEntry(id, q, 1000 + 3 * 60 * 60 * 1000, dateText).data) &&
            indexed == {id}
  {
    var id := CreateQueryHash(q, MockUserId, sha256);
    var store := new SearchHistoryStore();
    var e1 := FreshEntry(id, q, 1000, dateText);
    ResolveMiss(map[], q, 0, 1000, dateText, sha256);
    first := Enrich(store, Some(q), 0, 1000, dateText, sha256);
    assert store.records == map[id := e1] && store.index == {id};
    var t2 := 1000 + 5 * 60 * 1000;
    assert |id| == 64;
    assert IsCacheHit(StoredOrInitial(store.records, id), t2);
    ResolveHit(store.records, q, t2, t2, dateText, sha256);
    second := Enrich(store, Some(q), t2, t2, dateText, sha256);
    assert store.records == map[id := e1] && store.index == {id};
    var t3 := 1000 + 3 * 60 * 60 * 1000;
    ResolveMiss(store.records, q, t3, t3, dateText, sha256);
    third := Enrich(store, Some(q), t3, t3, dateText, sha256);
    indexed := store.index;
  }

  // ------------------------------------------------------------- history

  /** Timestamps never increase along `s`: newest first. */
  predicate NewestFirst(s: seq<SearchHistoryEntry>)
  {
    forall i, j :: 0 <= i < j < |s| ==> s[i].timestamp >= s[j].timestamp
  }

  method Swap(a: array<SearchHistoryEntry>, i: int, j: int)
    requires 0 <= i < j < a.Length
    modifies a
    ensures a[i] == old(a[j]) && a[j] == old(a[i])
    ensures forall k :: 0 <= k < a.Length && k != i && k != j ==> a[k] == old(a[k])
    ensures multiset(a[..]) == old(multiset(a[..]))
  {
    a[i], a[j] := a[j], a[i];
  }

  /** `items.sort((a, b) => b.timestamp - a.timestamp)`, as an insertion sort. */
  method SortNewestFirst(a: array<SearchHistoryEntry>)
    modifies a
    ensures NewestFirst(a[..])
    ensures multiset(a[..]) == old(multiset(a[..]))
  {
    if a.Length == 0 {
      return;
    }
    var i := 1;
    while i < a.Length
      invariant 1 <= i <= a.Length
      invariant forall k, l :: 0 <= k < l < i ==> a[k].timestamp >= a[l].timestamp
      invariant multiset(a[..]) == old(multiset(a[..]))
    {
      var j := i;
      while j > 0 && a[j - 1].timestamp < a[j].timestamp
        invariant 0 <= j <= i < a.Length
        invariant forall k, l :: 0 <= k < l <= i && k != j && l != j ==> a[k].timestamp >= a[l].timestamp
        invariant forall l :: j < l <= i ==> a[j].timestamp > a[l].timestamp
        invariant multiset(a[..]) == old(multiset(a[..]))
      {
        Swap(a, j - 1, j);
        j := j - 1;
      }
      i := i + 1;
    }
  }

  /** An element found at two positions is counted twice. */
  lemma CountTwo(s: seq<SearchHistoryEntry>, i: int, j: int)
    requires 0 <= i < j < |s| && s[i] == s[j]
    ensures multiset(s)[s[i]] >= 2
  {
    assert s == s[..i] + [s[i]] + s[i + 1..j] + [s[j]] + s[j + 1..];
  }

  /** In a sequence of records with distinct ids no record is counted twice. */
  lemma {:induction false} AtMostOnce(s: seq<SearchHistoryEntry>)
    requires forall i, j :: 0 <= i < j < |s| ==> s[i].id != s[j].id
    ensures forall e :: multiset(s)[e] <= 1
  {
    if |s| > 0 {
      AtMostOnce(s[1..]);
      assert s == [s[0]] + s[1..];
      assert s[0] !in s[1..];
    }
  }

  /** A permutation of a listing of distinct stored records is such a listing too. */
  lemma PermutationKeepsListing(items: seq<SearchHistoryEntry>, sorted: seq<SearchHistoryEntry>,
                                records: map<string, SearchHistoryEntry>)
    requires multiset(sorted) == multiset(items)
    requires forall id :: id in records ==> records[id] in items
    requires forall e :: e in items ==> e.id in records && records[e.id] == e
    requires forall i, j :: 0 <= i < j < |items| ==> items[i].id != items[j].id
    ensures forall id :: id in records ==> records[id] in sorted
    ensures forall e :: e in sorted ==> e.id in records && records[e.id] == e
    ensures forall i, j :: 0 <= i < j < |sorted| ==> sorted[i].id != sorted[j].id
  {
    forall e | e in sorted ensures e in items {
      assert e in multiset(sorted);
    }
    forall e | e in items ensures e in sorted {
      assert e in multiset(items);
    }
    forall i, j | 0 <= i < j < |sorted| ensures sorted[i].id != sorted[j].id {
      if sorted[i].id == sorted[j].id {
        assert sorted[i] == sorted[j];
        CountTwo(sorted, i, j);
        AtMostOnce(items);
      }
    }
  }

  /**
   * `app.get('/api/history', ...)`: every stored record, whoever owns it,
   * newest first; a failing list answers the fixed error.
   */
  method History(store: SearchHistoryStore, order: seq<string>, listFails: bool)
    returns (r: Response<seq<SearchHistoryEntry>>)
    requires store.Valid() && Enumerates(order, store.index)
    ensures listFails ==> r == Bad(HistoryFailureMessage)
    ensures !listFails ==> r.Ok? && NewestFirst(r.data) && |r.data| == |order|
    ensures !listFails ==> forall id :: id in store.records ==> store.records[id] in r.data
    ensures !listFails ==> forall e :: e in r.data ==> e.id in store.records && store.records[e.id] == e
    ensures !listFails ==> forall i, j :: 0 <= i < j < |r.data| ==> r.data[i].id != r.data[j].id
  {
    if listFails {
      return Bad(HistoryFailureMessage);
    }
    var items := store.List(order);
    var a := new SearchHistoryEntry[|items|](i requires 0 <= i < |items| => items[i]);
    assert a[..] == items;
    SortNewestFirst(a);
    var sortedItems := a[..];
    PermutationKeepsListing(items, sortedItems, store.records);
    r := Ok(sortedItems);
  }
}
