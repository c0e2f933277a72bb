/**
 * The client state store of src/stores/app-store.ts. Each action changes
 * named fields of the store and nothing else. An action that awaits an API
 * call is split at the `await`: what it sets before the call, and what it
 * sets once the call resolves or rejects (other actions may run in between).
 * The network call itself is an input: the value it resolves to, or the
 * rejection.
 */
module AppStore {

  import opened Types

  const EmptyQueryMessage: string := "At least one search field must be filled."
  const UnknownErrorMessage: string := "An unknown error occurred."

  /** `initialQuery`: all four fields empty. */
  const InitialQuery: SearchQuery := SearchQuery("", "", "", "")

  /** `Partial<SearchQuery>`: the fields an update names, each with its new value. */
  datatype QueryUpdate = QueryUpdate(
    personName: Option<string>,
    title: Option<string>,
    companyName: Option<string>,
    additionalInfo: Option<string>)

  /** How an awaited `api(...)` call settles; a rejection carries `error.message` when it is an `Error`. */
  datatype ApiOutcome<T> = Resolved(value: T) | Rejected(message: Option<string>)

  /** Every field of the store's state, as one value. */
  datatype AppState = AppState(
    isAuthenticated: bool,
    isLoading: bool,
    query: SearchQuery,
    enrichmentData: Option<EnrichmentData>,
    error: Option<string>,
    history: seq<SearchHistoryEntry>,
    isHistoryLoading: bool,
    historyError: Option<string>)

  /** The state the store is created with. */
  const InitialAppState: AppState :=
    AppState(false, false, InitialQuery, None, None, [], false, None)

  // ------------------------------------------------------- pure helpers

  function UpdateField(current: string, update: Option<string>): string
  {
    match update
    case Some(v) => v
    case None => current
  }

  /** `{ ...query, ...update }`. */
  function Merge(q: SearchQuery, u: QueryUpdate): (r: SearchQuery)
    ensures u.personName.Some? ==> r.personName == u.personName.value
    ensures u.personName.None? ==> r.personName == q.personName
    ensures u.title.Some? ==> r.title == u.title.value
    ensures u.title.None? ==> r.title == q.title
    ensures u.companyName.Some? ==> r.companyName == u.companyName.value
    ensures u.companyName.None? ==> r.companyName == q.companyName
    ensures u.additionalInfo.Some? ==> r.additionalInfo == u.additionalInfo.value
    ensures u.additionalInfo.None? ==> r.additionalInfo == q.additionalInfo
  {
    SearchQuery(UpdateField(q.personName, u.personName), UpdateField(q.title, u.title),
                UpdateField(q.companyName, u.companyName), UpdateField(q.additionalInfo, u.additionalInfo))
  }

  /** Applying the same update twice is applying it once. */
  lemma MergeIdempotent(q: SearchQuery, u: QueryUpdate)
    ensures Merge(Merge(q, u), u) == Merge(q, u)
  {
  }

  /** An update naming no field leaves the query as it is. */
  lemma MergeEmpty(q: SearchQuery)
    ensures Merge(q, QueryUpdate(None, None, None, None)) == q
  {
  }

  /** The characters `String.prototype.trim` removes: white space and line terminators. */
  predicate IsWhitespace(c: char)
  {
    var n := c as int;
    n == 0x09 || n == 0x0A || n == 0x0B || n == 0x0C || n == 0x0D || n == 0x20 ||
    n == 0xA0 || n == 0x1680 || (0x2000 <= n <= 0x200A) || n == 0x2028 || n == 0x2029 ||
    n == 0x202F || n == 0x205F || n == 0x3000 || n == 0xFEFF
  }

  predicate AllWhitespace(s: string)
  {
    forall i :: 0 <= i < |s| ==> IsWhitespace(s[i])
  }

  /** A white-space head followed by a white-space stretch is a white-space stretch. */
  lemma WhitespacePrefix(s: string, k: nat)
    requires 1 <= k <= |s| && IsWhitespace(s[0]) && AllWhitespace(s[1..][..k - 1])
    ensures s[1..][k - 1..] == s[k..]
    ensures AllWhitespace(s[..k])
  {
    forall i | 0 <= i < k ensures IsWhitespace(s[..k][i]) {
      if i > 0 {
        assert s[..k][i] == s[1..][..k - 1][i - 1];
      }
    }
  }

  function TrimStart(s: string): (r: string)
    ensures |r| <= |s| && r == s[|s| - |r|..]
    ensures AllWhitespace(s[..|s| - |r|])
    ensures |r| > 0 ==> !IsWhitespace(r[0])
    ensures r == "" <==> AllWhitespace(s)
  {
    if |s| > 0 && IsWhitespace(s[0]) then
      var r := TrimStart(s[1..]);
      WhitespacePrefix(s, |s| - |r|);
      r
    else s
  }

  function TrimEnd(s: string): (r: string)
    ensures |r| <= |s| && r == s[..|r|]
    ensures AllWhitespace(s[|r|..])
    ensures |r| > 0 ==> !IsWhitespace(r[|r| - 1])
    ensures r == "" <==> AllWhitespace(s)
  {
    if |s| > 0 && IsWhitespace(s[|s| - 1]) then
      var r := TrimEnd(s[..|s| - 1]);
      assert s[|r|..] == s[..|s| - 1][|r|..] + [s[|s| - 1]];
      r
    else s
  }

  /** `s.trim()`. */
  function Trim(s: string): string
  {
    TrimEnd(TrimStart(s))
  }

  /** `s.trim() === ''` exactly when every character of `s` is white space. */
  lemma TrimEmptyIff(s: string)
    ensures Trim(s) == "" <==> AllWhitespace(s)
  {
    var t := TrimStart(s);
    if |t| > 0 {
      assert !IsWhitespace(t[0]);
    }
  }

  /** `Object.values(query).every((val) => val.trim() === '')`. */
  predicate IsQueryEmpty(q: SearchQuery)
  {
    Trim(q.personName) == "" && Trim(q.title) == "" &&
    Trim(q.companyName) == "" && Trim(q.additionalInfo) == ""
  }

  /** A query is empty for the store iff every field is white space only. */
  lemma QueryEmptyIff(q: SearchQuery)
    ensures IsQueryEmpty(q) <==>
      AllWhitespace(q.personName) && AllWhitespace(q.title) &&
      AllWhitespace(q.companyName) && AllWhitespace(q.additionalInfo)
  {
    TrimEmptyIff(q.personName);
    TrimEmptyIff(q.title);
    TrimEmptyIff(q.companyName);
    TrimEmptyIff(q.additionalInfo);
  }

  /** The message of a rejection, or the fixed one when it was not an `Error`. */
  function ErrorMessage(message: Option<string>): string
  {
    match message
    case Some(m) => m
    case None => UnknownErrorMessage
  }

  // -------------------------------------------------------------- the store

  class Store {
    var isAuthenticated: bool
    var isLoading: bool
    var query: SearchQuery
    var enrichmentData: Option<EnrichmentData>
    var error: Option<string>
    var history: seq<SearchHistoryEntry>
    var isHistoryLoading: bool
    var historyError: Option<string>

    /** The store's current state, field by field. */
    function State(): AppState
      reads this
    {
      AppState(isAuthenticated, isLoading, query, enrichmentData, error, history, isHistoryLoading, historyError)
    }

    /** `create(...)`: not authenticated, nothing loading, empty query, no data, no errors. */
    constructor ()
      ensures State() == InitialAppState
    {
      isAuthenticated, isLoading, query := false, false, InitialQuery;
      enrichmentData, error := None, None;
      history, isHistoryLoading, historyError := [], false, None;
    }

    /** `login`. */
    method Login()
      modifies this
      ensures State() == old(State()).(isAuthenticated := true)
    {
      isAuthenticated := true;
    }

    /** `logout`: leaves `error`, `isLoading` and the history fields as they are. */
    method Logout()
      modifies this
      ensures State() == old(State()).(isAuthenticated := false, enrichmentData := None, query := InitialQuery)
    {
      isAuthenticated, enrichmentData, query := false, None, InitialQuery;
    }

    /** `setQuery(update)`: only the named query fields change. */
    method SetQuery(update: QueryUpdate)
      modifies this
      ensures State() == old(State()).(query := Merge(old(query), update))
    {
      query := Merge(query, update);
    }

    /**
     * `fetchEnrichmentData` up to its `await`: refuses a blank query with the
     * fixed message and no call; otherwise starts loading and sends the query.
     */
    method StartEnrichment() returns (sent: Option<SearchQuery>)
      modifies this
      ensures IsQueryEmpty(old(query)) ==>
        sent.None? && State() == old(State()).(error := Some(EmptyQueryMessage))
      ensures !IsQueryEmpty(old(query)) ==>
        sent == Some(old(query)) &&
        State() == old(State()).(isLoading := true, error := None, enrichmentData := None)
    {
      if IsQueryEmpty(query) {
        error := Some(EmptyQueryMessage);
        return None;
      }
      isLoading, error, enrichmentData := true, None, None;
      sent := Some(query);
    }

    /** `fetchEnrichmentData` after its `await`: the response, or the error message. */
    method FinishEnrichment(outcome: ApiOutcome<EnrichmentData>)
      modifies this
      ensures outcome.Resolved? ==>
        State() == old(State()).(enrichmentData := Some(outcome.value), isLoading := false)
      ensures outcome.Rejected? ==>
        State() == old(State()).(error := Some(ErrorMessage(outcome.message)), isLoading := false)
    {
      match outcome
      case Resolved(data) =>
        enrichmentData, isLoading := Some(data), false;
      case Rejected(message) =>
        error, isLoading := Some(ErrorMessage(message)), false;
    }

    /** `fetchEnrichmentData` with no other action running while the call is in flight. */
    method FetchEnrichmentData(outcome: ApiOutcome<EnrichmentData>)
      modifies this
      ensures IsQueryEmpty(old(query)) ==>
        State() == old(State()).(error := Some(EmptyQueryMessage))
      ensures !IsQueryEmpty(old(query)) && outcome.Resolved? ==>
        State() == old(State()).(isLoading := false, error := None, enrichmentData := Some(outcome.value))
      ensures !IsQueryEmpty(old(query)) && outcome.Rejected? ==>
        State() == old(State()).(isLoading := false, error := Some(ErrorMessage(outcome.message)),
                                 enrichmentData := None)
    {
      var sent := StartEnrichment();
      if sent.Some? {
        FinishEnrichment(outcome);
      }
    }

    /** `fetchHistory` up to its `await`. */
    method StartHistory()
      modifies this
      ensures State() == old(State()).(isHistoryLoading := true, historyError := None)
    {
      isHistoryLoading, historyError := true, None;
    }

    /** `fetchHistory` after its `await`: the list replaces `history`; a failure keeps it. */
    method FinishHistory(outcome: ApiOutcome<seq<SearchHistoryEntry>>)
      modifies this
      ensures outcome.Resolved? ==>
        State() == old(State()).(history := outcome.value, isHistoryLoading := false)
      ensures outcome.Rejected? ==>
        State() == old(State()).(historyError := Some(ErrorMessage(outcome.message)), isHistoryLoading := false)
    {
      match outcome
      case Resolved(items) =>
        history, isHistoryLoading := items, false;
      case Rejected(message) =>
        historyError, isHistoryLoading := Some(ErrorMessage(message)), false;
    }

    /** `fetchHistory` with no other action running while the call is in flight. */
    method FetchHistory(outcome: ApiOutcome<seq<SearchHistoryEntry>>)
      modifies this
      ensures outcome.Resolved? ==>
        State() == old(State()).(history := outcome.value, isHistoryLoading := false, historyError := None)
      ensures outcome.Rejected? ==>
        State() == old(State()).(historyError := Some(ErrorMessage(outcome.message)), isHistoryLoading := false)
    {
      StartHistory();
      FinishHistory(outcome);
    }
  }
}
