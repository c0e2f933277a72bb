/**
 * `getQuerySummary` of src/pages/HistoryPage.tsx: the one-line description
 * of a past query shown on each history card.
 */
module HistoryPage {

  import opened Types
  import opened Strings

  const EmptySummary: string := "Empty Query"
  const PartSeparator: string := " / "

  /** `parts.filter(Boolean)` on strings. */
  function DropEmpty(parts: seq<string>): seq<string>
  {
    if |parts| == 0 then []
    else if parts[0] == "" then DropEmpty(parts[1..])
    else [parts[0]] + DropEmpty(parts[1..])
  }

  /** The filter drops exactly the empty strings and keeps every other one as often as it occurs. */
  lemma {:induction false} DropEmptyFilters(parts: seq<string>)
    ensures forall p :: p in DropEmpty(parts) ==> p != ""
    ensures forall p :: p != "" ==> multiset(DropEmpty(parts))[p] == multiset(parts)[p]
  {
    if |parts| > 0 {
      DropEmptyFilters(parts[1..]);
      assert parts == [parts[0]] + parts[1..];
    }
  }

  /** The four fields in display order: person, title, company, additional info. */
  function SummaryParts(q: SearchQuery): seq<string>
  {
    [q.personName, q.title, q.companyName, q.additionalInfo]
  }

  /** `getQuerySummary(query)`. */
  function QuerySummary(q: SearchQuery): string
  {
    var parts := DropEmpty(SummaryParts(q));
    if |parts| == 0 then EmptySummary else Join(parts, PartSeparator)
  }

  /** Joining non-empty parts gives a non-empty string that starts with the first part. */
  lemma JoinStartsWithFirst(parts: seq<string>, sep: string)
    requires |parts| > 0
    ensures |Join(parts, sep)| >= |parts[0]|
    ensures Join(parts, sep)[..|parts[0]|] == parts[0]
  {
  }

  /** The summary is never empty. */
  lemma SummaryNonEmpty(q: SearchQuery)
    ensures QuerySummary(q) != ""
  {
    var parts := DropEmpty(SummaryParts(q));
    if |parts| > 0 {
      DropEmptyFilters(SummaryParts(q));
      assert parts[0] in parts;
      JoinStartsWithFirst(parts, PartSeparator);
    }
  }

  /** A field as the filter leaves it: gone when empty, kept otherwise. */
  function Kept(p: string): seq<string>
  {
    if p == "" then [] else [p]
  }

  lemma DropEmptyCons(p: string, rest: seq<string>)
    ensures DropEmpty([p] + rest) == Kept(p) + DropEmpty(rest)
  {
    assert ([p] + rest)[1..] == rest;
  }

  /** The filtered parts of a query: each field kept iff it is not the empty string. */
  lemma SummaryPartsFiltered(q: SearchQuery)
    ensures DropEmpty(SummaryParts(q)) ==
      Kept(q.personName) + (Kept(q.title) + (Kept(q.companyName) + Kept(q.additionalInfo)))
  {
    var s4 := [q.additionalInfo];
    var s3 := [q.companyName] + s4;
    var s2 := [q.title] + s3;
    assert SummaryParts(q) == [q.personName] + s2;
    DropEmptyCons(q.additionalInfo, []);
    assert s4 == [q.additionalInfo] + [];
    DropEmptyCons(q.companyName, s4);
    DropEmptyCons(q.title, s3);
    DropEmptyCons(q.personName, s2);
  }

  /** An all-empty query reads "Empty Query". */
  lemma SummaryOfEmptyQuery(q: SearchQuery)
    requires q.personName == "" && q.title == "" && q.companyName == "" && q.additionalInfo == ""
    ensures QuerySummary(q) == EmptySummary
  {
    SummaryPartsFiltered(q);
  }

  /**
   * With exactly one field filled in, the summary is that field as it is:
   * a field of spaces counts as filled in.
   */
  lemma SummaryOfSingleField(q: SearchQuery, i: nat)
    requires i < 4 && SummaryParts(q)[i] != ""
    requires forall j :: 0 <= j < 4 && j != i ==> SummaryParts(q)[j] == ""
    ensures QuerySummary(q) == SummaryParts(q)[i]
  {
    SummaryPartsFiltered(q);
    var ps := SummaryParts(q);
    assert ps[0] == q.personName && ps[1] == q.title && ps[2] == q.companyName && ps[3] == q.additionalInfo;
    assert DropEmpty(ps) == [ps[i]];
  }

  /** With every field filled in, all four appear in order, separated by " / ". */
  lemma SummaryOfFullQuery(q: SearchQuery)
    requires q.personName != "" && q.title != "" && q.companyName != "" && q.additionalInfo != ""
    ensures QuerySummary(q) ==
      q.personName + " / " + (q.title + " / " + (q.companyName + " / " + q.additionalInfo))
  {
    SummaryPartsFiltered(q);
    var ps := SummaryParts(q);
    assert DropEmpty(ps) == ps;
    JoinFour(ps, PartSeparator);
  }
}
