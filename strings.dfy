/**
 * String helpers used by the fingerprint and the history summary:
 * `Array.prototype.join`, splitting at a delimiter, and the order the
 * query keys are sorted in.
 */
module Strings {

  import opened Types

  /** `parts.join(sep)`. */
  function Join(parts: seq<string>, sep: string): string
  {
    if |parts| == 0 then ""
    else if |parts| == 1 then parts[0]
    else parts[0] + sep + Join(parts[1..], sep)
  }

  /** A join of four parts, written out. */
  lemma JoinFour(r: seq<string>, sep: string)
    requires |r| == 4
    ensures Join(r, sep) == r[0] + sep + (r[1] + sep + (r[2] + sep + r[3]))
  {
    assert r[1..][1..] == r[2..];
    assert r[2..][1..] == r[3..];
    assert Join(r[3..], sep) == r[3];
    assert Join(r[2..], sep) == r[2] + sep + r[3];
    assert Join(r[1..], sep) == r[1] + sep + Join(r[2..], sep);
  }

  /**
   * Strict lexicographic order on code points: the order `localeCompare`
   * gives the query's ASCII field names.
   */
  predicate Lt(a: string, b: string)
  {
    if |a| == 0 then |b| > 0
    else if |b| == 0 then false
    else if a[0] != b[0] then a[0] < b[0]
    else Lt(a[1..], b[1..])
  }

  lemma {:induction false} LtIrreflexive(a: string)
    ensures !Lt(a, a)
  {
    if |a| > 0 {
      LtIrreflexive(a[1..]);
    }
  }

  lemma {:induction false} LtTransitive(a: string, b: string, c: string)
    requires Lt(a, b) && Lt(b, c)
    ensures Lt(a, c)
  {
    if |a| > 0 && |b| > 0 && |c| > 0 && a[0] == b[0] == c[0] {
      LtTransitive(a[1..], b[1..], c[1..]);
    }
  }

  lemma {:induction false} LtTrichotomous(a: string, b: string)
    ensures a == b || Lt(a, b) || Lt(b, a)
    ensures !(Lt(a, b) && Lt(b, a))
  {
    if |a| > 0 && |b| > 0 && a[0] == b[0] {
      LtTrichotomous(a[1..], b[1..]);
      if a[1..] == b[1..] {
        assert a == [a[0]] + a[1..] && b == [b[0]] + b[1..];
      }
    }
  }

  /**
   * Splits `s` at the first occurrence of `c`: the part before it and the
   * part after it, or None when `c` does not occur.
   */
  function SplitFirst(s: string, c: char): (r: Option<(string, string)>)
    ensures r.None? <==> c !in s
    ensures r.Some? ==> s == r.value.0 + [c] + r.value.1 && c !in r.value.0
  {
    if |s| == 0 then None
    else if s[0] == c then Some(([], s[1..]))
    else
      match SplitFirst(s[1..], c)
      case None => None
      case Some((before, after)) =>
        assert s == [s[0]] + s[1..];
        Some(([s[0]] + before, after))
  }

  lemma {:induction false} SplitFirstOf(before: string, after: string, c: char)
    requires c !in before
    ensures SplitFirst(before + [c] + after, c) == Some((before, after))
  {
    var s := before + [c] + after;
    if |before| > 0 {
      assert s[0] == before[0] && before[0] != c;
      assert s[1..] == before[1..] + [c] + after;
      SplitFirstOf(before[1..], after, c);
      assert before == [before[0]] + before[1..];
    } else {
      assert s == [c] + after;
    }
  }

  /** `s.split(c)`: the pieces between the occurrences of `c`. */
  function SplitAll(s: string, c: char): (r: seq<string>)
    ensures |r| > 0
    ensures Join(r, [c]) == s
    ensures forall p :: p in r ==> c !in p
    decreases |s|
  {
    match SplitFirst(s, c)
    case None => [s]
    case Some((before, after)) =>
      var rest := SplitAll(after, c);
      assert ([before] + rest)[1..] == rest;
      [before] + rest
  }

  /** Splitting a join gives back the parts when no part holds the delimiter. */
  lemma {:induction false} SplitAllJoin(parts: seq<string>, c: char)
    requires |parts| > 0
    requires forall p :: p in parts ==> c !in p
    ensures SplitAll(Join(parts, [c]), c) == parts
  {
    if |parts| > 1 {
      assert parts[0] in parts;
      SplitFirstOf(parts[0], Join(parts[1..], [c]), c);
      assert forall p :: p in parts[1..] ==> p in parts;
      SplitAllJoin(parts[1..], c);
      assert parts == [parts[0]] + parts[1..];
    } else {
      assert parts[0] in parts;
    }
  }
}
