/**
 * The query fingerprint of worker/user-routes.ts (`createQueryHash`): the
 * query's entries sorted by key, rendered `key:value`, joined with `|`,
 * prefixed with `userId|`, hashed with SHA-256 and hex-encoded.
 *
 * SHA-256 (and the UTF-8 encoding in front of it) is not modelled: the
 * digest is a parameter, any function from strings to 32 bytes.
 */
module QueryHash {

  import opened Types
  import opened Strings

  /** One `[key, value]` pair of `Object.entries(query)`. */
  type Entry = (string, string)

  /** A SHA-256 digest. */
  type Digest = d: seq<byte> | |d| == 32 witness seq(32, i => 0)

  /** `Object.entries(query)` for a query object whose keys are in declaration order. */
  function QueryEntries(q: SearchQuery): seq<Entry>
  {
    [("personName", q.personName), ("title", q.title),
     ("companyName", q.companyName), ("additionalInfo", q.additionalInfo)]
  }

  // ---------------------------------------------------------------- sorting

  /** Keys never decrease along `es`. */
  predicate KeySorted(es: seq<Entry>)
  {
    forall i, j :: 0 <= i < j < |es| ==> !Lt(es[j].0, es[i].0)
  }

  /** No key carries two different values (true of every object's entries). */
  predicate KeyFunctional(m: multiset<Entry>)
  {
    forall x, y :: x in m && y in m && x.0 == y.0 ==> x == y
  }

  lemma PrependSorted(e: Entry, s: seq<Entry>)
    requires KeySorted(s) && |s| > 0 && Lt(e.0, s[0].0)
    ensures KeySorted([e] + s)
  {
    forall j | 0 <= j < |s|
      ensures !Lt(s[j].0, e.0)
    {
      if j == 0 {
        LtTrichotomous(s[0].0, e.0);
      } else if Lt(s[j].0, e.0) {
        LtTransitive(s[j].0, e.0, s[0].0);
      }
    }
  }

  lemma ConsSorted(h: Entry, t: seq<Entry>)
    requires KeySorted(t)
    requires forall x :: x in t ==> !Lt(x.0, h.0)
    ensures KeySorted([h] + t)
  {
    forall i, j | 0 <= i < j < |[h] + t| ensures !Lt(([h] + t)[j].0, ([h] + t)[i].0) {
      if i == 0 {
        assert ([h] + t)[j] == t[j - 1];
        assert t[j - 1] in t;
      }
    }
  }

  /** Everything after the head of a sorted `s`, plus an `e` not below that head, stays above it. */
  lemma InsertedTailBound(s: seq<Entry>, e: Entry, tail: seq<Entry>)
    requires KeySorted(s) && |s| > 0 && !Lt(e.0, s[0].0)
    requires multiset(tail) == multiset(s[1..]) + multiset{e}
    ensures forall x :: x in tail ==> !Lt(x.0, s[0].0)
  {
    forall x | x in tail ensures !Lt(x.0, s[0].0) {
      assert x in multiset(tail);
      if x != e {
        assert x in multiset(s[1..]);
        var k :| 0 <= k < |s[1..]| && s[1..][k] == x;
        assert s[k + 1] == x;
      }
    }
  }

  /** Inserts `e` after every entry whose key is not above its own (stable). */
  function Insert(s: seq<Entry>, e: Entry): seq<Entry>
  {
    if |s| == 0 then [e]
    else if Lt(e.0, s[0].0) then [e] + s
    else [s[0]] + Insert(s[1..], e)
  }

  /** Inserting into a key-sorted sequence keeps it key-sorted and adds exactly `e`. */
  lemma {:induction false} InsertSorted(s: seq<Entry>, e: Entry)
    requires KeySorted(s)
    ensures KeySorted(Insert(s, e))
    ensures multiset(Insert(s, e)) == multiset(s) + multiset{e}
  {
    if |s| == 0 {
    } else if Lt(e.0, s[0].0) {
      PrependSorted(e, s);
    } else {
      SortedTail(s);
      InsertSorted(s[1..], e);
      var tail := Insert(s[1..], e);
      InsertedTailBound(s, e, tail);
      ConsSorted(s[0], tail);
      assert s == [s[0]] + s[1..];
    }
  }

  /** The `sort` by key of `createQueryHash`, as an insertion sort. */
  function SortEntries(es: seq<Entry>): seq<Entry>
  {
    if |es| == 0 then [] else Insert(SortEntries(es[..|es| - 1]), es[|es| - 1])
  }

  /** The sorted entries are ordered by key and are a permutation of the input. */
  lemma {:induction false} SortEntriesSorted(es: seq<Entry>)
    ensures KeySorted(SortEntries(es))
    ensures multiset(SortEntries(es)) == multiset(es)
  {
    if |es| > 0 {
      var init := es[..|es| - 1];
      SortEntriesSorted(init);
      InsertSorted(SortEntries(init), es[|es| - 1]);
      assert es == init + [es[|es| - 1]];
    }
  }

  /** No entry of a key-sorted sequence has a key below its head's. */
  lemma SortedHeadLeast(a: seq<Entry>, x: Entry)
    requires KeySorted(a) && x in multiset(a)
    ensures |a| > 0 && !Lt(x.0, a[0].0)
  {
    var i :| 0 <= i < |a| && a[i] == x;
    if i == 0 {
      LtIrreflexive(x.0);
    }
  }

  lemma SortedTail(a: seq<Entry>)
    requires KeySorted(a) && |a| > 0
    ensures KeySorted(a[1..])
  {
    forall i, j | 0 <= i < j < |a[1..]| ensures !Lt(a[1..][j].0, a[1..][i].0) {
      assert a[1..][j] == a[j + 1] && a[1..][i] == a[i + 1];
    }
  }

  lemma KeyFunctionalSub(m1: multiset<Entry>, m2: multiset<Entry>)
    requires m1 <= m2 && KeyFunctional(m2)
    ensures KeyFunctional(m1)
  {
  }

  /** Two key-sorted arrangements of the same entries with unique keys start alike. */
  lemma SortedHeadsEqual(a: seq<Entry>, b: seq<Entry>)
    requires KeySorted(a) && KeySorted(b) && |a| > 0
    requires multiset(a) == multiset(b)
    requires KeyFunctional(multiset(a))
    ensures |b| > 0 && a[0] == b[0]
  {
    assert a[0] in multiset(a);
    SortedHeadLeast(b, a[0]);
    assert b[0] in multiset(b);
    SortedHeadLeast(a, b[0]);
    LtTrichotomous(a[0].0, b[0].0);
  }

  lemma TailsSameEntries(a: seq<Entry>, b: seq<Entry>)
    requires |a| > 0 && |b| > 0 && a[0] == b[0]
    requires multiset(a) == multiset(b)
    ensures multiset(a[1..]) == multiset(b[1..])
    ensures multiset(a[1..]) <= multiset(a)
  {
    assert a == [a[0]] + a[1..] && b == [b[0]] + b[1..];
    assert multiset(a[1..]) == multiset(a) - multiset{a[0]};
    assert multiset(b[1..]) == multiset(b) - multiset{b[0]};
  }

  /** Two key-sorted arrangements of the same entries are the same sequence. */
  lemma {:induction false} SortedUnique(a: seq<Entry>, b: seq<Entry>)
    requires KeySorted(a) && KeySorted(b)
    requires multiset(a) == multiset(b)
    requires KeyFunctional(multiset(a))
    ensures a == b
    decreases |a|
  {
    if |a| == 0 {
      assert |multiset(b)| == 0;
    } else {
      SortedHeadsEqual(a, b);
      TailsSameEntries(a, b);
      SortedTail(a);
      SortedTail(b);
      KeyFunctionalSub(multiset(a[1..]), multiset(a));
      SortedUnique(a[1..], b[1..]);
      assert a == [a[0]] + a[1..];
      assert b == [b[0]] + b[1..];
    }
  }

  // --------------------------------------------------------- serialisation

  function RenderEntry(e: Entry): string
  {
    e.0 + ":" + e.1
  }

  function RenderAll(es: seq<Entry>): (r: seq<string>)
    ensures |r| == |es|
  {
    if |es| == 0 then [] else [RenderEntry(es[0])] + RenderAll(es[1..])
  }

  /** The string `createQueryHash` hands to the digest: `userId|k1:v1|k2:v2|...`. */
  function CanonicalString(userId: string, es: seq<Entry>): string
  {
    userId + "|" + Join(RenderAll(SortEntries(es)), "|")
  }

  /**
   * The canonical string depends only on which entries there are, not on
   * the order `Object.entries` lists them in.
   */
  lemma CanonicalStringOrderIndependent(userId: string, es1: seq<Entry>, es2: seq<Entry>)
    requires multiset(es1) == multiset(es2)
    requires KeyFunctional(multiset(es1))
    ensures CanonicalString(userId, es1) == CanonicalString(userId, es2)
  {
    SortEntriesSorted(es1);
    SortEntriesSorted(es2);
    SortedUnique(SortEntries(es1), SortEntries(es2));
  }

  // --------------------------------------------------------------- decoding

  /** Neither the user id nor any key or value holds `|`, and no key holds `:`. */
  predicate Unambiguous(userId: string, es: seq<Entry>)
  {
    '|' !in userId &&
    forall e :: e in es ==> '|' !in e.0 && ':' !in e.0 && '|' !in e.1
  }

  function ParseEntries(pieces: seq<string>): Option<seq<Entry>>
  {
    if |pieces| == 0 then Some([])
    else
      match (SplitFirst(pieces[0], ':'), ParseEntries(pieces[1..]))
      case (Some(kv), Some(rest)) => Some([kv] + rest)
      case _ => None
  }

  /** Reads a canonical string back into the user id and the sorted entries. */
  function DecodeCanonical(s: string): Option<(string, seq<Entry>)>
  {
    match SplitFirst(s, '|')
    case None => None
    case Some((userId, rest)) =>
      if rest == "" then Some((userId, []))
      else
        match ParseEntries(SplitAll(rest, '|'))
        case None => None
        case Some(es) => Some((userId, es))
  }

  lemma {:induction false} ParseRendered(es: seq<Entry>)
    requires forall e :: e in es ==> ':' !in e.0
    ensures ParseEntries(RenderAll(es)) == Some(es)
  {
    if |es| > 0 {
      assert es[0] in es;
      SplitFirstOf(es[0].0, es[0].1, ':');
      assert RenderEntry(es[0]) == es[0].0 + [':'] + es[0].1;
      assert forall e :: e in es[1..] ==> e in es;
      ParseRendered(es[1..]);
      assert RenderAll(es)[1..] == RenderAll(es[1..]);
      assert es == [es[0]] + es[1..];
    }
  }

  lemma {:induction false} RenderedPieces(es: seq<Entry>)
    requires forall e :: e in es ==> '|' !in e.0 && '|' !in e.1
    ensures forall p :: p in RenderAll(es) ==> '|' !in p
  {
    if |es| > 0 {
      assert es[0] in es;
      assert forall e :: e in es[1..] ==> e in es;
      RenderedPieces(es[1..]);
    }
  }

  /** Decoding the canonical string gives back the user id and the sorted entries. */
  lemma CanonicalRoundTrip(userId: string, es: seq<Entry>)
    requires Unambiguous(userId, es)
    ensures DecodeCanonical(CanonicalString(userId, es)) == Some((userId, SortEntries(es)))
  {
    var sorted := SortEntries(es);
    SortEntriesSorted(es);
    assert forall e :: e in sorted ==> e in es by {
      forall e | e in sorted ensures e in es { assert e in multiset(sorted); }
    }
    var pieces := RenderAll(sorted);
    var joined := Join(pieces, "|");
    SplitFirstOf(userId, joined, '|');
    assert CanonicalString(userId, es) == userId + ['|'] + joined;
    if |sorted| > 0 {
      assert |pieces[0]| > 0;
      assert joined != "" by {
        if |pieces| > 1 { assert joined[0] == pieces[0][0]; }
      }
      RenderedPieces(sorted);
      assert "|" == ['|'];
      SplitAllJoin(pieces, '|');
      ParseRendered(sorted);
    }
  }

  /**
   * When nothing holds a delimiter, equal canonical strings mean the same
   * user and the same entries.
   */
  lemma CanonicalInjective(u1: string, es1: seq<Entry>, u2: string, es2: seq<Entry>)
    requires Unambiguous(u1, es1) && Unambiguous(u2, es2)
    requires CanonicalString(u1, es1) == CanonicalString(u2, es2)
    ensures u1 == u2 && multiset(es1) == multiset(es2)
  {
    CanonicalRoundTrip(u1, es1);
    CanonicalRoundTrip(u2, es2);
    SortEntriesSorted(es1);
    SortEntriesSorted(es2);
  }

  // ------------------------------------------------------- the four fields

  /** The four field names in sorted order: additionalInfo, companyName, personName, title. */
  function FieldOrder(q: SearchQuery): seq<Entry>
  {
    [("additionalInfo", q.additionalInfo), ("companyName", q.companyName),
     ("personName", q.personName), ("title", q.title)]
  }

  lemma QueryEntriesKeyFunctional(q: SearchQuery)
    ensures KeyFunctional(multiset(QueryEntries(q)))
  {
    var m := multiset(QueryEntries(q));
    forall x, y | x in m && y in m && x.0 == y.0 ensures x == y {
      assert x in QueryEntries(q) && y in QueryEntries(q);
    }
  }

  /** Sorting a query's entries puts the fields in the order of their names. */
  lemma QueryEntriesSorted(q: SearchQuery)
    ensures SortEntries(QueryEntries(q)) == FieldOrder(q)
  {
    var f := FieldOrder(q);
    assert Lt("additionalInfo", "companyName");
    assert Lt("companyName", "personName");
    assert Lt("personName", "title");
    LtTransitive("additionalInfo", "companyName", "personName");
    LtTransitive("additionalInfo", "personName", "title");
    LtTransitive("companyName", "personName", "title");
    forall i, j | 0 <= i < j < |f| ensures !Lt(f[j].0, f[i].0) {
      LtTrichotomous(f[i].0, f[j].0);
    }
    assert multiset(f) == multiset(QueryEntries(q));
    QueryEntriesKeyFunctional(q);
    SortEntriesSorted(QueryEntries(q));
    SortedUnique(SortEntries(QueryEntries(q)), f);
  }

  /** The canonical string of a query, as `createQueryHash` builds it. */
  function QueryString(userId: string, q: SearchQuery): string
  {
    CanonicalString(userId, QueryEntries(q))
  }

  /**
   * If no field value and not the user id holds `|`, two canonical strings
   * are equal exactly when the users and the queries are.
   */
  lemma QueryStringInjective(u1: string, q1: SearchQuery, u2: string, q2: SearchQuery)
    requires Unambiguous(u1, QueryEntries(q1)) && Unambiguous(u2, QueryEntries(q2))
    ensures QueryString(u1, q1) == QueryString(u2, q2) <==> u1 == u2 && q1 == q2
  {
    if QueryString(u1, q1) == QueryString(u2, q2) {
      CanonicalRoundTrip(u1, QueryEntries(q1));
      CanonicalRoundTrip(u2, QueryEntries(q2));
      QueryEntriesSorted(q1);
      QueryEntriesSorted(q2);
      assert FieldOrder(q1) == FieldOrder(q2);
    }
  }

  lemma {:induction false} RenderAllAt(es: seq<Entry>, i: nat)
    requires i < |es|
    ensures RenderAll(es)[i] == RenderEntry(es[i])
  {
    if i > 0 {
      RenderAllAt(es[1..], i - 1);
    }
  }

  /** The canonical string of a query written out: `userId|additionalInfo:..|companyName:..|personName:..|title:..`. */
  function QueryLayout(userId: string, q: SearchQuery): string
  {
    userId + "|" + (("additionalInfo" + ":" + q.additionalInfo) + "|" +
                   (("companyName" + ":" + q.companyName) + "|" +
                   (("personName" + ":" + q.personName) + "|" + ("title" + ":" + q.title))))
  }

  /** Sorting puts the four fields in the order additionalInfo, companyName, personName, title. */
  lemma QueryStringLayout(userId: string, q: SearchQuery)
    ensures QueryString(userId, q) == QueryLayout(userId, q)
  {
    QueryEntriesSorted(q);
    var f := FieldOrder(q);
    var r := RenderAll(f);
    RenderAllAt(f, 0);
    RenderAllAt(f, 1);
    RenderAllAt(f, 2);
    RenderAllAt(f, 3);
    JoinFour(r, "|");
  }

  /**
   * Without that condition the canonical string does not identify the query:
   * a `|` inside a value can imitate a field boundary. Two queries whose
   * additionalInfo and companyName differ but read the same once joined by
   * `|companyName:` collide, for instance additionalInfo "a|companyName:b"
   * with companyName "c" against additionalInfo "a" with companyName
   * "b|companyName:c".
   */
  lemma DelimiterInValueCollides(userId: string, q1: SearchQuery, q2: SearchQuery)
    requires q1 != q2 && q1.personName == q2.personName && q1.title == q2.title
    requires q1.additionalInfo + "|companyName:" + q1.companyName
          == q2.additionalInfo + "|companyName:" + q2.companyName
    ensures QueryString(userId, q1) == QueryString(userId, q2)
  {
    assert "|companyName:" == "|" + ("companyName" + ":");
    RegroupFields(userId, "additionalInfo" + ":", q1.additionalInfo, "companyName" + ":", q1.companyName,
                  q2.additionalInfo, q2.companyName, "|",
                  ("personName" + ":" + q1.personName) + "|" + ("title" + ":" + q1.title));
    assert QueryLayout(userId, q1) == QueryLayout(userId, q2);
    QueryStringLayout(userId, q1);
    QueryStringLayout(userId, q2);
  }

  lemma RegroupFields(u: string, k: string, x1: string, n: string, c1: string, x2: string, c2: string,
                      d: string, t: string)
    requires x1 + (d + n) + c1 == x2 + (d + n) + c2
    ensures u + d + ((k + x1) + d + ((n + c1) + d + t)) == u + d + ((k + x2) + d + ((n + c2) + d + t))
  {
    assert (k + x1) + d + ((n + c1) + d + t) == k + (x1 + (d + n) + c1) + d + t;
    assert (k + x2) + d + ((n + c2) + d + t) == k + (x2 + (d + n) + c2) + d + t;
  }

  // ---------------------------------------------------------- hex encoding

  predicate IsHexDigit(c: char)
  {
    '0' <= c <= '9' || 'a' <= c <= 'f'
  }

  predicate IsLowerHex(s: string)
  {
    forall i :: 0 <= i < |s| ==> IsHexDigit(s[i])
  }

  /** The lower-case hex digit for a value below 16. */
  function HexDigit(n: nat): (c: char)
    requires n < 16
    ensures IsHexDigit(c)
  {
    if n < 10 then ('0' as int + n) as char else ('a' as int + n - 10) as char
  }

  /** `b.toString(16).padStart(2, '0')`. */
  function ByteToHex(b: byte): string
  {
    [HexDigit(b as int / 16), HexDigit(b as int % 16)]
  }

  /** `hashArray.map(...).join('')`. */
  function ToHex(bs: seq<byte>): (s: string)
    ensures |s| == 2 * |bs|
    ensures IsLowerHex(s)
  {
    if |bs| == 0 then "" else ByteToHex(bs[0]) + ToHex(bs[1..])
  }

  /** The value of one lower-case hex digit. */
  function HexValue(c: char): (r: Option<nat>)
    ensures r.Some? <==> IsHexDigit(c)
    ensures r.Some? ==> r.value < 16 && HexDigit(r.value) == c
  {
    if '0' <= c <= '9' then Some(c as int - '0' as int)
    else if 'a' <= c <= 'f' then Some(c as int - 'a' as int + 10)
    else None
  }

  /** Reads lower-case hex back into bytes; None on odd length or a foreign character. */
  function FromHex(s: string): Option<seq<byte>>
  {
    if |s| == 0 then Some([])
    else if |s| == 1 then None
    else
      match (HexValue(s[0]), HexValue(s[1]), FromHex(s[2..]))
      case (Some(hi), Some(lo), Some(rest)) => Some([(hi * 16 + lo) as byte] + rest)
      case _ => None
  }

  /** Each digit reads back as the value it was written for. */
  lemma HexValueOfDigit(n: nat)
    requires n < 16
    ensures HexValue(HexDigit(n)) == Some(n)
  {
  }

  /** The two digits of one byte read back as its high and low halves. */
  lemma ByteHexValues(b: byte)
    ensures HexValue(ByteToHex(b)[0]) == Some(b as int / 16)
    ensures HexValue(ByteToHex(b)[1]) == Some(b as int % 16)
    ensures ((b as int / 16) * 16 + b as int % 16) as byte == b
  {
    HexValueOfDigit(b as int / 16);
    HexValueOfDigit(b as int % 16);
  }

  lemma {:induction false} HexRoundTrip(bs: seq<byte>)
    ensures FromHex(ToHex(bs)) == Some(bs)
  {
    if |bs| > 0 {
      var s := ToHex(bs);
      var h := ByteToHex(bs[0]);
      assert s == h + ToHex(bs[1..]);
      assert s[0] == h[0] && s[1] == h[1] && s[2..] == ToHex(bs[1..]);
      ByteHexValues(bs[0]);
      HexRoundTrip(bs[1..]);
      assert bs == [bs[0]] + bs[1..];
    }
  }

  /** Every string `FromHex` accepts is the encoding of what it returns. */
  lemma {:induction false} HexDecodeEncodes(s: string, bs: seq<byte>)
    requires FromHex(s) == Some(bs)
    ensures ToHex(bs) == s
  {
    if |s| > 0 {
      var hi := HexValue(s[0]).value;
      var lo := HexValue(s[1]).value;
      var rest := FromHex(s[2..]).value;
      HexDecodeEncodes(s[2..], rest);
      assert bs == [(hi * 16 + lo) as byte] + rest;
      assert (hi * 16 + lo) / 16 == hi && (hi * 16 + lo) % 16 == lo;
      assert s == [s[0], s[1]] + s[2..];
    }
  }

  // ----------------------------------------------------------- fingerprint

  /**
   * `createQueryHash(query, userId)`: 64 lower-case hex digits that decode
   * to the digest of the canonical string.
   */
  function CreateQueryHash(q: SearchQuery, userId: string, sha256: string -> Digest): (id: string)
    ensures |id| == 64 && IsLowerHex(id)
    ensures FromHex(id) == Some(sha256(QueryString(userId, q)))
  {
    HexRoundTrip(sha256(QueryString(userId, q)));
    ToHex(sha256(QueryString(userId, q)))
  }

  /**
   * A request body whose query lists the same fields in another order gets
   * the same fingerprint.
   */
  lemma FingerprintOrderIndependent(q: SearchQuery, es: seq<Entry>, userId: string, sha256: string -> Digest)
    requires multiset(es) == multiset(QueryEntries(q))
    ensures ToHex(sha256(CanonicalString(userId, es))) == CreateQueryHash(q, userId, sha256)
  {
    QueryEntriesKeyFunctional(q);
    CanonicalStringOrderIndependent(userId, es, QueryEntries(q));
  }
}
