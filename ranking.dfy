/** The ranking of `main` (lines 134-139): `sorted(cats, key=lambda k: -k.weight.int)`,
    which is stable, and the numbered report printed from it. */
module Ranking {
  import opened Text
  import opened Records

  function Ounces(r: CatRecord): int
  {
    r.fields.weight.total
  }

  /** Heaviest first: total ounces never increase along s. */
  predicate HeaviestFirst(s: seq<CatRecord>)
  {
    forall i, j :: 0 <= i < j < |s| ==> Ounces(s[i]) >= Ounces(s[j])
  }

  /** The records of s that weigh exactly w ounces, in their order in s. */
  function WithOunces(s: seq<CatRecord>, w: int): seq<CatRecord>
  {
    if s == [] then [] else (if Ounces(s[0]) == w then [s[0]] else []) + WithOunces(s[1..], w)
  }

  /** x placed before the first record of t that is no heavier than x. */
  function Insert(x: CatRecord, t: seq<CatRecord>): (r: seq<CatRecord>)
    ensures |r| == |t| + 1
    ensures r[0] == x || (t != [] && r[0] == t[0])
  {
    if t == [] || Ounces(x) >= Ounces(t[0]) then [x] + t
    else [t[0]] + Insert(x, t[1..])
  }

  /** Insert adds x and keeps every record of t: a permutation of x and t. */
  lemma {:induction false} InsertPermutes(x: CatRecord, t: seq<CatRecord>)
    ensures multiset(Insert(x, t)) == multiset(t) + multiset{x}
    decreases |t|
  {
    if t != [] && Ounces(x) < Ounces(t[0]) {
      InsertPermutes(x, t[1..]);
      assert t == [t[0]] + t[1..];
    }
  }

  lemma InsertMember(x: CatRecord, t: seq<CatRecord>, y: CatRecord)
    requires y in Insert(x, t)
    ensures y == x || y in t
  {
    InsertPermutes(x, t);
    assert y in multiset(Insert(x, t));
  }

  /** Inserting into a heaviest-first list keeps it heaviest first. */
  lemma {:induction false} InsertKeepsOrder(x: CatRecord, t: seq<CatRecord>)
    requires HeaviestFirst(t)
    ensures HeaviestFirst(Insert(x, t))
    decreases |t|
  {
    var r := Insert(x, t);
    if t == [] || Ounces(x) >= Ounces(t[0]) {
      assert r == [x] + t;
    } else {
      var t' := t[1..];
      InsertKeepsOrder(x, t');
      var rest := Insert(x, t');
      assert r == [t[0]] + rest;
      forall j | 0 <= j < |rest|
        ensures Ounces(t[0]) >= Ounces(rest[j])
      {
        InsertMember(x, t', rest[j]);
        if rest[j] != x {
          var k :| 0 <= k < |t'| && t'[k] == rest[j];
          assert t[k + 1] == rest[j];
        }
      }
    }
  }

  /** Insert passes over heavier records only, so x lands before every record of its own weight. */
  lemma {:induction false} InsertKeepsTies(x: CatRecord, t: seq<CatRecord>, w: int)
    ensures WithOunces(Insert(x, t), w) == (if Ounces(x) == w then [x] else []) + WithOunces(t, w)
    decreases |t|
  {
    var r := Insert(x, t);
    if t == [] || Ounces(x) >= Ounces(t[0]) {
      assert r == [x] + t;
      assert r[0] == x && r[1..] == t;
    } else {
      var rest := Insert(x, t[1..]);
      assert r == [t[0]] + rest;
      assert r[0] == t[0] && r[1..] == rest;
      InsertKeepsTies(x, t[1..], w);
      assert WithOunces(t, w) == (if Ounces(t[0]) == w then [t[0]] else []) + WithOunces(t[1..], w);
    }
  }

  lemma MultisetOfCons(s: seq<CatRecord>)
    requires s != []
    ensures multiset(s) == multiset(s[1..]) + multiset{s[0]}
  {
    assert s == [s[0]] + s[1..];
  }

  /** `sorted(cats, key=lambda k: -k.weight.int)`: a permutation of s, heaviest
      first. */
  function SortByWeight(s: seq<CatRecord>): (r: seq<CatRecord>)
    ensures multiset(r) == multiset(s) && |r| == |s|
    ensures HeaviestFirst(r)
  {
    if s == [] then []
    else
      var rest := SortByWeight(s[1..]);
      InsertPermutes(s[0], rest);
      InsertKeepsOrder(s[0], rest);
      MultisetOfCons(s);
      Insert(s[0], rest)
  }

  /** The sort is stable: the records of each weight keep their order in s. */
  lemma {:induction false} SortIsStable(s: seq<CatRecord>, w: int)
    ensures WithOunces(SortByWeight(s), w) == WithOunces(s, w)
    decreases |s|
  {
    if s != [] {
      SortIsStable(s[1..], w);
      InsertKeepsTies(s[0], SortByWeight(s[1..]), w);
    }
  }

  lemma SortCons(x: CatRecord, s: seq<CatRecord>)
    ensures SortByWeight([x] + s) == Insert(x, SortByWeight(s))
  {
    assert ([x] + s)[1..] == s;
  }

  lemma InsertPast(x: CatRecord, y: CatRecord, t: seq<CatRecord>)
    requires Ounces(x) < Ounces(y)
    ensures Insert(x, [y] + t) == [y] + Insert(x, t)
  {
    assert ([y] + t)[1..] == t;
  }

  lemma InsertBefore(x: CatRecord, t: seq<CatRecord>)
    requires t == [] || Ounces(x) >= Ounces(t[0])
    ensures Insert(x, t) == [x] + t
  {
  }

  /** Weights 80, 83, 0, 80 rank as 83, 80, 80, 0, the two 80s in their original order. */
  lemma SortExample(a: CatRecord, b: CatRecord, c: CatRecord, d: CatRecord)
    requires Ounces(a) == 80 && Ounces(b) == 83 && Ounces(c) == 0 && Ounces(d) == 80
    ensures SortByWeight([a, b, c, d]) == [b, a, d, c]
  {
    SortExampleTail(b, c, d);
    SortFour(a, b, c, d);
    InsertExample(a, b, c, d);
  }

  lemma SortFour(a: CatRecord, b: CatRecord, c: CatRecord, d: CatRecord)
    ensures SortByWeight([a, b, c, d]) == Insert(a, SortByWeight([b, c, d]))
  {
    assert [a, b, c, d][1..] == [b, c, d];
  }

  lemma InsertExample(a: CatRecord, b: CatRecord, c: CatRecord, d: CatRecord)
    requires Ounces(a) == 80 && Ounces(b) == 83 && Ounces(d) == 80
    ensures Insert(a, [b, d, c]) == [b, a, d, c]
  {
    assert [b, d, c][1..] == [d, c];
  }

  lemma SortExampleTail(b: CatRecord, c: CatRecord, d: CatRecord)
    requires Ounces(b) == 83 && Ounces(c) == 0 && Ounces(d) == 80
    ensures SortByWeight([b, c, d]) == [b, d, c]
  {
    SortExampleLastTwo(c, d);
    SortCons(b, [c, d]);
    assert [b] + [c, d] == [b, c, d];
    InsertBefore(b, [d, c]);
  }

  lemma SortExampleLastTwo(c: CatRecord, d: CatRecord)
    requires Ounces(c) == 0 && Ounces(d) == 80
    ensures SortByWeight([c, d]) == [d, c]
  {
    SortCons(d, []);
    InsertBefore(d, []);
    SortCons(c, [d]);
    InsertPast(c, d, []);
    InsertBefore(c, []);
  }

  /** `'{: >3}. {}'.format(item, cat)`: the rank right-aligned in three columns. */
  function RankLine(item: nat, r: CatRecord): string
  {
    PadLeft(DecimalString(item), 3) + ". " + Render(r)
  }

  /** The number at the head of a report line reads back as its rank. */
  lemma RankLineNumber(item: nat, r: CatRecord)
    ensures var n := |PadLeft(DecimalString(item), 3)|;
            n <= |RankLine(item, r)| && Strip(RankLine(item, r)[..n]) == DecimalString(item)
    ensures var n := |PadLeft(DecimalString(item), 3)|;
            n <= |RankLine(item, r)| && AllDigits(Strip(RankLine(item, r)[..n])) &&
            DecimalValue(Strip(RankLine(item, r)[..n])) == item
  {
    var p := PadLeft(DecimalString(item), 3);
    assert RankLine(item, r)[..|p|] == p;
    PadLeftNumberStrips(item, 3);
    DecimalRoundTrip(item);
  }

  /** Lines 135-139: "Ranking:" and then one line per cat, numbered from 1. */
  method Report(ranked: seq<CatRecord>) returns (lines: seq<string>)
    ensures |lines| == |ranked| + 1 && lines[0] == "Ranking:"
    ensures forall i :: 0 <= i < |ranked| ==> lines[i + 1] == RankLine(i + 1, ranked[i])
  {
    lines := ["Ranking:"];
    var item := 1;
    for i := 0 to |ranked|
      invariant item == i + 1 && |lines| == item && lines[0] == "Ranking:"
      invariant forall k :: 0 <= k < i ==> lines[k + 1] == RankLine(k + 1, ranked[k])
    {
      lines := lines + [RankLine(item, ranked[i])];
      item := item + 1;
    }
  }
}
