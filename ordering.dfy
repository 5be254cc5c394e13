/**
 * The order `Array#sort` puts hash keys in, through `<=>`: strings and symbols byte-wise
 * lexicographically, integers numerically, arrays item by item. Keys that `<=>` cannot compare
 * make `sort` raise.
 */
module Ordering {
  import opened Values

  /** `a <=> b == -1` for strings. */
  predicate LexLess(a: string, b: string)
    decreases |a|
  {
    if |a| == 0 then |b| > 0
    else if |b| == 0 then false
    else if a[0] != b[0] then a[0] < b[0]
    else LexLess(a[1..], b[1..])
  }

  lemma {:induction false} LexLessIrreflexive(a: string)
    ensures !LexLess(a, a)
    decreases |a|
  {
    if |a| > 0 {
      LexLessIrreflexive(a[1..]);
    }
  }

  lemma {:induction false} LexLessTransitive(a: string, b: string, c: string)
    requires LexLess(a, b) && LexLess(b, c)
    ensures LexLess(a, c)
    decreases |a|
  {
    if |a| > 0 && |b| > 0 && |c| > 0 && a[0] == b[0] == c[0] {
      LexLessTransitive(a[1..], b[1..], c[1..]);
    }
  }

  lemma {:induction false} LexLessTotal(a: string, b: string)
    requires a != b
    ensures LexLess(a, b) || LexLess(b, a)
    decreases |a|
  {
    if |a| > 0 && |b| > 0 && a[0] == b[0] {
      assert a == [a[0]] + a[1..] && b == [b[0]] + b[1..];
      LexLessTotal(a[1..], b[1..]);
    }
  }

  /** `s <=> t` for two strings, or two symbols by their names. */
  function CmpText(s: string, t: string): int
  {
    if LexLess(s, t) then -1 else if s == t then 0 else 1
  }

  lemma CmpTextFacts(s: string, t: string)
    ensures CmpText(s, t) == -CmpText(t, s)
    ensures CmpText(s, t) == 0 <==> s == t
  {
    LexLessIrreflexive(s);
    if LexLess(s, t) && LexLess(t, s) {
      LexLessTransitive(s, t, s);
    }
    if s != t {
      LexLessTotal(s, t);
    }
  }

  /**
   * `a <=> b` for two keys: -1, 0 or 1, or `None` where Ruby answers nil and `sort` raises.
   * Strings, symbols and integers compare within their own kind; arrays item by item and then
   * by length, giving nil at the first pair of items that do not compare; nil, true, false and
   * hashes only compare (as 0) with an equal value.
   */
  function Compare(a: Value, b: Value): Option<int>
    decreases a
  {
    match a
      case Str(s) => if b.Str? then Some(CmpText(s, b.s)) else None
      case Sym(n) => if b.Sym? then Some(CmpText(n, b.name)) else None
      case Int(i) => if b.Int? then Some(if i < b.i then -1 else if i == b.i then 0 else 1) else None
      case Arr(xs) => if b.Arr? then CompareItems(xs, b.items) else None
      case _ => if a == b then Some(0) else None
  }

  /** `Array#<=>` on the items of two arrays. */
  function CompareItems(xs: seq<Value>, ys: seq<Value>): Option<int>
    decreases xs
  {
    if |xs| == 0 then Some(if |ys| == 0 then 0 else -1)
    else if |ys| == 0 then Some(1)
    else match Compare(xs[0], ys[0])
      case None => None
      case Some(c) => if c == 0 then CompareItems(xs[1..], ys[1..]) else Some(c)
  }

  function Flip(c: Option<int>): Option<int>
  {
    match c
      case None => None
      case Some(n) => Some(-n)
  }

  /** `<=>` is antisymmetric, answers 0 exactly on equal keys, and answers only -1, 0 or 1. */
  lemma {:induction false} CompareFacts(a: Value, b: Value)
    ensures Compare(a, b) == Flip(Compare(b, a))
    ensures Compare(a, b) == Some(0) <==> a == b
    ensures Compare(a, b).Some? ==> -1 <= Compare(a, b).value <= 1
    decreases a
  {
    match a
      case Str(s) => if b.Str? { CmpTextFacts(s, b.s); }
      case Sym(n) => if b.Sym? { CmpTextFacts(n, b.name); }
      case Int(_) =>
      case Arr(xs) => if b.Arr? { ItemsFacts(xs, b.items); }
      case _ =>
  }

  lemma {:induction false} ItemsFacts(xs: seq<Value>, ys: seq<Value>)
    ensures CompareItems(xs, ys) == Flip(CompareItems(ys, xs))
    ensures CompareItems(xs, ys) == Some(0) <==> xs == ys
    ensures CompareItems(xs, ys).Some? ==> -1 <= CompareItems(xs, ys).value <= 1
    decreases xs
  {
    if |xs| > 0 && |ys| > 0 {
      CompareFacts(xs[0], ys[0]);
      ItemsFacts(xs[1..], ys[1..]);
      assert xs == [xs[0]] + xs[1..] && ys == [ys[0]] + ys[1..];
    }
  }

  /** `<=>` answering -1 is transitive. */
  lemma {:induction false} CompareTransitive(a: Value, b: Value, c: Value)
    requires Compare(a, b) == Some(-1) && Compare(b, c) == Some(-1)
    ensures Compare(a, c) == Some(-1)
    decreases a
  {
    match a
      case Str(s) =>
        LexLessIrreflexive(s);
        if LexLess(s, b.s) && LexLess(b.s, c.s) { LexLessTransitive(s, b.s, c.s); }
      case Sym(n) =>
        LexLessIrreflexive(n);
        if LexLess(n, b.name) && LexLess(b.name, c.name) { LexLessTransitive(n, b.name, c.name); }
      case Int(_) =>
      case Arr(xs) => ItemsTransitive(xs, b.items, c.items);
      case _ =>
  }

  lemma {:induction false} ItemsTransitive(xs: seq<Value>, ys: seq<Value>, zs: seq<Value>)
    requires CompareItems(xs, ys) == Some(-1) && CompareItems(ys, zs) == Some(-1)
    ensures CompareItems(xs, zs) == Some(-1)
    decreases xs
  {
    if |xs| > 0 && |ys| > 0 && |zs| > 0 {
      CompareFacts(xs[0], ys[0]);
      CompareFacts(ys[0], zs[0]);
      var c1 := Compare(xs[0], ys[0]).value;
      var c2 := Compare(ys[0], zs[0]).value;
      if c1 == 0 && c2 == 0 {
        ItemsTransitive(xs[1..], ys[1..], zs[1..]);
      } else if c1 != 0 && c2 != 0 {
        CompareTransitive(xs[0], ys[0], zs[0]);
      }
    }
  }

  /** Keys `sort` can order against each other. */
  predicate Comparable(a: Value, b: Value)
  {
    Compare(a, b).Some?
  }

  predicate KeyLess(a: Value, b: Value)
  {
    Compare(a, b) == Some(-1)
  }

  /** Array keys order by their first differing item; a pair of items that do not compare makes the arrays incomparable. */
  lemma ArrayKeysCompare()
    ensures KeyLess(Arr([Int(1), Str("b")]), Arr([Int(2)]))
    ensures KeyLess(Arr([Str("a")]), Arr([Str("a"), Int(0)]))
    ensures !Comparable(Arr([Int(1)]), Arr([Str("a")]))
    ensures !Comparable(Str("a"), Sym("a"))
  {
  }

  lemma KeyLessStrict(a: Value, b: Value, c: Value)
    ensures !KeyLess(a, a)
    ensures KeyLess(a, b) && KeyLess(b, c) ==> KeyLess(a, c)
    ensures KeyLess(a, b) ==> !KeyLess(b, a)
  {
    CompareFacts(a, a);
    CompareFacts(a, b);
    if KeyLess(a, b) && KeyLess(b, c) {
      CompareTransitive(a, b, c);
    }
  }

  lemma KeyLessTotal(a: Value, b: Value)
    requires Comparable(a, b) && a != b
    ensures KeyLess(a, b) || KeyLess(b, a)
  {
    CompareFacts(a, b);
  }

  /** The entries in ascending key order. */
  predicate SortedByKey(es: seq<Pair>)
  {
    forall i, j | 0 <= i < j < |es| :: KeyLess(es[i].key, es[j].key)
  }

  /** Insert one entry into a sorted list at its place. */
  function InsertByKey(p: Pair, es: seq<Pair>): (r: seq<Pair>)
    ensures multiset(r) == multiset(es) + multiset{p}
    ensures |r| == |es| + 1
  {
    if |es| == 0 then [p]
    else if KeyLess(p.key, es[0].key) then [p] + es
    else
      var rest := InsertByKey(p, es[1..]);
      assert es == [es[0]] + es[1..];
      [es[0]] + rest
  }

  /** `keys.sort`, as it orders the entries of a hash. */
  function SortByKey(es: seq<Pair>): (r: seq<Pair>)
    ensures multiset(r) == multiset(es)
    ensures |r| == |es|
  {
    if |es| == 0 then []
    else
      assert es == [es[0]] + es[1..];
      InsertByKey(es[0], SortByKey(es[1..]))
  }

  predicate PairwiseComparable(ps: seq<Pair>)
  {
    forall i, j | 0 <= i < |ps| && 0 <= j < |ps| && i != j :: Comparable(ps[i].key, ps[j].key) && ps[i].key != ps[j].key
  }

  /** Each entry after an insertion is the inserted one or one that was there. */
  lemma InsertedFrom(p: Pair, es: seq<Pair>, j: nat) returns (k: nat)
    requires j < |InsertByKey(p, es)|
    ensures InsertByKey(p, es)[j] != p ==> k < |es| && InsertByKey(p, es)[j] == es[k]
  {
    var q := InsertByKey(p, es)[j];
    assert q in multiset(InsertByKey(p, es));
    k := 0;
    if q != p {
      assert q in multiset(es);
      k :| 0 <= k < |es| && es[k] == q;
    }
  }

  lemma {:induction false} InsertKeepsSorted(p: Pair, es: seq<Pair>)
    requires SortedByKey(es)
    requires forall i | 0 <= i < |es| :: Comparable(p.key, es[i].key) && p.key != es[i].key
    ensures SortedByKey(InsertByKey(p, es))
    decreases |es|
  {
    if |es| > 0 {
      if KeyLess(p.key, es[0].key) {
        var r := [p] + es;
        forall i, j | 0 <= i < j < |r|
          ensures KeyLess(r[i].key, r[j].key)
        {
          if i == 0 && j > 1 {
            KeyLessStrict(p.key, es[0].key, es[j - 1].key);
          }
        }
      } else {
        KeyLessTotal(p.key, es[0].key);
        InsertKeepsSorted(p, es[1..]);
        var rest := InsertByKey(p, es[1..]);
        var r := [es[0]] + rest;
        forall i, j | 0 <= i < j < |r|
          ensures KeyLess(r[i].key, r[j].key)
        {
          if i == 0 {
            var k := InsertedFrom(p, es[1..], j - 1);
            if rest[j - 1] != p {
              assert es[k + 1] == rest[j - 1];
            }
          } else {
            assert r[i] == rest[i - 1] && r[j] == rest[j - 1];
          }
        }
      }
    }
  }

  /** Sorting keys that are pairwise comparable and distinct yields ascending order. */
  lemma {:induction false} SortByKeySorted(es: seq<Pair>)
    requires PairwiseComparable(es)
    ensures SortedByKey(SortByKey(es))
    decreases |es|
  {
    if |es| > 0 {
      var tail := es[1..];
      assert PairwiseComparable(tail) by {
        forall i, j | 0 <= i < |tail| && 0 <= j < |tail| && i != j
          ensures Comparable(tail[i].key, tail[j].key) && tail[i].key != tail[j].key
        {
          assert tail[i] == es[i + 1] && tail[j] == es[j + 1];
        }
      }
      SortByKeySorted(tail);
      var s := SortByKey(tail);
      forall i | 0 <= i < |s|
        ensures Comparable(es[0].key, s[i].key) && es[0].key != s[i].key
      {
        assert s[i] in multiset(s);
        assert s[i] in tail;
        var k :| 0 <= k < |tail| && tail[k] == s[i];
        assert es[k + 1] == s[i];
      }
      InsertKeepsSorted(es[0], s);
    }
  }
}
