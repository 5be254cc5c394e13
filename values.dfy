/**
 * The values a parsed settings file and the module schemas are made of: nil, booleans,
 * integers, strings, symbols, arrays and insertion-ordered hashes, with the Ruby operations
 * the provisioner uses on them (including its own overrides of `empty?`).
 */
module Values {
  import opened Strings

  datatype Option<T> = None | Some(value: T)

  datatype Value =
    | Nil
    | Bool(b: bool)
    | Int(i: int)
    | Str(s: string)
    | Sym(name: string)
    | Arr(items: seq<Value>)
    | Hash(entries: seq<Pair>)

  /** One entry of a Ruby hash; a hash keeps its entries in insertion order. */
  datatype Pair = Pair(key: Value, val: Value)

  function Keys(es: seq<Pair>): (ks: seq<Value>)
    ensures |ks| == |es|
    ensures forall i | 0 <= i < |es| :: ks[i] == es[i].key
  {
    if |es| == 0 then [] else [es[0].key] + Keys(es[1..])
  }

  /** A Ruby hash never holds the same key twice. */
  predicate UniqueKeys(es: seq<Pair>)
  {
    forall i, j | 0 <= i < j < |es| :: KeyAt(es, i) != KeyAt(es, j)
  }

  /** The key of the entry at position `i`. */
  function KeyAt(es: seq<Pair>, i: nat): Value
    requires i < |es|
  {
    es[i].key
  }

  /** The position of the entry for `k`, if there is one. */
  function Find(es: seq<Pair>, k: Value): (r: Option<nat>)
    ensures r.Some? ==> r.value < |es|
  {
    if |es| == 0 then None
    else if es[0].key == k then Some(0)
    else match Find(es[1..], k)
      case None => None
      case Some(j) => Some(j + 1)
  }

  /** `Find` gives the first entry for `k`, and nothing only when there is none. */
  lemma {:induction false} FindSpec(es: seq<Pair>, k: Value)
    ensures Find(es, k).None? <==> forall i | 0 <= i < |es| :: es[i].key != k
    ensures Find(es, k).Some? ==> es[Find(es, k).value].key == k
    ensures Find(es, k).Some? ==> forall i | 0 <= i < Find(es, k).value :: es[i].key != k
  {
    if |es| > 0 && es[0].key != k {
      var t := es[1..];
      FindSpec(t, k);
      assert forall i | 1 <= i < |es| :: es[i] == t[i - 1];
    }
  }

  predicate HasKey(es: seq<Pair>, k: Value) { Find(es, k).Some? }

  /** `hash[k]` when `k` is present. */
  function Get(es: seq<Pair>, k: Value): (r: Option<Value>)
    ensures r.Some? <==> HasKey(es, k)
  {
    match Find(es, k)
      case None => None
      case Some(i) => Some(es[i].val)
  }

  /** A value `hash[k]` finds is the value of an entry for `k`. */
  lemma GetEntry(es: seq<Pair>, k: Value)
    ensures Get(es, k).Some? ==> Pair(k, Get(es, k).value) in es
  {
    FindSpec(es, k);
    if HasKey(es, k) {
      var i := Find(es, k).value;
      assert es[i] == Pair(k, Get(es, k).value);
    }
  }

  /** `hash[k]` as Ruby reads it: nil for a missing key. */
  function At(es: seq<Pair>, k: Value): Value
  {
    match Get(es, k)
      case None => Nil
      case Some(v) => v
  }

  /** `hash[k] = v`: an existing key keeps its place, a new one goes last. */
  function Put(es: seq<Pair>, k: Value, v: Value): (r: seq<Pair>)
    ensures |r| == |es| || |r| == |es| + 1
  {
    match Find(es, k)
      case None => es + [Pair(k, v)]
      case Some(i) => es[i := Pair(k, v)]
  }

  /** `hash.delete(k)`. */
  function Delete(es: seq<Pair>, k: Value): (r: seq<Pair>)
    ensures |r| <= |es|
    ensures forall i | 0 <= i < |r| :: r[i].key != k
    ensures forall i | 0 <= i < |r| :: r[i] in es
  {
    if |es| == 0 then []
    else if es[0].key == k then Delete(es[1..], k)
    else [es[0]] + Delete(es[1..], k)
  }

  lemma PutGetSame(es: seq<Pair>, k: Value, v: Value)
    ensures Get(Put(es, k, v), k) == Some(v)
  {
    FindSpec(es, k);
    match Find(es, k)
      case None =>
        var r := es + [Pair(k, v)];
        assert Find(r, k) == Some(|es|) by { FindAppend(es, k, v); }
      case Some(i) =>
        var r := es[i := Pair(k, v)];
        assert Find(r, k) == Some(i) by { FindAt(r, k, i); }
  }

  lemma {:induction false} FindAppend(es: seq<Pair>, k: Value, v: Value)
    requires Find(es, k).None?
    ensures Find(es + [Pair(k, v)], k) == Some(|es|)
  {
    var r := es + [Pair(k, v)];
    FindSpec(es, k);
    assert forall i | 0 <= i < |es| :: r[i].key != k;
    FindAt(r, k, |es|);
  }

  lemma {:induction false} FindAt(r: seq<Pair>, k: Value, i: nat)
    requires i < |r| && r[i].key == k
    requires forall j | 0 <= j < i :: r[j].key != k
    ensures Find(r, k) == Some(i)
  {
    FindSpec(r, k);
  }

  lemma PutGetOther(es: seq<Pair>, k: Value, v: Value, k': Value)
    requires k' != k
    ensures Get(Put(es, k, v), k') == Get(es, k')
  {
    var r := Put(es, k, v);
    FindSpec(es, k);
    FindSpec(es, k');
    FindSpec(r, k');
    assert forall j | 0 <= j < |es| && j < |r| :: r[j].key == k' <==> es[j].key == k';
    match Find(es, k')
      case None =>
        assert forall j | 0 <= j < |r| :: r[j].key != k';
      case Some(j) =>
        assert r[j] == es[j];
        FindAt(r, k', j);
  }

  /** `hash[k] = v` keeps every key there was and adds `k`. */
  lemma PutKeepsKeys(es: seq<Pair>, k: Value, v: Value, ks: seq<Value>)
    requires forall i | 0 <= i < |ks| :: HasKey(es, ks[i])
    ensures HasKey(Put(es, k, v), k)
    ensures forall i | 0 <= i < |ks| :: HasKey(Put(es, k, v), ks[i])
  {
    PutGetSame(es, k, v);
    forall i | 0 <= i < |ks|
      ensures HasKey(Put(es, k, v), ks[i])
    {
      if ks[i] != k {
        PutGetOther(es, k, v, ks[i]);
      }
    }
  }

  /** After `hash[k] = v` the keys are the old ones and `k`. */
  lemma PutHasKey(es: seq<Pair>, k: Value, v: Value, k': Value)
    ensures HasKey(Put(es, k, v), k') <==> k' == k || HasKey(es, k')
  {
    PutGetSame(es, k, v);
    if k' != k {
      PutGetOther(es, k, v, k');
    }
  }

  lemma PutKeepsUnique(es: seq<Pair>, k: Value, v: Value)
    requires UniqueKeys(es)
    ensures UniqueKeys(Put(es, k, v))
  {
    FindSpec(es, k);
    var r := Put(es, k, v);
    forall i, j | 0 <= i < j < |r|
      ensures KeyAt(r, i) != KeyAt(r, j)
    {
      if j < |es| {
        assert KeyAt(es, i) != KeyAt(es, j);
      }
    }
  }

  lemma DeleteGet(es: seq<Pair>, k: Value, k': Value)
    ensures Get(Delete(es, k), k) == None
    ensures k' != k ==> Get(Delete(es, k), k') == Get(es, k')
  {
    FindSpec(Delete(es, k), k);
    if k' != k {
      DeleteGetOther(es, k, k');
    }
  }

  lemma {:induction false} DeleteGetOther(es: seq<Pair>, k: Value, k': Value)
    requires k' != k
    ensures Get(Delete(es, k), k') == Get(es, k')
    decreases |es|
  {
    if |es| > 0 {
      DeleteGetOther(es[1..], k, k');
      if es[0].key != k' {
        GetTail(es, k');
        if es[0].key != k {
          var d := [es[0]] + Delete(es[1..], k);
          assert d[1..] == Delete(es[1..], k);
          GetTail(d, k');
        }
      }
    }
  }

  /** An entry for another key in front does not change what `hash[k]` finds. */
  lemma GetTail(es: seq<Pair>, k: Value)
    requires |es| > 0 && es[0].key != k
    ensures Get(es, k) == Get(es[1..], k)
  {
    match Find(es[1..], k)
      case None =>
      case Some(j) => assert es[j + 1] == es[1..][j];
  }

  /** The provisioner's `empty?`: nil is empty, booleans and numbers never are, an array is empty when all its elements are. */
  predicate IsEmpty(v: Value)
    decreases v
  {
    match v
      case Nil => true
      case Bool(_) => false
      case Int(_) => false
      case Str(s) => s == ""
      case Sym(n) => n == ""
      case Hash(es) => es == []
      case Arr(xs) => forall i | 0 <= i < |xs| :: IsEmpty(xs[i])
  }

  /** Ruby truthiness: only nil and false are untrue. */
  predicate Truthy(v: Value) { v != Nil && v != Bool(false) }

  function BoolText(b: bool): string { if b then "true" else "false" }

  /** `inspect`, without the escaping of special characters inside strings. */
  function Inspect(v: Value): string
    decreases v
  {
    match v
      case Nil => "nil"
      case Bool(b) => BoolText(b)
      case Int(i) => IntToString(i)
      case Str(s) => "\"" + s + "\""
      case Sym(n) => ":" + n
      case Arr(xs) => "[" + InspectItems(xs, 0) + "]"
      case Hash(es) => "{" + InspectEntries(es, 0) + "}"
  }

  function InspectItems(xs: seq<Value>, i: nat): string
    requires i <= |xs|
    decreases Value.Arr(xs), |xs| - i
  {
    if i == |xs| then ""
    else if i + 1 == |xs| then Inspect(xs[i])
    else Inspect(xs[i]) + ", " + InspectItems(xs, i + 1)
  }

  function InspectEntries(es: seq<Pair>, i: nat): string
    requires i <= |es|
    decreases Value.Hash(es), |es| - i
  {
    if i == |es| then ""
    else
      var e := Inspect(es[i].key) + "=>" + Inspect(es[i].val);
      if i + 1 == |es| then e else e + ", " + InspectEntries(es, i + 1)
  }

  /** `to_s`: nil prints as nothing, strings and symbols as their text, containers as their inspection. */
  function ToS(v: Value): (s: string)
    ensures v.Str? ==> s == v.s
    ensures v.Nil? ==> s == ""
  {
    match v
      case Nil => ""
      case Bool(b) => BoolText(b)
      case Int(i) => IntToString(i)
      case Str(s) => s
      case Sym(n) => n
      case _ => Inspect(v)
  }

  /** Is the value a member of the array (`Array#include?`)? */
  predicate Includes(xs: seq<Value>, v: Value) { v in xs }

  function Strs(ss: seq<string>): (r: seq<Value>)
    ensures |r| == |ss|
    ensures forall i | 0 <= i < |ss| :: r[i] == Str(ss[i])
  {
    if |ss| == 0 then [] else [Str(ss[0])] + Strs(ss[1..])
  }
}
