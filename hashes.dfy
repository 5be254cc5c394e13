/**
 * The provisioner's extensions of Ruby's Hash (`deep_merge`, `except`, `except!`,
 * `recursive_set!`) and the path lookup `Tools.recursive_get` with its '*' wildcard.
 */
module Hashes {
  import opened Values
  import opened Outcome
  import opened Ordering

  // ----- deep_merge -----

  /** `a.deep_merge(b)`: `b`'s entries merged into `a`, recursively where both sides hold hashes. */
  function DeepMerge(a: seq<Pair>, b: seq<Pair>): seq<Pair>
    decreases Value.Hash(b), 1, 0
  {
    MergeFrom(a, b, 0)
  }

  function MergeFrom(acc: seq<Pair>, b: seq<Pair>, i: nat): seq<Pair>
    requires i <= |b|
    decreases Value.Hash(b), 0, |b| - i
  {
    if i == |b| then acc
    else
      var k := b[i].key;
      MergeFrom(Put(acc, k, Merger(Get(acc, k), b[i].val)), b, i + 1)
  }

  /** The block given to `merge`: two hashes merge deeply, otherwise the second value wins. */
  function Merger(first: Option<Value>, second: Value): Value
    decreases second, 2, 0
  {
    if first.Some? && first.value.Hash? && second.Hash?
    then Hash(DeepMerge(first.value.entries, second.entries))
    else second
  }

  lemma {:induction false} MergeFromGet(acc: seq<Pair>, b: seq<Pair>, i: nat, k: Value)
    requires i <= |b| && UniqueKeys(b)
    ensures Get(MergeFrom(acc, b, i), k) == match Get(b[i..], k)
      case None => Get(acc, k)
      case Some(v) => Some(Merger(Get(acc, k), v))
    decreases |b| - i
  {
    if i < |b| {
      var kk := b[i].key;
      var acc' := Put(acc, kk, Merger(Get(acc, kk), b[i].val));
      MergeFromGet(acc', b, i + 1, k);
      assert b[i..][1..] == b[i + 1..];
      if k == kk {
        PutGetSame(acc, kk, Merger(Get(acc, kk), b[i].val));
        var tail := b[i + 1..];
        forall j | 0 <= j < |tail|
          ensures tail[j].key != k
        {
          assert tail[j] == b[i + 1 + j];
          assert KeyAt(b, i) != KeyAt(b, i + 1 + j);
        }
        FindSpec(tail, k);
        assert Get(b[i + 1..], k).None?;
        assert Get(b[i..], k) == Some(b[i].val) by { assert b[i..][0] == b[i]; }
      } else {
        PutGetOther(acc, kk, Merger(Get(acc, kk), b[i].val), k);
        assert b[i..][0].key != k;
      }
    } else {
      assert b[i..] == [];
    }
  }

  /**
   * Every key of either side is kept. A key only in `a` keeps its value; a key in `b` takes
   * `b`'s value, merged deeply with `a`'s when both are hashes.
   */
  lemma DeepMergeGet(a: seq<Pair>, b: seq<Pair>, k: Value)
    requires UniqueKeys(b)
    ensures Get(DeepMerge(a, b), k) == match Get(b, k)
      case None => Get(a, k)
      case Some(v) => Some(Merger(Get(a, k), v))
    ensures HasKey(DeepMerge(a, b), k) <==> HasKey(a, k) || HasKey(b, k)
  {
    MergeFromGet(a, b, 0, k);
    assert b[0..] == b;
  }

  lemma {:induction false} MergeFromUnique(acc: seq<Pair>, b: seq<Pair>, i: nat)
    requires i <= |b| && UniqueKeys(acc)
    ensures UniqueKeys(MergeFrom(acc, b, i))
    decreases |b| - i
  {
    if i < |b| {
      var k := b[i].key;
      PutKeepsUnique(acc, k, Merger(Get(acc, k), b[i].val));
      MergeFromUnique(Put(acc, k, Merger(Get(acc, k), b[i].val)), b, i + 1);
    }
  }

  // ----- except / except! -----

  /** The entries left once every listed key is deleted, in order. */
  function ExceptAll(es: seq<Pair>, keys: seq<Value>): (r: seq<Pair>)
    ensures forall i | 0 <= i < |r| :: r[i] in es
    decreases |keys|
  {
    if |keys| == 0 then es else ExceptAll(Delete(es, keys[0]), keys[1..])
  }

  /** Exactly the listed keys disappear; every other key keeps its value. */
  lemma {:induction false} ExceptAllGet(es: seq<Pair>, keys: seq<Value>, k: Value)
    ensures Get(ExceptAll(es, keys), k) == if k in keys then None else Get(es, k)
    decreases |keys|
  {
    if |keys| > 0 {
      ExceptAllGet(Delete(es, keys[0]), keys[1..], k);
      DeleteGet(es, keys[0], k);
      assert keys == [keys[0]] + keys[1..];
      if k == keys[0] && k in keys[1..] {
        ExceptAllGet(Delete(es, keys[0]), keys[1..], k);
      }
    }
  }

  lemma {:induction false} ExceptAllSnoc(es: seq<Pair>, keys: seq<Value>, k: Value)
    ensures ExceptAll(es, keys + [k]) == Delete(ExceptAll(es, keys), k)
    decreases |keys|
  {
    if |keys| > 0 {
      assert (keys + [k])[1..] == keys[1..] + [k];
      ExceptAllSnoc(Delete(es, keys[0]), keys[1..], k);
    } else {
      assert ([] + [k])[1..] == [];
    }
  }

  // ----- recursive_set! -----

  /**
   * `recursive_set!(keys, value)`: take the first key off; while the keys left are not
   * `empty?` walk down into the hash under it, otherwise store the value under it. `empty?` is
   * the provisioner's override for arrays, true when every element is empty (nil, '', [], {}),
   * so trailing empty keys are dropped. An empty key list stores the value under nil; a step
   * onto anything but a hash raises.
   */
  function RecursiveSet(es: seq<Pair>, keys: seq<Value>, value: Value): (r: Result<seq<Pair>>)
    decreases |keys|
  {
    if |keys| == 0 then Ok(Put(es, Nil, value))
    else if IsEmpty(Arr(keys[1..])) then Ok(Put(es, keys[0], value))
    else
      var sub := At(es, keys[0]);
      if !sub.Hash? then Err(NoMethod("recursive_set!"))
      else
        var inner :- RecursiveSet(sub.entries, keys[1..], value);
        Ok(Put(es, keys[0], Hash(inner)))
  }

  /** Keys other than the first one of the path are untouched. */
  lemma RecursiveSetOthers(es: seq<Pair>, keys: seq<Value>, value: Value, k: Value)
    requires |keys| > 0 && k != keys[0]
    requires RecursiveSet(es, keys, value).Ok?
    ensures Get(RecursiveSet(es, keys, value).value, k) == Get(es, k)
  {
    if IsEmpty(Arr(keys[1..])) {
      PutGetOther(es, keys[0], value, k);
    } else {
      var inner := RecursiveSet(At(es, keys[0]).entries, keys[1..], value).value;
      PutGetOther(es, keys[0], Hash(inner), k);
    }
  }

  // ----- recursive_get -----

  function Last(keys: seq<Value>): Value
  {
    if |keys| == 0 then Nil else keys[|keys| - 1]
  }

  const Star: Value := Str("*")

  /**
   * `Tools.recursive_get(hash, keys)`: follow the keys, yielding nil at a missing key or a nil
   * step; stop as soon as a key equal to the last key has been followed; at '*', take the first
   * sibling under which the remaining keys resolve to a non-nil value.
   */
  function PathValue(hash: Value, keys: seq<Value>): Result<Value>
    decreases |keys|, 2, 0
  {
    Walk(hash, keys, Last(keys))
  }

  function Walk(here: Value, ks: seq<Value>, last: Value): Result<Value>
    decreases |ks|, 1, 0
  {
    if |ks| == 0 then Ok(Nil)
    else if ks[0] == Star then (if here.Hash? then FirstResolved(here.entries, 0, ks[1..]) else Ok(Nil))
    else if here.Nil? then Ok(Nil)
    else if !here.Hash? then Err(NoMethod("has_key?"))
    else if !HasKey(here.entries, ks[0]) then Ok(Nil)
    else if ks[0] == last then Ok(At(here.entries, ks[0]))
    else Walk(At(here.entries, ks[0]), ks[1..], last)
  }

  function FirstResolved(es: seq<Pair>, j: nat, rest: seq<Value>): Result<Value>
    requires j <= |es|
    decreases |rest| + 1, 0, |es| - j
  {
    if j == |es| then Ok(Nil)
    else
      var r :- PathValue(es[j].val, rest);
      if r != Nil then Ok(r) else FirstResolved(es, j + 1, rest)
  }

  /** '*' yields the value found under the first sibling that resolves, and only those before it were tried. */
  lemma {:induction false} FirstResolvedFinds(es: seq<Pair>, j: nat, rest: seq<Value>)
    requires j <= |es|
    ensures var r := FirstResolved(es, j, rest);
      r.Ok? && r.value != Nil ==>
        exists m | j <= m < |es| :: PathValue(es[m].val, rest) == r
          && forall i | j <= i < m :: PathValue(es[i].val, rest) == Ok(Nil)
    ensures FirstResolved(es, j, rest) == Ok(Nil) <==> forall i | j <= i < |es| :: PathValue(es[i].val, rest) == Ok(Nil)
    decreases |es| - j
  {
    if j < |es| {
      FirstResolvedFinds(es, j + 1, rest);
      var r := PathValue(es[j].val, rest);
      if r.Ok? && r.value == Nil {
        var f := FirstResolved(es, j + 1, rest);
        if f.Ok? && f.value != Nil {
          var m :| j + 1 <= m < |es| && PathValue(es[m].val, rest) == f
            && forall i | j + 1 <= i < m :: PathValue(es[i].val, rest) == Ok(Nil);
          assert forall i | j <= i < m :: PathValue(es[i].val, rest) == Ok(Nil);
        }
      }
    }
  }

  lemma {:induction false} WildcardNoRest(es: seq<Pair>, j: nat)
    requires j <= |es|
    ensures FirstResolved(es, j, []) == Ok(Nil)
    decreases |es| - j
  {
    if j < |es| {
      WildcardNoRest(es, j + 1);
    }
  }

  /** A '*' as the last key never finds anything: nothing is left to resolve under the siblings. */
  lemma {:induction false} TrailingWildcardYieldsNil(here: Value, ks: seq<Value>)
    requires |ks| > 0 && ks[|ks| - 1] == Star
    requires forall j | 0 <= j < |ks| - 1 :: ks[j] != Star
    ensures Walk(here, ks, Star).Ok? ==> Walk(here, ks, Star).value == Nil
    decreases |ks|
  {
    if |ks| == 1 {
      if here.Hash? {
        WildcardNoRest(here.entries, 0);
      }
    } else if here.Hash? && HasKey(here.entries, ks[0]) {
      TrailingWildcardYieldsNil(At(here.entries, ks[0]), ks[1..]);
    }
  }

  /** The walk stops at the first key equal to the last one, whatever follows it. */
  lemma StopsAtLastKey(es: seq<Pair>, k: Value, middle: seq<Value>)
    requires k != Star && HasKey(es, k)
    ensures PathValue(Hash(es), [k] + middle + [k]) == Ok(At(es, k))
  {
    var ks := [k] + middle + [k];
    assert ks[0] == k && Last(ks) == k;
  }

  /**
   * What `recursive_set!` stores along a path, `recursive_get` finds along the same path, as
   * long as the path ends in a key that is not empty.
   */
  lemma {:induction false} SetThenGet(es: seq<Pair>, keys: seq<Value>, value: Value)
    requires |keys| > 0
    requires |keys| == 1 || !IsEmpty(Last(keys))
    requires forall j | 0 <= j < |keys| :: keys[j] != Star
    requires forall j | 0 <= j < |keys| - 1 :: keys[j] != Last(keys)
    requires RecursiveSet(es, keys, value).Ok?
    ensures PathValue(Hash(RecursiveSet(es, keys, value).value), keys) == Ok(value)
  {
    SetThenWalk(es, keys, value, Last(keys));
  }

  lemma {:induction false} SetThenWalk(es: seq<Pair>, ks: seq<Value>, value: Value, last: Value)
    requires |ks| > 0 && ks[|ks| - 1] == last
    requires |ks| == 1 || !IsEmpty(last)
    requires forall j | 0 <= j < |ks| :: ks[j] != Star
    requires forall j | 0 <= j < |ks| - 1 :: ks[j] != last
    requires RecursiveSet(es, ks, value).Ok?
    ensures Walk(Hash(RecursiveSet(es, ks, value).value), ks, last) == Ok(value)
    decreases |ks|
  {
    var k := ks[0];
    if |ks| == 1 {
      PutGetSame(es, k, value);
    } else {
      assert !IsEmpty(Arr(ks[1..])) by { assert ks[1..][|ks| - 2] == last; }
      var sub := At(es, k).entries;
      var inner := RecursiveSet(sub, ks[1..], value).value;
      PutGetSame(es, k, Hash(inner));
      SetThenWalk(sub, ks[1..], value, last);
    }
  }

  /** Empty keys at the end of the path are dropped: the value lands where the path without them leads. */
  lemma {:induction false} EmptyTailDropped(es: seq<Pair>, keys: seq<Value>, tail: seq<Value>, value: Value)
    requires |keys| > 0 && IsEmpty(Arr(tail))
    ensures RecursiveSet(es, keys + tail, value) == RecursiveSet(es, keys, value)
    decreases |keys|
  {
    var ks := keys + tail;
    assert ks[0] == keys[0] && ks[1..] == keys[1..] + tail;
    assert IsEmpty(Arr(ks[1..])) <==> IsEmpty(Arr(keys[1..])) by {
      if IsEmpty(Arr(keys[1..])) {
        forall j | 0 <= j < |ks[1..]| ensures IsEmpty(ks[1..][j]) {
          if j >= |keys[1..]| { assert ks[1..][j] == tail[j - |keys[1..]|]; }
          else { assert ks[1..][j] == keys[1..][j]; }
        }
      }
      if IsEmpty(Arr(ks[1..])) {
        forall j | 0 <= j < |keys[1..]| ensures IsEmpty(keys[1..][j]) {
          assert ks[1..][j] == keys[1..][j];
        }
      }
    }
    if !IsEmpty(Arr(keys[1..])) {
      var sub := At(es, keys[0]);
      if sub.Hash? {
        EmptyTailDropped(sub.entries, keys[1..], tail, value);
      }
    }
  }

  /** So `['a', '']` stores under 'a', and looking the same path up again steps into the value and fails. */
  lemma EmptyLastKeyMissesRoundTrip()
    ensures RecursiveSet([], [Str("a"), Str("")], Int(1)) == Ok([Pair(Str("a"), Int(1))])
    ensures PathValue(Hash([Pair(Str("a"), Int(1))]), [Str("a"), Str("")]) == Err(NoMethod("has_key?"))
  {
    var ks := [Str("a"), Str("")];
    assert ks[1..] == [Str("")];
    assert IsEmpty(Arr([Str("")])) by { assert forall j | 0 <= j < 1 :: [Str("")][j] == Str(""); }
    assert Find([], Str("a")) == None;
    assert [] + [Pair(Str("a"), Int(1))] == [Pair(Str("a"), Int(1))];
  }

  /** `Tools.recursive_get`, with the loop of the original over the keys. */
  method RecursiveGet(hash: Value, keys: seq<Value>) returns (r: Result<Value>)
    ensures r == PathValue(hash, keys)
    decreases |keys|
  {
    var last := Last(keys);
    var here := hash;
    var index := 0;
    while index < |keys|
      invariant 0 <= index <= |keys|
      invariant PathValue(hash, keys) == Walk(here, keys[index..], last)
      decreases |keys| - index
    {
      var key := keys[index];
      assert keys[index..][0] == key && keys[index..][1..] == keys[index + 1..];
      if key == Star {
        if !here.Hash? {
          return Ok(Nil);
        }
        var es := here.entries;
        var rest := keys[index + 1..];
        var j := 0;
        while j < |es|
          invariant 0 <= j <= |es|
          invariant PathValue(hash, keys) == FirstResolved(es, j, rest)
          decreases |es| - j
        {
          var sub := RecursiveGet(es[j].val, rest);
          if sub.Err? || sub.value != Nil {
            return sub;
          }
          j := j + 1;
        }
        return Ok(Nil);
      } else if here.Nil? {
        return Ok(Nil);
      } else if !here.Hash? {
        return Err(NoMethod("has_key?"));
      } else if !HasKey(here.entries, key) {
        return Ok(Nil);
      }
      here := At(here.entries, key);
      if key == last {
        return Ok(here);
      }
      index := index + 1;
    }
    return Ok(Nil);
  }

  // ----- Hashes updated in place -----

  /** A Ruby Hash object whose entries the extension methods change in place. */
  class MutableHash {
    var entries: seq<Pair>

    constructor (es: seq<Pair>)
      ensures entries == es
    {
      entries := es;
    }

    /** `except!(*keys)`: delete each key in turn and return the receiver itself. */
    method ExceptBang(keys: seq<Value>) returns (self: MutableHash)
      modifies this
      ensures self == this
      ensures entries == ExceptAll(old(entries), keys)
    {
      var i := 0;
      while i < |keys|
        invariant 0 <= i <= |keys|
        invariant ExceptAll(entries, keys[i..]) == ExceptAll(old(entries), keys)
      {
        assert keys[i..][0] == keys[i] && keys[i..][1..] == keys[i + 1..];
        entries := Delete(entries, keys[i]);
        i := i + 1;
      }
      assert keys[i..] == [];
      self := this;
    }

    /** `except(*keys)`: the same deletions on a copy; the receiver is left as it was. */
    method Except(keys: seq<Value>) returns (h: MutableHash)
      ensures fresh(h)
      ensures h.entries == ExceptAll(entries, keys)
    {
      h := new MutableHash(entries);
      var _ := h.ExceptBang(keys);
    }

    /**
     * `recursive_set!(keys, value)`. Nested hashes are values in this model, so the updated
     * child is written back under its key.
     */
    method RecursiveSetBang(keys: seq<Value>, value: Value) returns (r: Result<bool>)
      modifies this
      ensures RecursiveSet(old(entries), keys, value).Ok? ==>
        r == Ok(true) && entries == RecursiveSet(old(entries), keys, value).value
      ensures RecursiveSet(old(entries), keys, value).Err? ==>
        r == Err(RecursiveSet(old(entries), keys, value).error) && entries == old(entries)
      decreases |keys|
    {
      if |keys| == 0 {
        entries := Put(entries, Nil, value);
        return Ok(true);
      }
      var key := keys[0];
      if IsEmpty(Arr(keys[1..])) {
        entries := Put(entries, key, value);
        return Ok(true);
      }
      var sub := At(entries, key);
      if !sub.Hash? {
        return Err(NoMethod("recursive_set!"));
      }
      var child := new MutableHash(sub.entries);
      var inner := child.RecursiveSetBang(keys[1..], value);
      if inner.Err? {
        return inner;
      }
      entries := Put(entries, key, Hash(child.entries));
      r := Ok(true);
    }

    /** The keys in the order `keys.sort` gives them: Ruby raises when two keys cannot be compared. */
    predicate KeysSortable()
      reads this
    {
      PairwiseComparable(entries)
    }

    /**
     * `item.keys.sort.each { |k| item[k] = item.delete k }`: every key is deleted and
     * re-inserted at the end, in sorted order, so the hash ends up ordered by key.
     */
    method SortKeys()
      requires KeysSortable()
      modifies this
      ensures entries == SortByKey(old(entries))
      ensures SortedByKey(entries) && multiset(entries) == multiset(old(entries))
    {
      var original := entries;
      var sorted := SortByKey(original);
      SortByKeySorted(original);
      var i := 0;
      while i < |sorted|
        invariant 0 <= i <= |sorted|
        invariant entries == ExceptAll(original, Keys(sorted[..i])) + sorted[..i]
      {
        var k := sorted[i].key;
        SortStep(original, sorted, i);
        var v := At(entries, k);
        entries := Delete(entries, k) + [Pair(k, v)];
        i := i + 1;
      }
      SortedCoversAll(original, sorted);
      assert sorted[..i] == sorted;
    }
  }

  /** The keys of two distinct entries of a hash with unique keys differ. */
  lemma UniqueEntry(es: seq<Pair>, p: Pair)
    requires UniqueKeys(es) && p in es
    ensures Get(es, p.key) == Some(p.val)
  {
    var i :| 0 <= i < |es| && es[i] == p;
    forall j | 0 <= j < i
      ensures es[j].key != p.key
    {
      assert KeyAt(es, j) != KeyAt(es, i);
    }
    FindAt(es, p.key, i);
  }

  lemma {:induction false} DeleteAbsent(es: seq<Pair>, k: Value)
    requires forall i | 0 <= i < |es| :: es[i].key != k
    ensures Delete(es, k) == es
    decreases |es|
  {
    if |es| > 0 {
      DeleteAbsent(es[1..], k);
    }
  }

  lemma {:induction false} DeleteAppend(a: seq<Pair>, b: seq<Pair>, k: Value)
    ensures Delete(a + b, k) == Delete(a, k) + Delete(b, k)
    decreases |a|
  {
    if |a| > 0 {
      assert (a + b)[1..] == a[1..] + b;
      DeleteAppend(a[1..], b, k);
    } else {
      assert a + b == b;
    }
  }

  lemma GetAppendLeft(a: seq<Pair>, b: seq<Pair>, k: Value)
    requires HasKey(a, k)
    ensures Get(a + b, k) == Get(a, k)
  {
    FindSpec(a, k);
    var i := Find(a, k).value;
    FindAt(a + b, k, i);
  }

  lemma UniqueFromComparable(es: seq<Pair>)
    requires PairwiseComparable(es)
    ensures UniqueKeys(es)
  {
  }

  /** A key of the sorted list comes after every key before it, so differs from them. */
  lemma KeyNotInPrefix(sorted: seq<Pair>, i: nat)
    requires SortedByKey(sorted) && i < |sorted|
    ensures forall j | 0 <= j < i :: sorted[j].key != sorted[i].key
    ensures sorted[i].key !in Keys(sorted[..i])
  {
    var k := sorted[i].key;
    forall j | 0 <= j < i
      ensures sorted[j].key != k
    {
      KeyLessStrict(sorted[j].key, k, k);
    }
    var ks := Keys(sorted[..i]);
    assert forall j | 0 <= j < |ks| :: ks[j] == sorted[j].key;
  }

  /** The entry being moved still holds its original value. */
  lemma SortStepValue(original: seq<Pair>, sorted: seq<Pair>, i: nat)
    requires PairwiseComparable(original)
    requires sorted == SortByKey(original) && SortedByKey(sorted)
    requires i < |sorted|
    ensures At(ExceptAll(original, Keys(sorted[..i])) + sorted[..i], sorted[i].key) == sorted[i].val
  {
    var k := sorted[i].key;
    var rest := ExceptAll(original, Keys(sorted[..i]));
    UniqueFromComparable(original);
    assert sorted[i] in multiset(sorted);
    UniqueEntry(original, sorted[i]);
    KeyNotInPrefix(sorted, i);
    ExceptAllGet(original, Keys(sorted[..i]), k);
    GetAppendLeft(rest, sorted[..i], k);
  }

  /** One step of the re-insertion loop of `SortKeys`. */
  lemma SortStep(original: seq<Pair>, sorted: seq<Pair>, i: nat)
    requires PairwiseComparable(original)
    requires sorted == SortByKey(original) && SortedByKey(sorted)
    requires i < |sorted|
    ensures var k := sorted[i].key;
      var cur := ExceptAll(original, Keys(sorted[..i])) + sorted[..i];
      At(cur, k) == sorted[i].val
      && Delete(cur, k) + [Pair(k, sorted[i].val)] == ExceptAll(original, Keys(sorted[..i + 1])) + sorted[..i + 1]
  {
    SortStepValue(original, sorted, i);
    KeyNotInPrefix(sorted, i);
    MoveToEndAt(original, sorted, i);
  }

  /** `MoveToEnd` for the entry at position `i`, moved after the entries before it. */
  lemma MoveToEndAt(original: seq<Pair>, sorted: seq<Pair>, i: nat)
    requires i < |sorted| && forall j | 0 <= j < i :: sorted[j].key != sorted[i].key
    ensures Delete(ExceptAll(original, Keys(sorted[..i])) + sorted[..i], sorted[i].key) + [Pair(sorted[i].key, sorted[i].val)]
      == ExceptAll(original, Keys(sorted[..i + 1])) + sorted[..i + 1]
  {
    var pre, p := sorted[..i], sorted[i];
    assert p == Pair(p.key, p.val);
    assert sorted[..i + 1] == pre + [p];
    MoveToEnd(original, pre, p);
  }

  /** Deleting a key absent from the moved prefix and appending its entry extends the prefix. */
  lemma MoveToEnd(original: seq<Pair>, prefix: seq<Pair>, p: Pair)
    requires forall j | 0 <= j < |prefix| :: prefix[j].key != p.key
    ensures Delete(ExceptAll(original, Keys(prefix)) + prefix, p.key) + [p]
      == ExceptAll(original, Keys(prefix + [p])) + (prefix + [p])
  {
    var rest := ExceptAll(original, Keys(prefix));
    DeleteAppend(rest, prefix, p.key);
    DeleteAbsent(prefix, p.key);
    KeysSnoc(prefix, p);
    ExceptAllSnoc(original, Keys(prefix), p.key);
  }

  lemma {:induction false} KeysSnoc(es: seq<Pair>, p: Pair)
    ensures Keys(es + [p]) == Keys(es) + [p.key]
  {
    var a := Keys(es + [p]);
    var b := Keys(es) + [p.key];
    assert |a| == |b|;
    forall j | 0 <= j < |a|
      ensures a[j] == b[j]
    {
      assert (es + [p])[j].key == a[j];
    }
  }

  /** Once every sorted key is deleted nothing of the original is left. */
  lemma SortedCoversAll(original: seq<Pair>, sorted: seq<Pair>)
    requires PairwiseComparable(original)
    requires sorted == SortByKey(original)
    ensures ExceptAll(original, Keys(sorted)) == []
  {
    var rest := ExceptAll(original, Keys(sorted));
    if |rest| > 0 {
      var p := rest[0];
      assert p in original;
      assert p in multiset(sorted);
      var i :| 0 <= i < |sorted| && sorted[i] == p;
      assert Keys(sorted)[i] == p.key;
      ExceptAllGet(original, Keys(sorted), p.key);
      assert false;
    }
  }
}
