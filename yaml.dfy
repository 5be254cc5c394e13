/**
 * `Tools.format_yaml(item, depth)`: the text Hiera files are written with. Scalars follow the
 * key after a space, arrays become `- ` lines, hashes become `key:` lines in sorted key order
 * (the hash is re-ordered in place first), and any other value gives nil.
 */
module Yaml {
  import opened Strings
  import opened Values
  import opened Outcome
  import opened Ordering
  import opened Hashes

  /** `YAML_TAB * depth`, with YAML_TAB two spaces. */
  function Indent(depth: nat): (s: string)
    ensures |s| == 2 * depth
    ensures forall i | 0 <= i < |s| :: s[i] == ' '
  {
    if depth == 0 then "" else "  " + Indent(depth - 1)
  }

  /** `Array#join(sep)`: elements by `to_s`, nested arrays joined with the same separator. */
  function JoinValues(xs: seq<Value>, sep: string): string
    decreases Value.Arr(xs), 1
  {
    Join(JoinParts(xs, 0, sep), sep)
  }

  function JoinParts(xs: seq<Value>, i: nat, sep: string): (ps: seq<string>)
    requires i <= |xs|
    ensures |ps| == |xs| - i
    decreases Value.Arr(xs), 0, |xs| - i
  {
    if i == |xs| then []
    else
      var p := match xs[i]
        case Arr(ys) => JoinValues(ys, sep)
        case _ => ToS(xs[i]);
      [p] + JoinParts(xs, i + 1, sep)
  }

  /** The separator of the array lines at one depth. */
  function ItemSep(depth: nat): string
  {
    "\n" + Indent(depth) + "- "
  }

  function OrEmpty(t: Option<string>): string
  {
    if t.Some? then t.value else ""
  }

  /** `format_yaml(item, depth)`: nil (`None`) for anything but strings, integers, arrays and hashes. */
  function FormatYaml(v: Value, depth: nat): Result<Option<string>>
    decreases v, 1
  {
    match v
      case Str(_) => Ok(Some(" " + ToS(v)))
      case Int(_) => Ok(Some(" " + ToS(v)))
      case Arr(xs) => Ok(Some(if |xs| > 0 then ItemSep(depth) + JoinValues(xs, ItemSep(depth)) else ""))
      case Hash(es) =>
        if !PairwiseComparable(es) then Err(ArgumentErr("comparison of keys failed"))
        else
          var t :- EntriesText(es, SortByKey(es), 0, depth);
          Ok(Some(t))
      case _ => Ok(None)
  }

  /** One `\n<indent><key>:<value>` line per entry of `sorted`, whose entries are those of `es`. */
  function EntriesText(es: seq<Pair>, sorted: seq<Pair>, i: nat, depth: nat): Result<string>
    requires i <= |sorted|
    requires multiset(sorted) == multiset(es)
    decreases Value.Hash(es), 0, |sorted| - i
  {
    if i == |sorted| then Ok("")
    else
      assert sorted[i] in multiset(es);
      var t :- FormatYaml(sorted[i].val, depth + 1);
      var rest :- EntriesText(es, sorted, i + 1, depth);
      Ok(EntryLine(sorted[i].key, t, depth) + rest)
  }

  function EntryLine(key: Value, t: Option<string>, depth: nat): string
  {
    "\n" + Indent(depth) + ToS(key) + ":" + OrEmpty(t)
  }

  /** Scalars follow the key after one space. */
  lemma ScalarsAfterSpace(v: Value, depth: nat)
    requires v.Str? || v.Int?
    ensures FormatYaml(v, depth) == Ok(Some(" " + ToS(v)))
  {
  }

  /** An empty array gives an empty text; otherwise each element is on its own `- ` line. */
  lemma ArrayLines(xs: seq<Value>, depth: nat)
    ensures |xs| == 0 ==> FormatYaml(Arr(xs), depth) == Ok(Some(""))
    ensures |xs| > 0 ==> (FormatYaml(Arr(xs), depth).Ok? &&
      var t := FormatYaml(Arr(xs), depth).value.value;
      |t| >= 2 * depth + 3 && t[..2 * depth + 3] == ItemSep(depth))
  {
  }

  /** nil, booleans and symbols have no YAML text. */
  lemma NoTextForOthers(v: Value, depth: nat)
    requires v.Nil? || v.Bool? || v.Sym?
    ensures FormatYaml(v, depth) == Ok(None)
  {
  }

  /** A hash whose keys `sort` cannot compare raises. */
  lemma IncomparableKeysRaise(es: seq<Pair>, depth: nat)
    requires !PairwiseComparable(es)
    ensures FormatYaml(Hash(es), depth).Err?
  {
  }

  /** Two key-sorted lists of the same entries are the same list. */
  lemma {:induction false} SortedPermutationUnique(a: seq<Pair>, b: seq<Pair>)
    requires SortedByKey(a) && SortedByKey(b)
    requires multiset(a) == multiset(b)
    ensures a == b
    decreases |a|
  {
    assert |a| == |multiset(a)| == |multiset(b)| == |b|;
    if |a| > 0 {
      SortedHeads(a, b);
      SortedTail(a);
      SortedTail(b);
      TailMultiset(a, b);
      SortedPermutationUnique(a[1..], b[1..]);
      assert a == [a[0]] + a[1..] && b == [b[0]] + b[1..];
    }
  }

  lemma TailMultiset(a: seq<Pair>, b: seq<Pair>)
    requires |a| > 0 && |b| > 0 && a[0] == b[0] && multiset(a) == multiset(b)
    ensures multiset(a[1..]) == multiset(b[1..])
  {
    assert a == [a[0]] + a[1..] && b == [b[0]] + b[1..];
    assert multiset(a[1..]) == multiset(a) - multiset{a[0]};
    assert multiset(b[1..]) == multiset(b) - multiset{b[0]};
  }

  /** The least entry comes first in both. */
  lemma SortedHeads(a: seq<Pair>, b: seq<Pair>)
    requires SortedByKey(a) && SortedByKey(b)
    requires multiset(a) == multiset(b) && |a| > 0 && |b| > 0
    ensures a[0] == b[0]
  {
    assert a[0] in multiset(b);
    var j :| 0 <= j < |b| && b[j] == a[0];
    assert b[0] in multiset(a);
    var i :| 0 <= i < |a| && a[i] == b[0];
    if j > 0 {
      if i > 0 {
        KeyLessStrict(a[0].key, a[i].key, a[0].key);
      } else {
        KeyLessStrict(b[0].key, b[0].key, b[0].key);
      }
      assert false;
    }
  }

  lemma SortedTail(a: seq<Pair>)
    requires SortedByKey(a) && |a| > 0
    ensures SortedByKey(a[1..])
  {
    var t := a[1..];
    forall i, j | 0 <= i < j < |t|
      ensures KeyLess(t[i].key, t[j].key)
    {
      assert t[i] == a[i + 1] && t[j] == a[j + 1];
    }
  }

  lemma {:induction false} EntriesTextSameList(es1: seq<Pair>, es2: seq<Pair>, sorted: seq<Pair>, i: nat, depth: nat)
    requires i <= |sorted|
    requires multiset(sorted) == multiset(es1) && multiset(sorted) == multiset(es2)
    ensures EntriesText(es1, sorted, i, depth) == EntriesText(es2, sorted, i, depth)
    decreases |sorted| - i
  {
    if i < |sorted| {
      EntriesTextSameList(es1, es2, sorted, i + 1, depth);
    }
  }

  /**
   * The text of a hash does not depend on the order its entries were inserted in: keys are
   * sorted before anything is written.
   */
  lemma HashTextIgnoresInsertionOrder(es1: seq<Pair>, es2: seq<Pair>, depth: nat)
    requires PairwiseComparable(es1) && PairwiseComparable(es2)
    requires multiset(es1) == multiset(es2)
    ensures FormatYaml(Hash(es1), depth) == FormatYaml(Hash(es2), depth)
  {
    var s1, s2 := SortByKey(es1), SortByKey(es2);
    SortByKeySorted(es1);
    SortByKeySorted(es2);
    SortedPermutationUnique(s1, s2);
    EntriesTextSameList(es1, es2, s1, 0, depth);
    HashText(es1, depth);
    HashText(es2, depth);
  }

  lemma HashText(es: seq<Pair>, depth: nat)
    requires PairwiseComparable(es)
    ensures var e := EntriesText(es, SortByKey(es), 0, depth);
      FormatYaml(Hash(es), depth) == if e.Ok? then Ok(Some(e.value)) else Err(e.error)
  {
    var s := SortByKey(es);
    assert multiset(s) == multiset(es);
    var e := EntriesText(es, s, 0, depth);
    if e.Ok? {
      assert FormatYaml(Hash(es), depth) == Ok(Some(e.value));
    } else {
      assert FormatYaml(Hash(es), depth) == Err(e.error);
    }
  }

  function Prepend(t: string, r: Result<string>): Result<string>
  {
    if r.Ok? then Ok(t + r.value) else r
  }

  lemma EntriesStep(es: seq<Pair>, sorted: seq<Pair>, i: nat, depth: nat)
    requires i < |sorted| && multiset(sorted) == multiset(es)
    ensures var t := FormatYaml(sorted[i].val, depth + 1);
      EntriesText(es, sorted, i, depth)
        == if t.Err? then Err(t.error) else Prepend(EntryLine(sorted[i].key, t.value, depth), EntriesText(es, sorted, i + 1, depth))
  {
  }

  lemma PrependTwice(a: string, b: string, r: Result<string>)
    ensures Prepend(a, Prepend(b, r)) == Prepend(a + b, r)
  {
    if r.Ok? {
      assert a + (b + r.value) == (a + b) + r.value;
    }
  }

  /**
   * `format_yaml` on a hash object: sort its keys in place, then build the text entry by entry.
   * Hashes nested in it are values of this model and are formatted without being re-ordered in place.
   */
  method FormatHashIn(h: MutableHash, depth: nat) returns (r: Result<string>)
    modifies h
    ensures FormatYaml(Hash(old(h.entries)), depth).Ok? ==>
      r == Ok(FormatYaml(Hash(old(h.entries)), depth).value.value)
    ensures FormatYaml(Hash(old(h.entries)), depth).Err? ==> r.Err?
    ensures PairwiseComparable(old(h.entries)) ==> h.entries == SortByKey(old(h.entries))
    ensures !PairwiseComparable(old(h.entries)) ==> h.entries == old(h.entries)
  {
    if !h.KeysSortable() {
      return Err(ArgumentErr("comparison of keys failed"));
    }
    ghost var original := h.entries;
    HashText(original, depth);
    h.SortKeys();
    var es := h.entries;
    var text := "";
    var i := 0;
    ghost var whole := EntriesText(original, es, 0, depth);
    assert whole.Ok? ==> text + whole.value == whole.value;
    while i < |es|
      invariant 0 <= i <= |es|
      invariant h.entries == es
      invariant whole == Prepend(text, EntriesText(original, es, i, depth))
      decreases |es| - i
    {
      var p := es[i];
      var t := FormatYaml(p.val, depth + 1);
      EntriesStep(original, es, i, depth);
      if t.Err? {
        return Err(t.error);
      }
      PrependTwice(text, EntryLine(p.key, t.value, depth), EntriesText(original, es, i + 1, depth));
      text := text + EntryLine(p.key, t.value, depth);
      i := i + 1;
    }
    assert EntriesText(original, es, i, depth) == Ok("");
    assert text + "" == text;
    r := Ok(text);
  }
}
