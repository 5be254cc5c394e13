/**
 * What the older "whitelist plus defaults" module classes (PHP, CouchDB, Meteor) share: the
 * check that every provided key is one of `SUPPORTED`, the presence test of a parameter, and
 * the writes a setup makes into its software's Hiera table `Puppet.sw_stack[SW]`.
 */
module Whitelist {
  import opened Values
  import opened Outcome
  import opened Puppet

  /** `Puppet.sw_stack[SW]` and the calls into the provisioner, as one setup changes them. */
  class SwState {
    var stack: seq<Pair>
    var calls: seq<Call>

    constructor(stack0: seq<Pair>, calls0: seq<Call>)
      ensures stack == stack0 && calls == calls0
    {
      stack, calls := stack0, calls0;
    }
  }

  /** The table and the calls after a setup that did not abort. */
  datatype Staged = Staged(stack: seq<Pair>, calls: seq<Call>)

  // ----- the check of the provided keys -----

  /** The `param` that `each do |param, value|` yields for an array element. */
  function ParamOf(x: Value): Value
  {
    if x.Arr? then (if |x.items| > 0 then x.items[0] else Nil) else x
  }

  /** The params `settings.each` yields: none for nil; values without `each` raise. */
  function Params(settings: Value): (r: Result<seq<Value>>)
    ensures settings.Nil? ==> r == Ok([])
    ensures settings.Hash? ==> r == Ok(Keys(settings.entries))
    ensures r.Ok? <==> settings.Nil? || settings.Hash? || settings.Arr?
  {
    match settings
      case Nil => Ok([])
      case Hash(es) => Ok(Keys(es))
      case Arr(xs) => Ok(seq(|xs|, i requires 0 <= i < |xs| => ParamOf(xs[i])))
      case _ => Err(NoMethod("each"))
  }

  /** The first of `ps[i..]` that is not a key of `supported`. */
  function FirstUnsupported(ps: seq<Value>, supported: seq<Pair>, i: nat): (r: Option<nat>)
    requires i <= |ps|
    ensures r.Some? ==> (i <= r.value < |ps| && !HasKey(supported, ps[r.value])
                         && forall j | i <= j < r.value :: HasKey(supported, ps[j]))
    ensures r.None? <==> forall j | i <= j < |ps| :: HasKey(supported, ps[j])
    decreases |ps| - i
  {
    if i == |ps| then None
    else if !HasKey(supported, ps[i]) then Some(i)
    else FirstUnsupported(ps, supported, i + 1)
  }

  /** Lines 15-23 of meteor.rb (and the same lines of php.rb and couchdb.rb): the first unknown key aborts. */
  function ParamsCheck(settings: Value, supported: seq<Pair>): Result<bool>
  {
    var ps :- Params(settings);
    match FirstUnsupported(ps, supported, 0)
      case Some(i) => Err(UnrecognizedSwParam(ps[i]))
      case None => Ok(true)
  }

  method CheckParams(settings: Value, supported: seq<Pair>) returns (r: Result<bool>)
    ensures r == ParamsCheck(settings, supported)
  {
    var ps :- Params(settings);
    var i := 0;
    while i < |ps|
      invariant i <= |ps|
      invariant FirstUnsupported(ps, supported, 0) == FirstUnsupported(ps, supported, i)
    {
      if !HasKey(supported, ps[i]) {
        return Err(UnrecognizedSwParam(ps[i]));
      }
      i := i + 1;
    }
    return Ok(true);
  }

  /** nil settings always pass the check. */
  lemma NilPasses(supported: seq<Pair>)
    ensures ParamsCheck(Nil, supported) == Ok(true)
  {
  }

  /** A settings hash passes exactly when each of its keys is supported. */
  lemma HashPassesExactly(es: seq<Pair>, supported: seq<Pair>)
    ensures ParamsCheck(Hash(es), supported).Ok?
      <==> forall i | 0 <= i < |es| :: HasKey(supported, es[i].key)
  {
    var ps := Keys(es);
    if ParamsCheck(Hash(es), supported).Ok? {
      forall i | 0 <= i < |es| ensures HasKey(supported, es[i].key) {
        assert ps[i] == es[i].key;
      }
    } else {
      var j := FirstUnsupported(ps, supported, 0).value;
      assert !HasKey(supported, es[j].key);
    }
  }

  /** The key that aborts is the first unsupported one, in the order of the settings. */
  lemma FirstUnknownKeyAborts(es: seq<Pair>, supported: seq<Pair>, i: nat)
    requires i < |es| && !HasKey(supported, es[i].key)
    requires forall j | 0 <= j < i :: HasKey(supported, es[j].key)
    ensures ParamsCheck(Hash(es), supported) == Err(UnrecognizedSwParam(es[i].key))
  {
    var ps := Keys(es);
    assert !HasKey(supported, ps[i]);
  }

  // ----- the presence test -----

  /** `settings.nil? or !settings.has_key?(param) or settings[param].nil?`. */
  function AbsentIn(settings: Value, param: Value): (r: Result<bool>)
    ensures settings.Nil? ==> r == Ok(true)
    ensures settings.Hash? ==> r == Ok(At(settings.entries, param) == Nil)
    ensures r.Ok? <==> settings.Nil? || settings.Hash?
  {
    if settings.Nil? then Ok(true)
    else
      var has :- HasKeyOf(settings, param);
      Ok(!has || At(settings.entries, param) == Nil)
  }

  // ----- the writes into `sw_stack[SW]` -----

  /** What one round of the defaults loop does to the table. */
  datatype Write = Keep | Store(key: Value, v: Value)

  function Apply(stack: seq<Pair>, w: Write): seq<Pair>
  {
    if w.Store? then Put(stack, w.key, w.v) else stack
  }

  /** The table after the writes, in order. */
  function Fold(stack: seq<Pair>, ws: seq<Write>): seq<Pair>
    decreases |ws|
  {
    if |ws| == 0 then stack else Apply(Fold(stack, ws[..|ws| - 1]), ws[|ws| - 1])
  }

  /** The value the last write to `k` stores, if any write does. */
  function LastStore(ws: seq<Write>, k: Value): (r: Option<Value>)
    ensures r.Some? ==> exists j | 0 <= j < |ws| :: ws[j] == Store(k, r.value)
    ensures r.None? <==> forall j | 0 <= j < |ws| :: !(ws[j].Store? && ws[j].key == k)
    decreases |ws|
  {
    if |ws| == 0 then None
    else if ws[|ws| - 1].Store? && ws[|ws| - 1].key == k then Some(ws[|ws| - 1].v)
    else
      var r := LastStore(ws[..|ws| - 1], k);
      assert forall j | 0 <= j < |ws| - 1 :: ws[..|ws| - 1][j] == ws[j];
      r
  }

  /** A key holds what its last write stored, or what it held before when nothing was written to it. */
  lemma {:induction false} FoldGet(stack: seq<Pair>, ws: seq<Write>, k: Value)
    ensures Get(Fold(stack, ws), k) == match LastStore(ws, k) case Some(v) => Some(v) case None => Get(stack, k)
    decreases |ws|
  {
    if |ws| > 0 {
      var w := ws[|ws| - 1];
      FoldGet(stack, ws[..|ws| - 1], k);
      if w.Store? {
        if w.key == k {
          PutGetSame(Fold(stack, ws[..|ws| - 1]), k, w.v);
        } else {
          PutGetOther(Fold(stack, ws[..|ws| - 1]), w.key, w.v, k);
        }
      }
    }
  }

  /** A write to `k` that no other write repeats decides `k`. */
  lemma OnlyStore(ws: seq<Write>, j: nat, k: Value, v: Value)
    requires j < |ws| && ws[j] == Store(k, v)
    requires forall i | 0 <= i < |ws| && i != j :: !(ws[i].Store? && ws[i].key == k)
    ensures LastStore(ws, k) == Some(v)
  {
  }

  /** A key only round `j` may write to holds what that round stored, or what it held before. */
  lemma OnlyRoundWrites(stack: seq<Pair>, ws: seq<Write>, j: nat, k: Value)
    requires j < |ws| && (ws[j].Store? ==> ws[j].key == k)
    requires forall i | 0 <= i < |ws| && i != j :: !(ws[i].Store? && ws[i].key == k)
    ensures Get(Fold(stack, ws), k) == if ws[j].Store? then Some(ws[j].v) else Get(stack, k)
  {
    if ws[j].Store? {
      OnlyStore(ws, j, k, ws[j].v);
    }
    FoldGet(stack, ws, k);
  }

  // ----- the rounds of a defaults loop -----

  /** The defaults loop: each round in turn writes into the table, and the first abort stops it. */
  method ApplyRounds(s: SwState, rs: seq<Result<Write>>) returns (r: Result<bool>)
    modifies s
    ensures s.calls == old(s.calls)
    ensures r.Ok? <==> Collect(rs, 0).Ok?
    ensures r.Err? ==> r == Err(Collect(rs, 0).error)
    ensures r.Ok? ==> s.stack == Fold(old(s.stack), Collect(rs, 0).value)
  {
    var i := 0;
    ghost var done: seq<Write> := [];
    while i < |rs|
      invariant i <= |rs| && |done| == i && s.calls == old(s.calls)
      invariant forall j | 0 <= j < i :: rs[j] == Ok(done[j])
      invariant s.stack == Fold(old(s.stack), done)
    {
      if rs[i].Err? {
        CollectFirstErr(rs, 0, i);
        return Err(rs[i].error);
      }
      assert (done + [rs[i].value])[..|done|] == done;
      s.stack := Apply(s.stack, rs[i].value);
      done := done + [rs[i].value];
      i := i + 1;
    }
    CollectAllOk(rs, 0, done);
    return Ok(true);
  }
}
