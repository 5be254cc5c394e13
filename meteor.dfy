/**
 * The Meteor module class: it accepts no setting at all, enqueues only its own module's class
 * (it names no Puppet Forge module) and leaves `sw_stack['meteor']` as it was.
 */
module Meteor {
  import opened Values
  import opened Outcome
  import opened Puppet
  import opened Whitelist

  const Sw := "meteor"
  const DoaMod := "cgalvarez/meteor"

  /** `SUPPORTED` is empty. */
  function Supported(): seq<Pair>
  {
    []
  }

  /** Lines 28-30: without `PUPPET_FORGE_MOD`, only the class of `DOA_MOD` is enqueued. */
  function ModCalls(): seq<Call>
  {
    [HieraClasses(Arr([Str(DoaMod)]))]
  }

  /** Lines 34-35: one round of the defaults loop, which stores a default only when nothing was provided. */
  function WriteOf(settings: Value, p: Pair): (r: Result<Write>)
    ensures r.Ok? && r.value.Store? ==> r.value == Store(p.key, p.val)
  {
    var absent :- AbsentIn(settings, p.key);
    if absent then Ok(Store(p.key, p.val)) else Ok(Keep)
  }

  function Rounds(settings: Value): (rs: seq<Result<Write>>)
    ensures |rs| == |Supported()|
  {
    seq(|Supported()|, i requires 0 <= i < |Supported()| => WriteOf(settings, Supported()[i]))
  }

  /** Lines 13-41. */
  function Setup(settings: Value, stack: seq<Pair>, calls: seq<Call>): Result<Staged>
  {
    var _ :- ParamsCheck(settings, Supported());
    var ws :- Collect(Rounds(settings), 0);
    Ok(Staged(Fold(stack, ws), calls + ModCalls()))
  }

  method SetupIn(s: SwState, settings: Value) returns (r: Result<bool>)
    modifies s
    ensures var want := Setup(settings, old(s.stack), old(s.calls));
      (r.Ok? <==> want.Ok?) && (want.Ok? ==> s.stack == want.value.stack && s.calls == want.value.calls)
  {
    var ok := CheckParams(settings, Supported());
    if ok.Err? {
      return Err(ok.error);
    }
    s.calls := s.calls + ModCalls();
    r := ApplyRounds(s, Rounds(settings));
  }

  /** Lines 15-23: only nil settings, an empty hash or an empty array get through the check. */
  lemma PassesExactly(settings: Value, stack: seq<Pair>, calls: seq<Call>)
    ensures Setup(settings, stack, calls).Ok?
      <==> settings.Nil? || settings == Hash([]) || settings == Arr([])
  {
    if settings.Hash? && settings.entries != [] {
      assert Keys(settings.entries)[0] == settings.entries[0].key;
    }
  }

  /** Lines 15-23: the first provided key aborts, whatever it is. */
  lemma FirstKeyAborts(es: seq<Pair>, stack: seq<Pair>, calls: seq<Call>)
    requires |es| > 0
    ensures Setup(Hash(es), stack, calls) == Err(UnrecognizedSwParam(es[0].key))
  {
    FirstUnknownKeyAborts(es, Supported(), 0);
  }

  /** Lines 28-40: a setup that goes through adds the module's class and leaves the table alone. */
  lemma TableUntouched(settings: Value, stack: seq<Pair>, calls: seq<Call>)
    requires Setup(settings, stack, calls).Ok?
    ensures Setup(settings, stack, calls).value.stack == stack
    ensures Setup(settings, stack, calls).value.calls == calls + [HieraClasses(Arr([Str(DoaMod)]))]
  {
    assert Collect(Rounds(settings), 0) == Ok([]);
  }
}
