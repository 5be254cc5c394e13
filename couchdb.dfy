/**
 * The CouchDB module class: the whitelist of its three settings, the Apache CouchDB repository
 * on Debian-family guests, and the defaults loop that fills `sw_stack['couchdb']`, where a
 * provided value is kept only when its validator accepts it.
 */
module CouchDb {
  import opened Values
  import opened Outcome
  import opened Puppet
  import opened Validators
  import opened Patterns
  import opened Strings
  import opened Whitelist

  const Sw := "couchdb"
  const ForgeMod := "camptocamp/couchdb"
  /** `DOA::OS::LINUX_FAMILY_DEBIAN`. */
  const DebianFamily := "debian"

  /** `SUPPORTED`: every accepted key with its default, in order. */
  function Supported(): seq<Pair>
  {
    [Pair(Str("bind_address"), Str(Quoted("0.0.0.0"))),
     Pair(Str("port"), Int(5984)),
     Pair(Str("backupdir"), Str(Quoted("/var/backups/couchdb")))]
  }

  function ForgeCalls(): seq<Call>
  {
    [PuppetfileMods([ForgeMod]), HieraClasses(Arr([Str(ForgeMod)]))]
  }

  /** The PPA of the Apache CouchDB team, to be in place before the package. */
  function ApacheRepo(): Call
  {
    RepoApt("couchdb_apache",
      [Pair(Str("ensure"), Str(Quoted("present"))),
       Pair(Str("comment"), Str(Quoted("PPA for latest stable official CouchDB packages by Apache CouchDB team"))),
       Pair(Str("location"), Str(Quoted("http://ppa.launchpad.net/couchdb/stable/ubuntu"))),
       Pair(Str("key"), Hash([Pair(Str("id"), Str(Quoted("15866BAFD9BCC4F3C1E0DFC7D69548E1C17EAB57")))]))],
      [Pair(Str("before"), Str("Package['couchdb']"))])
  }

  /** Lines 32-44: the module, then the repository when the guest is of the Debian family. */
  function Queued(family: string): seq<Call>
  {
    ForgeCalls() + (if family == DebianFamily then [ApacheRepo()] else [])
  }

  /**
   * Lines 51-58: the validator of a provided setting. The backup directory calls
   * `valid_unix_abspath`, which `DOA::Tools` does not define (it defines `valid_unix_abspath?`);
   * `corrected` selects the predicate evidently meant.
   */
  function Checked(param: Value, v: Value, corrected: bool): Result<bool>
  {
    if param == Str("bind_address") then ValidIpv4(v)
    else if param == Str("port") then Ok(ValidPort(v))
    else if param == Str("backupdir") then
      (if corrected then ValidUnixAbspath(v) else Err(NoMethod("valid_unix_abspath")))
    else Ok(false)
  }

  /** Lines 47-59: one round of the defaults loop. */
  function WriteOf(settings: Value, p: Pair, corrected: bool): (r: Result<Write>)
    ensures r.Ok? && r.value.Store? ==> r.value.key == p.key
  {
    var absent :- AbsentIn(settings, p.key);
    if absent then Ok(Store(p.key, p.val))
    else
      var v := At(settings.entries, p.key);
      var ok :- Checked(p.key, v, corrected);
      if ok then Ok(Store(p.key, v)) else Ok(Keep)
  }

  /** The rounds of the loop over `SUPPORTED`, one per setting. */
  function Rounds(settings: Value, corrected: bool): (rs: seq<Result<Write>>)
    ensures |rs| == |Supported()|
  {
    seq(|Supported()|, i requires 0 <= i < |Supported()| => WriteOf(settings, Supported()[i], corrected))
  }

  /** Lines 17-61: check, enqueue, and fill the table. */
  function Setup(settings: Value, family: string, stack: seq<Pair>, calls: seq<Call>, corrected: bool): Result<Staged>
  {
    var _ :- ParamsCheck(settings, Supported());
    var ws :- Collect(Rounds(settings, corrected), 0);
    Ok(Staged(Fold(stack, ws), calls + Queued(family)))
  }

  method SetupIn(s: SwState, settings: Value, family: string, corrected: bool) returns (r: Result<bool>)
    modifies s
    ensures var want := Setup(settings, family, old(s.stack), old(s.calls), corrected);
      (r.Ok? <==> want.Ok?) && (want.Ok? ==> s.stack == want.value.stack && s.calls == want.value.calls)
  {
    var ok := CheckParams(settings, Supported());
    if ok.Err? {
      return Err(ok.error);
    }
    s.calls := s.calls + ForgeCalls();
    if family == DebianFamily {
      s.calls := s.calls + [ApacheRepo()];
    }
    assert s.calls == old(s.calls) + Queued(family);
    r := ApplyRounds(s, Rounds(settings, corrected));
  }

  // ----- what a setup enqueues and writes -----

  /** The keys of `SUPPORTED` are distinct. */
  lemma SupportedKeys()
    ensures forall i, j | 0 <= i < j < |Supported()| :: Supported()[i].key != Supported()[j].key
  {
  }

  /** Lines 19-27: a provided key outside `SUPPORTED` aborts with that key. */
  lemma UnknownKeyAborts(es: seq<Pair>, family: string, stack: seq<Pair>, calls: seq<Call>, corrected: bool, i: nat)
    requires i < |es| && !HasKey(Supported(), es[i].key)
    requires forall j | 0 <= j < i :: HasKey(Supported(), es[j].key)
    ensures Setup(Hash(es), family, stack, calls, corrected) == Err(UnrecognizedSwParam(es[i].key))
  {
    FirstUnknownKeyAborts(es, Supported(), i);
  }

  /** Lines 32-44: the calls made before are kept, and the Apache repository is added exactly on Debian. */
  lemma RepoOnlyOnDebian(settings: Value, family: string, stack: seq<Pair>, calls: seq<Call>, corrected: bool)
    requires Setup(settings, family, stack, calls, corrected).Ok?
    ensures var after := Setup(settings, family, stack, calls, corrected).value.calls;
      |calls| <= |after| && after[..|calls|] == calls
      && after[|calls|..][..2] == ForgeCalls()
      && (ApacheRepo() in after[|calls|..] <==> family == DebianFamily)
  {
    var after := Setup(settings, family, stack, calls, corrected).value.calls;
    assert after[..|calls|] == calls;
    assert after[|calls|..] == Queued(family);
  }

  /** The table entry for the setting at index `j`: only its own round writes there. */
  lemma OwnRoundDecides(settings: Value, family: string, stack: seq<Pair>, calls: seq<Call>, corrected: bool, j: nat)
    requires j < |Supported()| && Setup(settings, family, stack, calls, corrected).Ok?
    ensures var ws := Collect(Rounds(settings, corrected), 0).value;
      var k := Supported()[j].key;
      Get(Setup(settings, family, stack, calls, corrected).value.stack, k)
        == if ws[j].Store? then Some(ws[j].v) else Get(stack, k)
  {
    var sup := Supported();
    var ws := Collect(Rounds(settings, corrected), 0).value;
    var k := sup[j].key;
    SupportedKeys();
    forall i | 0 <= i < |ws| && i != j ensures !(ws[i].Store? && ws[i].key == k) {
      assert Rounds(settings, corrected)[i] == Ok(ws[i]);
    }
    assert Rounds(settings, corrected)[j] == Ok(ws[j]);
    OnlyRoundWrites(stack, ws, j, k);
  }

  /** Lines 48-49: a setting nobody provided stores its default. */
  lemma AbsentStoresDefault(settings: Value, family: string, stack: seq<Pair>, calls: seq<Call>, corrected: bool, j: nat)
    requires j < |Supported()| && Setup(settings, family, stack, calls, corrected).Ok?
    requires AbsentIn(settings, Supported()[j].key) == Ok(true)
    ensures Get(Setup(settings, family, stack, calls, corrected).value.stack, Supported()[j].key) == Some(Supported()[j].val)
  {
    OwnRoundDecides(settings, family, stack, calls, corrected, j);
  }

  /** Lines 52-53: a provided address is stored exactly when it is a dotted quad of bytes. */
  lemma BindAddressChecked(es: seq<Pair>, family: string, stack: seq<Pair>, calls: seq<Call>, corrected: bool, a: string)
    requires At(es, Str("bind_address")) == Str(a)
    requires Setup(Hash(es), family, stack, calls, corrected).Ok?
    ensures Get(Setup(Hash(es), family, stack, calls, corrected).value.stack, Str("bind_address"))
      == if Ipv4Checked(a) then Some(Str(a)) else Get(stack, Str("bind_address"))
  {
    assert Rounds(Hash(es), corrected)[0] == Ok(if Ipv4Checked(a) then Store(Str("bind_address"), Str(a)) else Keep);
    OwnRoundDecides(Hash(es), family, stack, calls, corrected, 0);
  }

  /** Line 53: an address that is neither text nor nil makes the pattern match raise. */
  lemma BindAddressNotText(es: seq<Pair>, family: string, stack: seq<Pair>, calls: seq<Call>, corrected: bool)
    requires ParamsCheck(Hash(es), Supported()).Ok?
    requires At(es, Str("bind_address")) != Nil && !HasText(At(es, Str("bind_address")))
    ensures Setup(Hash(es), family, stack, calls, corrected).Err?
    ensures Setup(Hash(es), family, stack, calls, corrected).error.TypeErr?
  {
    assert Rounds(Hash(es), corrected)[0].Err?;
    CollectFirstErr(Rounds(Hash(es), corrected), 0, 0);
  }

  /** Lines 54-55: a provided port is stored exactly when it is a port number. */
  lemma PortChecked(es: seq<Pair>, family: string, stack: seq<Pair>, calls: seq<Call>, corrected: bool, v: Value)
    requires At(es, Str("port")) == v && v != Nil
    requires Setup(Hash(es), family, stack, calls, corrected).Ok?
    ensures Get(Setup(Hash(es), family, stack, calls, corrected).value.stack, Str("port"))
      == if ValidPort(v) then Some(v) else Get(stack, Str("port"))
  {
    assert Rounds(Hash(es), corrected)[1] == Ok(if ValidPort(v) then Store(Str("port"), v) else Keep);
    OwnRoundDecides(Hash(es), family, stack, calls, corrected, 1);
  }

  /** Lines 56-57 as written: once the first two rounds go through, a provided backup directory aborts. */
  lemma BackupdirAbortsAsWritten(es: seq<Pair>, family: string, stack: seq<Pair>, calls: seq<Call>)
    requires ParamsCheck(Hash(es), Supported()).Ok?
    requires Rounds(Hash(es), false)[0].Ok? && Rounds(Hash(es), false)[1].Ok?
    requires At(es, Str("backupdir")) != Nil
    ensures Setup(Hash(es), family, stack, calls, false) == Err(NoMethod("valid_unix_abspath"))
  {
    assert Rounds(Hash(es), false)[2] == Err(NoMethod("valid_unix_abspath"));
    CollectFirstErr(Rounds(Hash(es), false), 0, 2);
  }

  /** Lines 56-57 as meant: a provided backup directory is stored exactly when it is an absolute path. */
  lemma BackupdirStoredWhenAbsolute(es: seq<Pair>, family: string, stack: seq<Pair>, calls: seq<Call>, d: string)
    requires At(es, Str("backupdir")) == Str(d)
    requires Setup(Hash(es), family, stack, calls, true).Ok?
    ensures Get(Setup(Hash(es), family, stack, calls, true).value.stack, Str("backupdir"))
      == if UnixAbsPath(d) then Some(Str(d)) else Get(stack, Str("backupdir"))
  {
    if UnixAbsPath(d) {
      assert StartsWith(d, "/") by { assert d[0] == '/'; }
    }
    assert Rounds(Hash(es), true)[2] == Ok(if UnixAbsPath(d) then Store(Str("backupdir"), Str(d)) else Keep);
    OwnRoundDecides(Hash(es), family, stack, calls, true, 2);
  }
}
