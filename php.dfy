/**
 * The PHP module class: the whitelist of its eight settings, and the defaults loop that fills
 * `sw_stack['php']`, where the version becomes the package's `ensure`.
 */
module Php {
  import opened Values
  import opened Outcome
  import opened Puppet
  import opened Validators
  import opened CheckGet
  import opened Whitelist
  import opened Patterns
  import opened Strings

  const Sw := "php"
  const ForgeMod := "mayflower/php"

  /** `SUPPORTED`: every accepted key with its default, in order. */
  function Supported(): seq<Pair>
  {
    [Pair(Str("version"), Str("latest")),
     Pair(Str("fpm"), Str("true")),
     Pair(Str("dev"), Str("true")),
     Pair(Str("composer"), Str("true")),
     Pair(Str("pear"), Str("true")),
     Pair(Str("phpunit"), Str("true")),
     Pair(Str("fpm::config::log_level"), Str("notice")),
     Pair(Str("composer::auto_update"), Str("true"))]
  }

  const Keywords: seq<Value> := [Str("latest"), Str("present"), Str("absent")]

  /** The key of the table a setting goes to: the version is the package's `ensure`. */
  function TableKey(param: Value): Value
  {
    if param == Str("version") then Str("ensure") else param
  }

  /** Lines 110-118: a provided version must be semantic or one of the keywords, and is stored quoted. */
  function VersionEnsure(settings: Value): (r: Result<Value>)
    ensures r.Ok? ==> r.value.Str?
  {
    var ver :- CheckGetOf(settings, CString, 4, Str("version"), Str("latest"), false, None, None);
    if ValidVersion(ver, [], Keywords, true, false) then Ok(Str(Quoted(ToS(ver))))
    else Err(UnrecognizedVersion)
  }

  /** Lines 100-119: one round of the defaults loop. */
  function WriteOf(settings: Value, p: Pair): (r: Result<Write>)
    ensures r.Ok? && r.value.Store? ==> r.value.key == TableKey(p.key)
  {
    var absent :- AbsentIn(settings, p.key);
    if absent then Ok(Store(TableKey(p.key), p.val))
    else if p.key == Str("version") then
      var e :- VersionEnsure(settings);
      Ok(Store(Str("ensure"), e))
    else Ok(Keep)
  }

  /** The rounds of the loop over `SUPPORTED`, one per setting. */
  function Rounds(settings: Value): (rs: seq<Result<Write>>)
    ensures |rs| == |Supported()|
  {
    seq(|Supported()|, i requires 0 <= i < |Supported()| => WriteOf(settings, Supported()[i]))
  }

  function ForgeCalls(): seq<Call>
  {
    [PuppetfileMods([ForgeMod]), HieraClasses(Arr([Str(ForgeMod)]))]
  }

  /** Lines 28-123: check, enqueue the module, fill the table, and never manage the repositories. */
  function Setup(settings: Value, stack: seq<Pair>, calls: seq<Call>): Result<Staged>
  {
    var _ :- ParamsCheck(settings, Supported());
    var ws :- Collect(Rounds(settings), 0);
    Ok(Staged(Put(Fold(stack, ws), Str("manage_repos"), Str("false")), calls + ForgeCalls()))
  }

  method SetupIn(s: SwState, settings: Value) returns (r: Result<bool>)
    modifies s
    ensures var want := Setup(settings, old(s.stack), old(s.calls));
      (r.Ok? <==> want.Ok?) && (want.Ok? ==> s.stack == want.value.stack && s.calls == want.value.calls)
  {
    var ok := CheckParams(settings, Supported());
    if ok.Err? {
      return Err(ok.error);
    }
    s.calls := s.calls + ForgeCalls();
    r := ApplyRounds(s, Rounds(settings));
    if r.Err? {
      return;
    }
    s.stack := Put(s.stack, Str("manage_repos"), Str("false"));
    return Ok(true);
  }

  // ----- what a setup writes -----

  /** The keys of `SUPPORTED` are distinct and none of them is `ensure` or `manage_repos`. */
  lemma SupportedKeys()
    ensures forall j | 0 <= j < |Supported()| ::
              Supported()[j].key.Str? && Supported()[j].key != Str("ensure") && Supported()[j].key != Str("manage_repos")
    ensures forall i, j | 0 <= i < j < |Supported()| :: Supported()[i].key != Supported()[j].key
  {
  }

  /** Lines 30-38: a provided key outside `SUPPORTED` aborts with that key. */
  lemma UnknownKeyAborts(es: seq<Pair>, stack: seq<Pair>, calls: seq<Call>, i: nat)
    requires i < |es| && !HasKey(Supported(), es[i].key)
    requires forall j | 0 <= j < i :: HasKey(Supported(), es[j].key)
    ensures Setup(Hash(es), stack, calls) == Err(UnrecognizedSwParam(es[i].key))
  {
    FirstUnknownKeyAborts(es, Supported(), i);
  }

  /** Line 122: whatever was provided, the repositories are not managed. */
  lemma ReposNeverManaged(settings: Value, stack: seq<Pair>, calls: seq<Call>)
    requires Setup(settings, stack, calls).Ok?
    ensures Get(Setup(settings, stack, calls).value.stack, Str("manage_repos")) == Some(Str("false"))
    ensures Setup(settings, stack, calls).value.calls == calls + [PuppetfileMods([ForgeMod]), HieraClasses(Arr([Str(ForgeMod)]))]
  {
    var ws := Collect(Rounds(settings), 0).value;
    PutGetSame(Fold(stack, ws), Str("manage_repos"), Str("false"));
  }

  /** The table entry for the setting at index `j`: only its own round writes there. */
  lemma OwnRoundDecides(settings: Value, stack: seq<Pair>, calls: seq<Call>, j: nat)
    requires j < |Supported()| && Setup(settings, stack, calls).Ok?
    ensures var ws := Collect(Rounds(settings), 0).value;
      var k := TableKey(Supported()[j].key);
      Get(Setup(settings, stack, calls).value.stack, k)
        == if ws[j].Store? then Some(ws[j].v) else Get(stack, k)
  {
    var sup := Supported();
    var ws := Collect(Rounds(settings), 0).value;
    var k := TableKey(sup[j].key);
    SupportedKeys();
    forall i | 0 <= i < |ws| && i != j ensures !(ws[i].Store? && ws[i].key == k) {
      assert Rounds(settings)[i] == Ok(ws[i]);
      assert TableKey(sup[i].key) != k by {
        assert sup[i].key != sup[j].key;
        assert sup[i].key != Str("ensure") && sup[j].key != Str("ensure");
      }
    }
    assert Rounds(settings)[j] == Ok(ws[j]);
    OnlyRoundWrites(stack, ws, j, k);
    PutGetOther(Fold(stack, ws), Str("manage_repos"), Str("false"), k);
  }

  /** Lines 100-106: a setting nobody provided stores its default; an absent version makes `ensure` 'latest'. */
  lemma AbsentStoresDefault(settings: Value, stack: seq<Pair>, calls: seq<Call>, j: nat)
    requires j < |Supported()| && Setup(settings, stack, calls).Ok?
    requires AbsentIn(settings, Supported()[j].key) == Ok(true)
    ensures Get(Setup(settings, stack, calls).value.stack, TableKey(Supported()[j].key)) == Some(Supported()[j].val)
  {
    OwnRoundDecides(settings, stack, calls, j);
  }

  /** Lines 107-121: a provided setting other than the version leaves the table as it was. */
  lemma ProvidedOtherKept(settings: Value, stack: seq<Pair>, calls: seq<Call>, j: nat)
    requires 0 < j < |Supported()| && Setup(settings, stack, calls).Ok?
    requires AbsentIn(settings, Supported()[j].key) == Ok(false)
    ensures Get(Setup(settings, stack, calls).value.stack, Supported()[j].key) == Get(stack, Supported()[j].key)
  {
    SupportedKeys();
    OwnRoundDecides(settings, stack, calls, j);
  }

  /** Lines 108-113: an accepted version is the quoted `ensure`. */
  lemma ProvidedVersionEnsure(es: seq<Pair>, stack: seq<Pair>, calls: seq<Call>, ver: string)
    requires At(es, Str("version")) == Str(ver) && ver != ""
    requires SemverVersion(ver) || Str(ver) in Keywords
    requires Setup(Hash(es), stack, calls).Ok?
    ensures Get(Setup(Hash(es), stack, calls).value.stack, Str("ensure")) == Some(Str(Quoted(ver)))
  {
    assert CheckGetOf(Hash(es), CString, 4, Str("version"), Str("latest"), false, None, None) == Ok(Str(ver));
    assert VersionEnsure(Hash(es)) == Ok(Str(Quoted(ver)));
    OwnRoundDecides(Hash(es), stack, calls, 0);
  }

  /** Lines 114-117: a provided string that is neither semantic nor a keyword aborts. */
  lemma ProvidedVersionRejected(es: seq<Pair>, stack: seq<Pair>, calls: seq<Call>, ver: string)
    requires ParamsCheck(Hash(es), Supported()).Ok?
    requires At(es, Str("version")) == Str(ver) && ver != ""
    requires !SemverVersion(ver) && Str(ver) !in Keywords
    ensures Setup(Hash(es), stack, calls) == Err(UnrecognizedVersion)
  {
    assert CheckGetOf(Hash(es), CString, 4, Str("version"), Str("latest"), false, None, None) == Ok(Str(ver));
    assert Rounds(Hash(es))[0] == Err(UnrecognizedVersion);
    CollectFirstErr(Rounds(Hash(es)), 0, 0);
  }

  /** A branch written with a wildcard has two parts, not the three of a version core. */
  lemma WildcardIsNoVersion()
    ensures !SemverVersion("5.x")
  {
    assert "x"[..1][0] == 'x' && "x"[1..] == "";
    assert SplitAll("", ".") == [""];
    assert SplitAll("x", ".") == [['x'] + ""] + [];
    assert ['x'] + "" == "x";
    assert SplitAll("x", ".") == ["x"];
    assert ".x"[..1] == "." && ".x"[1..] == "x";
    assert SplitAll(".x", ".") == [""] + SplitAll("x", ".");
    assert SplitAll(".x", ".")[0] == "" && SplitAll(".x", ".")[1..] == ["x"];
    assert "5.x"[..1][0] == '5' && "5.x"[1..] == ".x";
    assert SplitAll("5.x", ".") == [['5'] + ""] + ["x"];
    assert IndexOf("5.x", '+') == None && IndexOf("5.x", '-') == None;
  }

  /** '5.x' is no version PHP accepts. */
  lemma VersionWildcardRejected(es: seq<Pair>, stack: seq<Pair>, calls: seq<Call>)
    requires ParamsCheck(Hash(es), Supported()).Ok?
    requires At(es, Str("version")) == Str("5.x")
    ensures Setup(Hash(es), stack, calls) == Err(UnrecognizedVersion)
  {
    WildcardIsNoVersion();
    ProvidedVersionRejected(es, stack, calls, "5.x");
  }
}
