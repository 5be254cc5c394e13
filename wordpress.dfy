/**
 * The WordPress module class: how `setup` wraps the settings for the resolver, the install
 * directory of an instance (`get_install_dir`), the Hiera table of plugins or themes built by
 * `setup_assets`, and the rsync pre-sync directories `add_excludes` fills.
 */
module Wordpress {
  import opened Strings
  import opened Values
  import opened Outcome
  import opened Validators
  import opened Puppet
  import opened Ssh

  const ClassName := "DOA::Provisioner::Puppet::WordPress"
  const DefInstallDir := "/opt/wordpress"
  const SwWp := "wordpress"

  /** The instance a project's settings belong to: the project, or 'base' at machine level. */
  function InstanceName(project: Value): Value
  {
    if project.Nil? then Str("base") else project
  }

  /** The settings as `setup` hands them to the resolver: `{'instances' => {<instance> => settings}}`, or `{}`. */
  function SetupInput(settings: Value, project: Value): Value
  {
    if settings.Hash? then Hash([Pair(Str("instances"), Hash([Pair(InstanceName(project), settings)]))])
    else Hash([])
  }

  /**
   * A settings hash is found under 'instances' and the current project (or 'base'), and is the
   * only thing there; anything else gives an empty hash.
   */
  lemma SetupInputWraps(settings: Value, project: Value)
    ensures var r := SetupInput(settings, project);
      r.Hash? && (settings.Hash? <==> |r.entries| > 0)
    ensures settings.Hash? ==> var r := SetupInput(settings, project);
      Keys(r.entries) == [Str("instances")]
      && Keys(At(r.entries, Str("instances")).entries) == [if project.Nil? then Str("base") else project]
      && Lookup(r, [Str("instances"), if project.Nil? then Str("base") else project]) == settings
  {
    if settings.Hash? {
      var inner := [Pair(InstanceName(project), settings)];
      var r := SetupInput(settings, project);
      assert At(r.entries, Str("instances")) == Hash(inner);
      assert At(inner, InstanceName(project)) == settings;
      assert [Str("instances"), InstanceName(project)][1..] == [InstanceName(project)];
    }
  }

  /** The words that make a subdirectory setting stand for the project's own name. */
  predicate OnWord(v: Value)
  {
    ToS(v) in ["true", "on", "yes", "1"]
  }

  /** The directory part of `get_install_dir`, once the value and the subdirectory are known. */
  function InstallDirOf(value: Value, subdirectory: Value, project: Value): (r: Value)
    ensures subdirectory.Nil? ==> r == (if IsEmpty(value) then Str(DefInstallDir) else value)
    ensures !subdirectory.Nil? ==>
      (r.Str?
       && StartsWith(r.s, (if IsEmpty(value) then DefInstallDir else ToS(value)) + "/")
       && EndsWith(r.s, "/" + (if OnWord(subdirectory) then ToS(project) else ToS(subdirectory)))
       && |r.s| == |if IsEmpty(value) then DefInstallDir else ToS(value)| + 1
                   + |if OnWord(subdirectory) then ToS(project) else ToS(subdirectory)|)
  {
    var dir := if IsEmpty(value) then Str(DefInstallDir) else value;
    if subdirectory.Nil? then dir
    else
      var tail := if OnWord(subdirectory) then ToS(project) else ToS(subdirectory);
      JoinedPath(ToS(dir), tail);
      Str(ToS(dir) + "/" + tail)
  }

  /**
   * `get_install_dir(value)`: the subdirectory and, when no value is given, the install dir come
   * from the tiered lookup of the WordPress settings.
   */
  function InstallDir(c: Ctx, value: Value): (r: Result<Value>)
  {
    var sub :- Prioritized(c, c.supported, [Str(SwWp), Str("wp"), Str("subdirectory")]);
    var v :- if value.Nil? then Prioritized(c, c.supported, [Str(SwWp), Str("wp"), Str("install"), Str("dir")]) else Ok(value);
    Ok(InstallDirOf(v, sub, c.project))
  }

  /** A given value is used as it is; the lookups only supply the subdirectory. */
  lemma InstallDirGivenValue(c: Ctx, value: Value)
    requires !value.Nil?
    requires Prioritized(c, c.supported, [Str(SwWp), Str("wp"), Str("subdirectory")]).Ok?
    ensures InstallDir(c, value)
      == Ok(InstallDirOf(value, Prioritized(c, c.supported, [Str(SwWp), Str("wp"), Str("subdirectory")]).value, c.project))
  {
  }

  // ----- setup_assets -----

  const AssetFlags: seq<string> := ["install", "activate", "delete"]

  /** The first of install, activate and delete that is present but not a boolean. */
  function FirstBadFlag(config: seq<Pair>, i: nat): (r: Option<string>)
    requires i <= |AssetFlags|
    ensures r.Some? ==> r.value in AssetFlags && HasKey(config, Str(r.value)) && !ValidBoolean(At(config, Str(r.value)))
    ensures r.None? ==> forall j | i <= j < |AssetFlags| ::
      !HasKey(config, Str(AssetFlags[j])) || ValidBoolean(At(config, Str(AssetFlags[j])))
    decreases |AssetFlags| - i
  {
    if i == |AssetFlags| then None
    else if HasKey(config, Str(AssetFlags[i])) && !ValidBoolean(At(config, Str(AssetFlags[i]))) then Some(AssetFlags[i])
    else FirstBadFlag(config, i + 1)
  }

  /** A flag's entry: its text when present, else the default. */
  function FlagText(config: seq<Pair>, flag: string, default: string): Value
  {
    Str(if HasKey(config, Str(flag)) then ToS(At(config, Str(flag))) else default)
  }

  /** The Hiera entry of one asset, once its flags are known to be booleans. */
  function AssetTable(es: seq<Pair>): seq<Pair>
  {
    var del := if HasKey(es, Str("delete")) then [Pair(Str("delete"), Str(ToS(At(es, Str("delete")))))] else [];
    [Pair(Str("install"), FlagText(es, "install", "true")),
     Pair(Str("activate"), FlagText(es, "activate", "true"))]
    + del + [Pair(Str("version"), Str(Quoted(ToS(At(es, Str("version"))))))]
  }

  /**
   * The entry of one asset, checking its flags first. A flag that is not a boolean is meant to
   * print UNSUPPORTED_PARAM_VALUE_CTX_SW and exit, but the message arguments are coloured as one
   * Array (`*(ctx + [param]).colorize(:red)`), and colorize extends String only: the call raises
   * NoMethodError before anything is printed.
   */
  function AssetEntry(config: Value): Result<seq<Pair>>
  {
    if !config.Hash? then Err(NoMethod("has_key?"))
    else if FirstBadFlag(config.entries, 0).Some? then Err(NoMethod("colorize"))
    else Ok(AssetTable(config.entries))
  }

  /**
   * An asset is refused exactly when its settings are not a hash or one of its flags is not a
   * boolean: the first raises at `has_key?`, the second at `colorize`. Otherwise its entry is
   * the table above.
   */
  lemma AssetEntryChecks(config: Value)
    ensures AssetEntry(config).Err? <==> !config.Hash? || FirstBadFlag(config.entries, 0).Some?
    ensures !config.Hash? ==> AssetEntry(config) == Err(NoMethod("has_key?"))
    ensures config.Hash? && FirstBadFlag(config.entries, 0).Some? ==> AssetEntry(config) == Err(NoMethod("colorize"))
    ensures AssetEntry(config).Ok? ==> AssetEntry(config).value == AssetTable(config.entries)
  {
  }

  /** install and activate default to 'true'. */
  lemma AssetTableFlags(es: seq<Pair>)
    ensures var r := AssetTable(es);
      At(r, Str("install")) == FlagText(es, "install", "true")
      && At(r, Str("activate")) == FlagText(es, "activate", "true")
  {
    var r := AssetTable(es);
    FindAt(r, Str("install"), 0);
    FindAt(r, Str("activate"), 1);
  }

  /** delete appears only when the asset gives it. */
  lemma AssetTableDelete(es: seq<Pair>)
    ensures HasKey(AssetTable(es), Str("delete")) <==> HasKey(es, Str("delete"))
  {
    var r := AssetTable(es);
    if HasKey(es, Str("delete")) {
      FindAt(r, Str("delete"), 2);
    } else {
      assert |r| == 3;
      FindSpec(r, Str("delete"));
    }
  }

  /** version is always there, as a quoted string (an absent one quotes the empty text). */
  lemma AssetTableVersion(es: seq<Pair>)
    ensures At(AssetTable(es), Str("version")) == Str(Quoted(ToS(At(es, Str("version")))))
  {
    var r := AssetTable(es);
    FindAt(r, Str("version"), |r| - 1);
  }

  /** The key of an asset: its quoted slug. */
  function SlugKey(slug: Value): Value
  {
    Str(Quoted(ToS(slug)))
  }

  /** The keys of the first `n` slugs. */
  function SlugKeys(es: seq<Pair>, n: nat): (ks: seq<Value>)
    requires n <= |es|
    ensures |ks| == n && forall i | 0 <= i < n :: ks[i] == SlugKey(es[i].key)
  {
    if n == 0 then [] else SlugKeys(es, n - 1) + [SlugKey(es[n - 1].key)]
  }

  /** The checked entries of the first `n` assets, in order. */
  function AssetEntries(es: seq<Pair>, n: nat): (rs: seq<Result<seq<Pair>>>)
    requires n <= |es|
    ensures |rs| == n && forall i | 0 <= i < n :: rs[i] == AssetEntry(es[i].val)
  {
    if n == 0 then [] else AssetEntries(es, n - 1) + [AssetEntry(es[n - 1].val)]
  }

  /**
   * `assets[key] = entry` for the first `n` keys in order, stopping at the first entry that
   * failed its checks.
   */
  function Fill(ks: seq<Value>, rs: seq<Result<seq<Pair>>>, n: nat): Result<seq<Pair>>
    requires n <= |ks| == |rs|
  {
    if n == 0 then Ok([])
    else
      var assets :- Fill(ks, rs, n - 1);
      var e :- rs[n - 1];
      Ok(Put(assets, ks[n - 1], Hash(e)))
  }

  /** A failed fill fails with the error of one of the entries it went through. */
  lemma {:induction false} FillErrFrom(ks: seq<Value>, rs: seq<Result<seq<Pair>>>, n: nat)
    requires n <= |ks| == |rs| && Fill(ks, rs, n).Err?
    ensures exists i | 0 <= i < n :: rs[i] == Err(Fill(ks, rs, n).error)
  {
    if Fill(ks, rs, n - 1).Err? {
      FillErrFrom(ks, rs, n - 1);
    }
  }

  /**
   * The checks of the first pass fail only as the checks of one asset do: its settings are not
   * a hash (`has_key?`), or one of its flags is not a boolean (`colorize`). They never raise the
   * second pass's NameError.
   */
  lemma AssetsTableErr(es: seq<Pair>)
    requires AssetsTable(es).Err?
    ensures exists i | 0 <= i < |es| :: AssetEntry(es[i].val) == Err(AssetsTable(es).error)
    ensures AssetsTable(es).error == NoMethod("has_key?") || AssetsTable(es).error == NoMethod("colorize")
  {
    FillErrFrom(SlugKeys(es, |es|), AssetEntries(es, |es|), |es|);
    var i :| 0 <= i < |es| && AssetEntries(es, |es|)[i] == Err(AssetsTable(es).error);
    AssetEntryChecks(es[i].val);
  }

  /** The assets table `setup_assets` builds from the slugs of a hash and their settings. */
  function AssetsTable(es: seq<Pair>): Result<seq<Pair>>
  {
    Fill(SlugKeys(es, |es|), AssetEntries(es, |es|), |es|)
  }

  /** One more key filled: the table is the previous one with that key's entry put in. */
  lemma FillStep(ks: seq<Value>, rs: seq<Result<seq<Pair>>>, n: nat, assets: seq<Pair>)
    requires 0 < n <= |ks| == |rs| && Fill(ks, rs, n) == Ok(assets)
    ensures Fill(ks, rs, n - 1).Ok? && rs[n - 1].Ok?
    ensures assets == Put(Fill(ks, rs, n - 1).value, ks[n - 1], Hash(rs[n - 1].value))
  {
  }

  /** Filling one more key puts its entry in, or stops at its error. */
  lemma FillNext(ks: seq<Value>, rs: seq<Result<seq<Pair>>>, n: nat, assets: seq<Pair>)
    requires n < |ks| == |rs| && Fill(ks, rs, n) == Ok(assets)
    ensures Fill(ks, rs, n + 1) == if rs[n].Ok? then Ok(Put(assets, ks[n], Hash(rs[n].value))) else Err(rs[n].error)
  {
  }

  /** Every key filled so far has its entry. */
  lemma {:induction false} FillKeyed(ks: seq<Value>, rs: seq<Result<seq<Pair>>>, n: nat, assets: seq<Pair>)
    requires n <= |ks| == |rs| && Fill(ks, rs, n) == Ok(assets)
    ensures forall i | 0 <= i < n :: HasKey(assets, ks[i])
  {
    if n > 0 {
      FillStep(ks, rs, n, assets);
      var prev := Fill(ks, rs, n - 1).value;
      FillKeyed(ks, rs, n - 1, prev);
      PutKeepsKeys(prev, ks[n - 1], Hash(rs[n - 1].value), ks[..n - 1]);
      forall i | 0 <= i < n
        ensures HasKey(assets, ks[i])
      {
        if i < n - 1 {
          assert ks[..n - 1][i] == ks[i];
        }
      }
    }
  }

  /** The key filled last has its own entry. */
  lemma LastEntry(ks: seq<Value>, rs: seq<Result<seq<Pair>>>, n: nat, assets: seq<Pair>)
    requires 0 < n <= |ks| == |rs| && Fill(ks, rs, n) == Ok(assets)
    ensures At(assets, ks[n - 1]) == Hash(rs[n - 1].value)
  {
    FillStep(ks, rs, n, assets);
    PutGetSame(Fill(ks, rs, n - 1).value, ks[n - 1], Hash(rs[n - 1].value));
  }

  /** Every entry of the table belongs to a key filled so far. */
  lemma {:induction false} FillOnlyKeys(ks: seq<Value>, rs: seq<Result<seq<Pair>>>, n: nat, assets: seq<Pair>)
    requires n <= |ks| == |rs| && Fill(ks, rs, n) == Ok(assets)
    ensures forall p | p in assets :: p.key in ks[..n]
  {
    if n > 0 {
      FillStep(ks, rs, n, assets);
      var prev := Fill(ks, rs, n - 1).value;
      FillOnlyKeys(ks, rs, n - 1, prev);
      assert ks[..n] == ks[..n - 1] + [ks[n - 1]];
      forall p | p in assets
        ensures p.key in ks[..n]
      {
        PutEntries(prev, ks[n - 1], Hash(rs[n - 1].value), p);
      }
    }
  }

  /** An entry of `Put(es, k, v)` is an entry of `es` or has key `k`. */
  lemma PutEntries(es: seq<Pair>, k: Value, v: Value, p: Pair)
    requires p in Put(es, k, v)
    ensures p in es || p.key == k
  {
  }

  /** Once filling fails, it fails with the same error to the end. */
  lemma {:induction false} FillErrStays(ks: seq<Value>, rs: seq<Result<seq<Pair>>>, n: nat, m: nat, err: Error)
    requires n <= m <= |ks| == |rs| && Fill(ks, rs, n) == Err(err)
    ensures Fill(ks, rs, m) == Err(err)
    decreases m - n
  {
    if m > n {
      FillErrStays(ks, rs, n, m - 1, err);
    }
  }

  /** An entry that failed its checks makes the whole table fail. */
  lemma FillFirstError(ks: seq<Value>, rs: seq<Result<seq<Pair>>>, i: nat)
    requires i < |ks| == |rs| && rs[i].Err?
    ensures Fill(ks, rs, |ks|).Err?
  {
    if Fill(ks, rs, i).Ok? {
      FillErrStays(ks, rs, i + 1, |ks|, rs[i].error);
    } else {
      FillErrStays(ks, rs, i, |ks|, Fill(ks, rs, i).error);
    }
  }

  /** The parameter `setup_assets` hands to Hiera: `wordpress::instances` → quoted instance → `wp_<type>s` → assets. */
  function AssetsParams(project: Value, typ: string, assets: seq<Pair>): seq<Pair>
  {
    [Pair(Str("wordpress::instances"),
      Hash([Pair(Str(Quoted(ToS(InstanceName(project)))), Hash([Pair(Str("wp_" + typ + "s"), Hash(assets))]))]))]
  }

  /** What `setup_assets` leaves in the queue once the table is filled. */
  function AssetsCalls(c: Ctx, calls: seq<Call>, typ: string, assets: seq<Pair>): seq<Call>
  {
    var withClass := calls + [HieraClasses(Str("wordpress::wpcli"))];
    if |assets| > 0 then withClass + [HieraParams(c.name, AssetsParams(c.project, typ, assets))] else withClass
  }

  /**
   * Lines 391-393: an asset's 'exclude' setting names something to exclude when it is an array
   * that is not `empty?` (the provisioner's override: some item is not nil, '' or empty) or a
   * string that is not blank once stripped.
   */
  predicate ListsExcludes(params: Value)
  {
    params.Hash? && HasKey(params.entries, Str("exclude"))
    && var x := At(params.entries, Str("exclude"));
       (x.Arr? && !IsEmpty(x)) || (x.Str? && !Blank(x.s))
  }

  /** Some asset of the hash names an exclusion. */
  predicate AnyListsExcludes(es: seq<Pair>)
  {
    exists i | 0 <= i < |es| :: ListsExcludes(es[i].val)
  }

  /** The constant line 394 subtracts; `DOA::Sync` does not define it. */
  const MissingExcludes := NameErr("DOA::Sync::DEFAULT_EXCLUDES")

  /**
   * `setup_assets(value, type)`: a non-empty hash of assets is checked and turned into Hiera
   * data and the class `wordpress::wpcli` is enqueued; then the second pass over the sync
   * objects raises NameError at the first asset that names an exclusion, since it subtracts
   * the undefined `DOA::Sync::DEFAULT_EXCLUDES`. Otherwise the table is enqueued and the
   * callback returns nil.
   */
  function SetupAssets(c: Ctx, st: St, value: Value, typ: string): (r: Result<Step>)
    ensures r.Ok? ==> r.value.value == Nil && r.value.st.provided == st.provided
    ensures !(value.Hash? && |value.entries| > 0) ==> r == Ok(Step(Nil, st))
    ensures value.Hash? && AssetsTable(value.entries).Ok? && AnyListsExcludes(value.entries) ==> r == Err(MissingExcludes)
    ensures r.Ok? ==> !(value.Hash? && AnyListsExcludes(value.entries))
  {
    if value.Hash? && |value.entries| > 0 then
      var assets :- AssetsTable(value.entries);
      if AnyListsExcludes(value.entries) then Err(MissingExcludes)
      else Ok(Step(Nil, st.(calls := AssetsCalls(c, st.calls, typ, assets))))
    else Ok(Step(Nil, st))
  }

  /** An asset whose settings pass the checks but name an exclusion makes the whole call raise NameError. */
  lemma SetupAssetsExcludeRaises(c: Ctx, st: St, es: seq<Pair>, typ: string, i: nat)
    requires i < |es| && AssetsTable(es).Ok? && ListsExcludes(es[i].val)
    ensures SetupAssets(c, st, Hash(es), typ) == Err(MissingExcludes)
  {
  }

  /** A hash of assets that passes the checks enqueues the class and then the table, every slug in it and nothing else. */
  lemma SetupAssetsEnqueues(c: Ctx, st: St, es: seq<Pair>, typ: string, assets: seq<Pair>)
    requires |es| > 0 && AssetsTable(es) == Ok(assets) && !AnyListsExcludes(es)
    ensures SetupAssets(c, st, Hash(es), typ) == Ok(Step(Nil, st.(calls :=
      st.calls + [HieraClasses(Str("wordpress::wpcli")), HieraParams(c.name, AssetsParams(c.project, typ, assets))])))
    ensures forall i | 0 <= i < |es| :: HasKey(assets, SlugKey(es[i].key))
    ensures forall p | p in assets :: exists i | 0 <= i < |es| :: p.key == SlugKey(es[i].key)
    ensures At(assets, SlugKey(es[|es| - 1].key)) == Hash(AssetEntry(es[|es| - 1].val).value)
  {
    AssetsTableKeys(es, assets);
    NonEmptyAssetsCalls(c, st, es, typ, assets);
  }

  /** The table has an entry for each slug and no other; the last asset's slug holds that asset's entries. */
  lemma AssetsTableKeys(es: seq<Pair>, assets: seq<Pair>)
    requires |es| > 0 && AssetsTable(es) == Ok(assets)
    ensures |assets| > 0
    ensures forall i | 0 <= i < |es| :: HasKey(assets, SlugKey(es[i].key))
    ensures forall p | p in assets :: exists i | 0 <= i < |es| :: p.key == SlugKey(es[i].key)
    ensures At(assets, SlugKey(es[|es| - 1].key)) == Hash(AssetEntry(es[|es| - 1].val).value)
  {
    var ks := SlugKeys(es, |es|);
    var rs := AssetEntries(es, |es|);
    assert Fill(ks, rs, |es|) == Ok(assets);
    FillKeyed(ks, rs, |es|, assets);
    assert forall i | 0 <= i < |es| :: HasKey(assets, SlugKey(es[i].key)) by {
      forall i | 0 <= i < |es| ensures HasKey(assets, SlugKey(es[i].key)) {
        assert ks[i] == SlugKey(es[i].key);
      }
    }
    FillOnlyKeys(ks, rs, |es|, assets);
    assert ks[..|es|] == ks;
    forall p | p in assets ensures exists i | 0 <= i < |es| :: p.key == SlugKey(es[i].key) {
      var i :| 0 <= i < |ks| && ks[i] == p.key;
    }
    LastEntry(ks, rs, |es|, assets);
    assert ks[|es| - 1] == SlugKey(es[|es| - 1].key) && rs[|es| - 1] == AssetEntry(es[|es| - 1].val);
    assert HasKey(assets, ks[0]);
  }

  /** A non-empty table is enqueued after the class. */
  lemma NonEmptyAssetsCalls(c: Ctx, st: St, es: seq<Pair>, typ: string, assets: seq<Pair>)
    requires |es| > 0 && AssetsTable(es) == Ok(assets) && |assets| > 0 && !AnyListsExcludes(es)
    ensures SetupAssets(c, st, Hash(es), typ) == Ok(Step(Nil, st.(calls :=
      st.calls + [HieraClasses(Str("wordpress::wpcli")), HieraParams(c.name, AssetsParams(c.project, typ, assets))])))
  {
    var withClass := st.calls + [HieraClasses(Str("wordpress::wpcli"))];
    assert SetupAssets(c, st, Hash(es), typ) == Ok(Step(Nil, st.(calls := AssetsCalls(c, st.calls, typ, assets))));
    assert AssetsCalls(c, st.calls, typ, assets) == withClass + [HieraParams(c.name, AssetsParams(c.project, typ, assets))];
    assert withClass + [HieraParams(c.name, AssetsParams(c.project, typ, assets))]
      == st.calls + [HieraClasses(Str("wordpress::wpcli")), HieraParams(c.name, AssetsParams(c.project, typ, assets))];
  }

  /** An asset whose settings are not a hash, or whose install, activate or delete is present but not a boolean, aborts the whole call. */
  lemma SetupAssetsRejectsFlag(c: Ctx, st: St, es: seq<Pair>, typ: string, i: nat)
    requires i < |es| && (!es[i].val.Hash? || FirstBadFlag(es[i].val.entries, 0).Some?)
    ensures SetupAssets(c, st, Hash(es), typ).Err?
  {
    var rs := AssetEntries(es, |es|);
    AssetEntryChecks(es[i].val);
    FillFirstError(SlugKeys(es, |es|), rs, i);
  }

  /** The assets table, filled slug by slug; the first asset that fails its checks aborts. */
  method FillAssets(es: seq<Pair>) returns (r: Result<seq<Pair>>)
    ensures r == AssetsTable(es)
  {
    ghost var ks := SlugKeys(es, |es|);
    ghost var rs := AssetEntries(es, |es|);
    var assets: seq<Pair> := [];
    var i := 0;
    while i < |es|
      invariant 0 <= i <= |es|
      invariant Fill(ks, rs, i) == Ok(assets)
      decreases |es| - i
    {
      var e := AssetEntry(es[i].val);
      FillNext(ks, rs, i, assets);
      if e.Err? {
        FillErrStays(ks, rs, i + 1, |es|, e.error);
        return Err(e.error);
      }
      assets := Put(assets, SlugKey(es[i].key), Hash(e.value));
      i := i + 1;
    }
    return Ok(assets);
  }

  /** Lines 388-396 for one sync object: the loop over the assets stops at the first one that names an exclusion. */
  method SecondPassRaises(es: seq<Pair>) returns (raises: bool)
    ensures raises <==> AnyListsExcludes(es)
  {
    var i := 0;
    while i < |es|
      invariant 0 <= i <= |es|
      invariant forall j | 0 <= j < i :: !ListsExcludes(es[j].val)
    {
      if ListsExcludes(es[i].val) {
        return true;
      }
      i := i + 1;
    }
    return false;
  }

  /**
   * `setup_assets` on the module's state, with the second pass as a loop over the assets. When
   * that pass raises, the class `wordpress::wpcli` has already been enqueued.
   */
  method SetupAssetsIn(m: ModuleState, c: Ctx, value: Value, typ: string) returns (r: Result<Value>)
    modifies m
    ensures var f := SetupAssets(c, old(m.State()), value, typ);
      r == (if f.Ok? then Ok(Nil) else Err(f.error)) && (f.Ok? ==> m.State() == f.value.st)
    ensures SetupAssets(c, old(m.State()), value, typ) == Err(MissingExcludes) ==>
      m.State() == old(m.State()).(calls := old(m.calls) + [HieraClasses(Str("wordpress::wpcli"))])
  {
    if value.Hash? && |value.entries| > 0 {
      var es := value.entries;
      var filled := FillAssets(es);
      if filled.Err? {
        AssetsTableErr(es);
        return Err(filled.error);
      }
      var assets := filled.value;
      var withClass := m.calls + [HieraClasses(Str("wordpress::wpcli"))];
      m.calls := withClass;
      var raises := SecondPassRaises(es);
      if raises {
        return Err(MissingExcludes);
      }
      if |assets| > 0 {
        m.calls := withClass + [HieraParams(c.name, AssetsParams(c.project, typ, assets))];
      }
    }
    return Ok(Nil);
  }

  // ----- add_excludes -----

  /** One pre-sync directory: where it goes and the patterns rsync leaves out. */
  datatype DirSync = DirSync(to: string, exclude: seq<Value>)

  /** The pre-sync directories of one sync object, keyed by the escaped source path. */
  class Presync {
    var dirs: map<string, DirSync>

    constructor()
      ensures dirs == map[]
    {
      dirs := map[];
    }

    /**
     * `add_excludes(sync, excludes)`: the patterns are appended to the directory of the escaped
     * source path, which is created (with the escaped target path) when it is new.
     */
    method AddExcludes(fromOs: string, fromPath: string, toOs: string, toPath: string, excludes: seq<Value>)
      modifies this
      ensures var key := Escape(fromOs, fromPath, true);
        dirs == old(dirs)[key := if key in old(dirs) then old(dirs)[key].(exclude := old(dirs)[key].exclude + excludes)
                                 else DirSync(Escape(toOs, toPath, false), excludes)]
    {
      var key := Escape(fromOs, fromPath, true);
      if key in dirs {
        dirs := dirs[key := dirs[key].(exclude := dirs[key].exclude + excludes)];
      } else {
        dirs := dirs[key := DirSync(Escape(toOs, toPath, false), excludes)];
      }
    }
  }

  /** Two calls for the same source path keep the first target and both lists of patterns, in order. */
  method AddExcludesTwice(p: Presync, fromOs: string, fromPath: string, toOs: string, toPath: string,
                          toPath2: string, a: seq<Value>, b: seq<Value>)
    requires Escape(fromOs, fromPath, true) !in p.dirs
    modifies p
    ensures Escape(fromOs, fromPath, true) in p.dirs
    ensures p.dirs[Escape(fromOs, fromPath, true)] == DirSync(Escape(toOs, toPath, false), a + b)
  {
    p.AddExcludes(fromOs, fromPath, toOs, toPath, a);
    p.AddExcludes(fromOs, fromPath, toOs, toPath2, b);
  }
}
