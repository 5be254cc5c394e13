/**
 * The shared part of every Puppet module class (`PuppetModule`) and the lookups of the tools
 * module built on it: the default a schema entry gives for the current environment and
 * platform, the tiered lookup of a setting, `process_version` and `empty`. The calls into the
 * provisioner (`Puppet.enqueue_*`) are recorded in an append-only log.
 */
module Puppet {
  import opened Strings
  import opened Values
  import opened Outcome
  import opened Hashes
  import opened Patterns
  import opened Validators

  /** One call to a `Puppet.enqueue_*` method, in the order they were made. */
  datatype Call =
    | LibrarianMods(mods: Value)
    | HieraClasses(classes: Value)
    | HieraParams(sw: string, params: seq<Pair>)
    | PuppetfileMods(forgeMods: seq<string>)
    | Relationship(subject: string, rel: seq<Pair>)
    | SiteContent(content: string)
    | SwStackEnsure(software: string, ensure: string)
    | RepoApt(name: string, params: seq<Pair>, rel: seq<Pair>)

  /** `DOA::Guest.env` (a symbol such as `:dev`) and the guest's `os_family`, `os_distro`, `os_distro_ver`. */
  datatype Platform = Platform(env: string, family: string, distro: string, release: string)

  /**
   * What a module class reads but never changes while it resolves: the validators taken as
   * given, the platform, its label (`name`), the current project, its schema, its allowed branches,
   * the current project's stack, the machine's stack and the guest's memory.
   */
  datatype Ctx = Ctx(
    lib: Library,
    platform: Platform,
    name: string,
    project: Value,
    supported: seq<Pair>,
    allowBranch: Option<seq<Value>>,
    currentStack: Value,
    machineStack: Value)

  /** The class variables a module changes: `@provided`, `@branch`, `@version`, `@req_branches`, and the calls made. */
  datatype St = St(provided: Value, branch: Value, version: Value, reqBranches: seq<Value>, calls: seq<Call>)

  datatype Step = Step(value: Value, st: St)

  /** The class variables of one module class, changed in place by its callbacks. */
  class ModuleState {
    var provided: Value
    var branch: Value
    var version: Value
    var reqBranches: seq<Value>
    var calls: seq<Call>

    function State(): St
      reads this
    {
      St(provided, branch, version, reqBranches, calls)
    }

    constructor(st: St)
      ensures State() == st
    {
      provided, branch, version, reqBranches, calls := st.provided, st.branch, st.version, st.reqBranches, st.calls;
    }

    method Load(st: St)
      modifies this
      ensures State() == st
    {
      provided, branch, version, reqBranches, calls := st.provided, st.branch, st.version, st.reqBranches, st.calls;
    }
  }

  /**
   * The three-argument `recursive_get(keys, default, ...)` the resolver calls is not part of
   * this model; it is read as "follow the keys through nested hashes, nil where a key is
   * missing or a step is not a hash".
   */
  function Lookup(v: Value, keys: seq<Value>): (r: Value)
    ensures |keys| == 0 ==> r == v
    decreases |keys|
  {
    if |keys| == 0 then v
    else if !v.Hash? || !HasKey(v.entries, keys[0]) then Nil
    else Lookup(At(v.entries, keys[0]), keys[1..])
  }

  /** One more key reads one level further down. */
  lemma {:induction false} LookupSnoc(v: Value, keys: seq<Value>, k: Value)
    ensures Lookup(v, keys + [k]) ==
      var p := Lookup(v, keys);
      if p.Hash? && HasKey(p.entries, k) then At(p.entries, k) else Nil
    decreases |keys|
  {
    if |keys| > 0 {
      assert (keys + [k])[1..] == keys[1..] + [k];
      if v.Hash? && HasKey(v.entries, keys[0]) {
        LookupSnoc(At(v.entries, keys[0]), keys[1..], k);
      }
    } else {
      assert ([] + [k])[1..] == [];
    }
  }

  // ----- get_default_value -----

  const DoaDef: Value := Sym("doa_def")
  const ModDef: Value := Sym("mod_def")

  /** `config[:expect]` names `:hash_values`, alone or in a list. */
  predicate ExpectsHashValues(cfg: seq<Pair>)
  {
    var e := At(cfg, Sym("expect"));
    (!e.Arr? && e == Sym("hash_values")) || (e.Arr? && Sym("hash_values") in e.items)
  }

  /** `def_val` and `config_os` after the first part of `get_default_value`. */
  datatype Choice = Choice(defVal: Value, configOs: Value)

  function FirstChoice(cfg: seq<Pair>, typ: Value, p: Platform): Choice
  {
    var entry := At(cfg, typ);
    // The preset reads the key 'default' of the entry itself, not of the typed map.
    var preset := if HasKey(cfg, typ) && entry.Hash? && HasKey(entry.entries, Str("default")) then At(cfg, Str("default")) else Nil;
    var env := Sym(p.env);
    var fam := Str(p.family);
    if !HasKey(cfg, typ) then Choice(preset, Nil)
    else if !entry.Hash? then Choice(entry, Nil)
    else if HasKey(entry.entries, env) then
      var byEnv := At(entry.entries, env);
      if !byEnv.Hash? then Choice(byEnv, Nil)
      // The family map is read from the typed map, one level above the environment's map.
      else if HasKey(byEnv.entries, fam) then Choice(preset, At(entry.entries, fam))
      else if ExpectsHashValues(cfg) then Choice(byEnv, Nil)
      else Choice(preset, Nil)
    else if HasKey(entry.entries, fam) then Choice(preset, entry)
    else Choice(entry, Nil)
  }

  /** The descent family -> distribution -> distribution version; a missing level gives nil. */
  function PlatformValue(configOs: Value, p: Platform): Result<Value>
  {
    var byFam :- Index(configOs, p.family);
    if !byFam.Hash? then Ok(byFam)
    else if !HasKey(byFam.entries, Str(p.distro)) then Ok(Nil)
    else
      var byDistro := At(byFam.entries, Str(p.distro));
      if !byDistro.Hash? then Ok(byDistro)
      else if !HasKey(byDistro.entries, Str(p.release)) || At(byDistro.entries, Str(p.release)).Hash? then Ok(Nil)
      else Ok(At(byDistro.entries, Str(p.release)))
  }

  /** `get_default_value(config, type)`. */
  function GetDefaultValue(cfg: seq<Pair>, typ: Value, p: Platform): (r: Result<Value>)
    ensures !HasKey(cfg, typ) && !HasKey(cfg, Str("default")) ==> r == Ok(Nil)
  {
    var ch := FirstChoice(cfg, typ, p);
    if ch.defVal != Nil || ch.configOs == Nil then Ok(ch.defVal)
    else PlatformValue(ch.configOs, p)
  }

  /** A default that is not a map is returned unchanged. */
  lemma PlainDefault(cfg: seq<Pair>, typ: Value, p: Platform)
    requires HasKey(cfg, typ) && !At(cfg, typ).Hash?
    ensures GetDefaultValue(cfg, typ, p) == Ok(At(cfg, typ))
  {
  }

  /** A map keyed by the current environment gives that environment's plain entry. */
  lemma EnvironmentEntry(cfg: seq<Pair>, typ: Value, p: Platform)
    requires HasKey(cfg, typ) && At(cfg, typ).Hash?
    requires HasKey(At(cfg, typ).entries, Sym(p.env))
    requires !At(At(cfg, typ).entries, Sym(p.env)).Hash?
    ensures GetDefaultValue(cfg, typ, p) == Ok(At(At(cfg, typ).entries, Sym(p.env)))
  {
  }

  /**
   * A map keyed by OS family descends family -> distribution -> version down to the deepest
   * plain value, and gives nil at a missing distribution or version.
   */
  lemma PlatformDescent(cfg: seq<Pair>, typ: Value, p: Platform)
    requires HasKey(cfg, typ) && At(cfg, typ).Hash? && !HasKey(cfg, Str("default"))
    requires !HasKey(At(cfg, typ).entries, Sym(p.env)) && HasKey(At(cfg, typ).entries, Str(p.family))
    ensures var fam := At(At(cfg, typ).entries, Str(p.family));
      GetDefaultValue(cfg, typ, p) == (
        if !fam.Hash? then Ok(fam)
        else if !HasKey(fam.entries, Str(p.distro)) then Ok(Nil)
        else
          var d := At(fam.entries, Str(p.distro));
          if !d.Hash? then Ok(d)
          else if HasKey(d.entries, Str(p.release)) && !At(d.entries, Str(p.release)).Hash? then Ok(At(d.entries, Str(p.release)))
          else Ok(Nil))
  {
  }

  /** A family the map does not list gets the whole map back: its 'default' entry is never read. */
  lemma UnlistedFamilyGetsWholeMap(cfg: seq<Pair>, typ: Value, p: Platform)
    requires HasKey(cfg, typ) && At(cfg, typ).Hash?
    requires !HasKey(At(cfg, typ).entries, Sym(p.env)) && !HasKey(At(cfg, typ).entries, Str(p.family))
    ensures GetDefaultValue(cfg, typ, p) == Ok(At(cfg, typ))
  {
  }

  /**
   * An environment map that is itself keyed by family is not descended into: the family is
   * looked up in the typed map above it, and when that map does not list the family the
   * default is nil.
   */
  lemma EnvironmentFamilyReadsTypedMap(cfg: seq<Pair>, typ: Value, p: Platform)
    requires HasKey(cfg, typ) && At(cfg, typ).Hash? && !HasKey(cfg, Str("default"))
    requires HasKey(At(cfg, typ).entries, Sym(p.env))
    requires At(At(cfg, typ).entries, Sym(p.env)).Hash?
    requires HasKey(At(At(cfg, typ).entries, Sym(p.env)).entries, Str(p.family))
    requires !HasKey(At(cfg, typ).entries, Str(p.family))
    ensures GetDefaultValue(cfg, typ, p) == Ok(Nil)
  {
  }

  // ----- get_puppet_mod_def_value -----

  /** One pass of the key loop: descend into the entry, or its `:children_hash`, or its `:children`. */
  function ModDefStep(recursion: Value, key: Value, last: Value): Result<Value>
  {
    if recursion.Hash? && HasKey(recursion.entries, key) then
      var entry := At(recursion.entries, key);
      if key == last then Ok(entry)
      else
        var hasHash :- HasKeyOf(entry, Sym("children_hash"));
        if hasHash then Ok(At(entry.entries, Sym("children_hash")))
        else Ok(At(entry.entries, Sym("children")))
    else Ok(Nil)
  }

  function ModDefWalk(recursion: Value, keys: seq<Value>, i: nat, last: Value): Result<Value>
    requires i <= |keys|
    decreases |keys| - i
  {
    if i == |keys| then Ok(recursion)
    else
      var next :- ModDefStep(recursion, keys[i], last);
      ModDefWalk(next, keys, i + 1, last)
  }

  /** `Tools.get_puppet_mod_def_value(mod, keys, type)` over the module's schema. */
  function ModDefValue(supported: seq<Pair>, keys: seq<Value>, typ: Value, p: Platform): Result<Value>
  {
    var entry :- ModDefWalk(Hash(supported), keys, 0, Last(keys));
    if entry.Nil? then Ok(Nil)
    else if !entry.Hash? then Err(NoMethod("has_key?"))
    else GetDefaultValue(entry.entries, typ, p)
  }

  /** The loop of `get_puppet_mod_def_value`, reassigning `recursion` key by key. */
  method ModDefValueOf(supported: seq<Pair>, keys: seq<Value>, typ: Value, p: Platform) returns (r: Result<Value>)
    ensures r == ModDefValue(supported, keys, typ, p)
  {
    var last := Last(keys);
    var recursion := Hash(supported);
    var i := 0;
    while i < |keys|
      invariant 0 <= i <= |keys|
      invariant ModDefWalk(Hash(supported), keys, 0, last) == ModDefWalk(recursion, keys, i, last)
      decreases |keys| - i
    {
      var key := keys[i];
      if recursion.Hash? && HasKey(recursion.entries, key) {
        var entry := At(recursion.entries, key);
        if key == last {
          recursion := entry;
        } else if !entry.Hash? {
          return Err(NoMethod("has_key?"));
        } else if HasKey(entry.entries, Sym("children_hash")) {
          recursion := At(entry.entries, Sym("children_hash"));
        } else {
          recursion := At(entry.entries, Sym("children"));
        }
      } else {
        recursion := Nil;
      }
      i := i + 1;
    }
    if recursion.Nil? {
      return Ok(Nil);
    }
    if !recursion.Hash? {
      return Err(NoMethod("has_key?"));
    }
    r := GetDefaultValue(recursion.entries, typ, p);
  }

  /** A top-level key reaches its own schema entry. */
  lemma ModDefValueTopLevel(supported: seq<Pair>, k: Value, typ: Value, p: Platform)
    requires HasKey(supported, k) && At(supported, k).Hash?
    ensures ModDefValue(supported, [k], typ, p) == GetDefaultValue(At(supported, k).entries, typ, p)
  {
    assert ModDefStep(Hash(supported), k, k) == Ok(At(supported, k));
    assert ModDefWalk(Hash(supported), [k], 0, k) == ModDefWalk(At(supported, k), [k], 1, k);
  }

  /** A key below a group reaches the entry inside the group's `:children`. */
  lemma ModDefValueInGroup(supported: seq<Pair>, g: Value, k: Value, typ: Value, p: Platform)
    requires g != k && HasKey(supported, g) && At(supported, g).Hash?
    requires !HasKey(At(supported, g).entries, Sym("children_hash"))
    requires var ch := At(At(supported, g).entries, Sym("children"));
      ch.Hash? && HasKey(ch.entries, k) && At(ch.entries, k).Hash?
    ensures ModDefValue(supported, [g, k], typ, p)
      == GetDefaultValue(At(At(At(supported, g).entries, Sym("children")).entries, k).entries, typ, p)
  {
    var ch := At(At(supported, g).entries, Sym("children"));
    assert ModDefStep(Hash(supported), g, k) == Ok(ch);
    assert ModDefStep(ch, k, k) == Ok(At(ch.entries, k));
    assert ModDefWalk(Hash(supported), [g, k], 0, k) == ModDefWalk(ch, [g, k], 1, k);
    assert ModDefWalk(ch, [g, k], 1, k) == ModDefWalk(At(ch.entries, k), [g, k], 2, k);
  }

  /** A path whose first key the schema lacks has no default. */
  lemma ModDefValueUnknownKey(supported: seq<Pair>, keys: seq<Value>, typ: Value, p: Platform)
    requires |keys| > 0 && !HasKey(supported, keys[0])
    ensures ModDefValue(supported, keys, typ, p) == Ok(Nil)
  {
    ModDefWalkFromNil(keys, 1, Last(keys));
  }

  lemma {:induction false} ModDefWalkFromNil(keys: seq<Value>, i: nat, last: Value)
    requires i <= |keys|
    ensures ModDefWalk(Nil, keys, i, last) == Ok(Nil)
    decreases |keys| - i
  {
    if i < |keys| {
      ModDefWalkFromNil(keys, i + 1, last);
    }
  }

  // ----- get_puppet_mod_prioritized_def_value -----

  /** `path - ['*']`. */
  function WithoutStar(path: seq<Value>): (r: seq<Value>)
    ensures forall i | 0 <= i < |r| :: r[i] != Star && r[i] in path
    ensures forall i | 0 <= i < |path| && path[i] != Star :: path[i] in r
  {
    if |path| == 0 then []
    else if path[0] == Star then WithoutStar(path[1..])
    else [path[0]] + WithoutStar(path[1..])
  }

  /**
   * `Tools.get_puppet_mod_prioritized_def_value(path, mod)`: the current project's stack, then
   * the machine's stack, then the schema's `:doa_def`, then its `:mod_def`.
   */
  function Prioritized(c: Ctx, supported: seq<Pair>, path: seq<Value>): Result<Value>
  {
    var v1 :- PathValue(c.currentStack, path);
    var v2 :- if IsEmpty(v1) then PathValue(c.machineStack, path) else Ok(v1);
    var filtered := WithoutStar(path);
    var v3 :- if IsEmpty(v2) then ModDefValue(supported, filtered, DoaDef, c.platform) else Ok(v2);
    if IsEmpty(v3) then ModDefValue(supported, filtered, ModDef, c.platform) else Ok(v3)
  }

  /** The first non-empty of four candidates, the last one whatever it is. */
  function FirstNonEmpty(a: Value, b: Value, d: Value, m: Value): (r: Value)
    ensures r == a || r == b || r == d || r == m
    ensures !IsEmpty(a) ==> r == a
    ensures IsEmpty(a) && !IsEmpty(b) ==> r == b
    ensures IsEmpty(a) && IsEmpty(b) && !IsEmpty(d) ==> r == d
    ensures IsEmpty(a) && IsEmpty(b) && IsEmpty(d) ==> r == m
  {
    if !IsEmpty(a) then a else if !IsEmpty(b) then b else if !IsEmpty(d) then d else m
  }

  /**
   * When no lookup raises, the tiered lookup is the first non-empty of the four sources, the
   * schema ones looked up with every '*' dropped from the path.
   */
  lemma PrioritizedOrder(c: Ctx, supported: seq<Pair>, path: seq<Value>)
    requires PathValue(c.currentStack, path).Ok? && PathValue(c.machineStack, path).Ok?
    requires ModDefValue(supported, WithoutStar(path), DoaDef, c.platform).Ok?
    requires ModDefValue(supported, WithoutStar(path), ModDef, c.platform).Ok?
    ensures Prioritized(c, supported, path) == Ok(FirstNonEmpty(
      PathValue(c.currentStack, path).value, PathValue(c.machineStack, path).value,
      ModDefValue(supported, WithoutStar(path), DoaDef, c.platform).value,
      ModDefValue(supported, WithoutStar(path), ModDef, c.platform).value))
  {
  }

  /** A non-empty value in the current stack wins without the other sources being read. */
  lemma PrioritizedCurrentFirst(c: Ctx, supported: seq<Pair>, path: seq<Value>)
    requires PathValue(c.currentStack, path).Ok? && !IsEmpty(PathValue(c.currentStack, path).value)
    ensures Prioritized(c, supported, path) == PathValue(c.currentStack, path)
  {
  }

  // ----- process_version -----

  /** The text `=~` and `match` see: a string's or a symbol's. */
  function Text(v: Value): Result<string>
  {
    if HasText(v) then Ok(TextOf(v)) else Err(NoMethod("match"))
  }

  /** `@branch` as `process_version` derives it from the value. */
  function VersionBranch(value: Value): (r: Result<Value>)
    ensures value.Str? && SemverBranch(value.s) ==> r == Ok(Str(DropX(value.s)))
    ensures !ValidSemverBranch(value) && !ValidSemverVersion(value) ==> r == Ok(value)
  {
    if ValidSemverBranch(value) then
      if value.Str? then Ok(Str(DropX(value.s))) else Err(NoMethod("gsub"))
    else if ValidSemverVersion(value) then
      match SemverMinor(TextOf(value))
        case None => Err(NoMethod("captures"))
        case Some(m) => Ok(Str(m))
    else Ok(value)
  }

  /**
   * `@version`: the RGX_SEMVER capture with 'X' lowered. A value RGX_SEMVER does not match
   * (among them a version with a pre-release and no build metadata) raises.
   */
  function VersionOf(value: Value): (r: Result<string>)
    ensures r.Ok? ==> value.Str? || value.Sym?
    ensures r.Ok? ==> r.value == LowerX(TextOf(value)) && SemverAsWritten(TextOf(value)) && TextOf(value) != ""
    ensures HasText(value) && !SemverAsWritten(TextOf(value)) ==> r == Err(NoMethod("captures"))
  {
    var t :- Text(value);
    if !SemverAsWritten(t) then Err(NoMethod("captures"))
    else if t == "" then Err(NoMethod("gsub"))
    else Ok(LowerX(t))
  }

  function Quoted(s: string): string { "'" + s + "'" }

  /** `@provided['ensure'] = ...` on the module's settings hash. */
  function SetEnsure(provided: Value, ensure: Value): Result<Value>
  {
    if provided.Hash? then Ok(Hash(Put(provided.entries, Str("ensure"), ensure)))
    else Err(NoMethod("[]="))
  }

  /**
   * `process_version(value, classname)`: derive the branch, check it against the allowed
   * branches, and for a value set `ensure` (held, unless branch and version coincide) and
   * enqueue `<classname>::version`. It always returns nil.
   */
  function ProcessVersion(c: Ctx, st: St, value: Value, classname: string): (r: Result<Step>)
    ensures r.Ok? ==> r.value.value == Nil
    ensures r.Ok? && value == Nil ==> r.value.st == st.(branch := Nil)
    ensures r.Ok? ==> |st.calls| <= |r.value.st.calls| <= |st.calls| + 1 && r.value.st.calls[..|st.calls|] == st.calls
  {
    var branch :- VersionBranch(value);
    var st1 := st.(branch := branch);
    if c.allowBranch.Some? && branch !in c.allowBranch.value then Err(NotSupportedBranch(value))
    else if value == Nil then Ok(Step(Nil, st1))
    else
      var version :- VersionOf(value);
      var ensure :- if branch != Str(version) then Ok(Str("held"))
        else
          var cfg := At(c.supported, Str("ensure"));
          if cfg.Hash? then GetDefaultValue(cfg.entries, DoaDef, c.platform) else Err(NoMethod("has_key?"));
      var provided :- SetEnsure(st.provided, ensure);
      Ok(Step(Nil, st1.(version := Str(version), provided := provided,
        calls := st.calls + [HieraParams(c.name, [Pair(Str(classname + "::version"), Str(Quoted(version)))])])))
  }

  /** Dropping the '.x' of a branch shortens it. */
  lemma {:induction false} DropXShortens(s: string, i: nat)
    requires i + 2 <= |s| && XSuffixAt(s[i..])
    ensures |DropX(s)| + 2 <= |s|
    decreases |s|
  {
    if XSuffixAt(s) {
      assert |DropX(s[2..])| <= |s[2..]|;
    } else {
      assert i > 0;
      assert s[1..][i - 1..] == s[i..];
      DropXShortens(s[1..], i - 1);
    }
  }

  /** A branch ends in '.x' or '.X'. */
  lemma BranchEndsInX(s: string)
    requires SemverBranch(s)
    ensures |s| >= 2 && XSuffixAt(s[|s| - 2..])
  {
    var parts := SplitAll(s, ".");
    SplitAllLast(s, ".");
    var last := parts[|parts| - 1];
    assert IsX(last);
    assert s[|s| - 1..] == last;
    assert s[|s| - 2..|s| - 1] == ".";
  }

  /**
   * A specific version RGX_SEMVER matches or a '.x' branch, with no allow list or an allow
   * list naming its branch, sets `ensure` to 'held' and enqueues `<classname>::version` with
   * the quoted version.
   */
  lemma ProcessVersionHolds(c: Ctx, st: St, s: string, classname: string)
    requires SemverBranch(s) || (SemverVersion(s) && SemverMinor(s).Some? && SemverAsWritten(s))
    requires st.provided.Hash?
    requires VersionBranch(Str(s)).Ok?
    requires c.allowBranch.None? || VersionBranch(Str(s)).value in c.allowBranch.value
    ensures var r := ProcessVersion(c, st, Str(s), classname);
      r.Ok? && r.value.value == Nil
      && r.value.st.provided == Hash(Put(st.provided.entries, Str("ensure"), Str("held")))
      && r.value.st.version == Str(LowerX(s))
      && r.value.st.calls == st.calls + [HieraParams(c.name, [Pair(Str(classname + "::version"), Str(Quoted(LowerX(s))))])]
  {
    BranchShorter(s);
    assert s != "" && SemverAsWritten(s);
    assert VersionOf(Str(s)) == Ok(LowerX(s));
    var b := VersionBranch(Str(s)).value;
    assert b != Str(LowerX(s));
  }

  /**
   * Line 300 as written: a semantic version RGX_SEMVER does not match (a pre-release without
   * build metadata, such as '1.2.3-rc') passes the format check and the branch check, and then
   * raises on `captures` of the failed match.
   */
  lemma ProcessVersionRaisesUncaptured(c: Ctx, st: St, s: string, classname: string)
    requires SemverVersion(s) && !SemverAsWritten(s)
    requires VersionBranch(Str(s)).Ok?
    requires c.allowBranch.None? || VersionBranch(Str(s)).value in c.allowBranch.value
    ensures ProcessVersion(c, st, Str(s), classname) == Err(NoMethod("captures"))
  {
  }

  /** The branch of a version or a '.x' branch is shorter than the text it comes from. */
  lemma BranchShorter(s: string)
    requires SemverBranch(s) || (SemverVersion(s) && SemverMinor(s).Some?)
    requires VersionBranch(Str(s)).Ok?
    ensures VersionBranch(Str(s)).value.Str? && |VersionBranch(Str(s)).value.s| < |s|
  {
    if SemverBranch(s) {
      BranchEndsInX(s);
      DropXShortens(s, |s| - 2);
    }
  }

  /** A branch the allow list does not name aborts with NOT_SUPPORTED_BRANCH. */
  lemma ProcessVersionDisallowed(c: Ctx, st: St, value: Value, classname: string)
    requires VersionBranch(value).Ok? && c.allowBranch.Some?
    requires VersionBranch(value).value !in c.allowBranch.value
    ensures ProcessVersion(c, st, value, classname) == Err(NotSupportedBranch(value))
  {
  }

  /** `empty(value)`: a callback that swallows its value. */
  function Empty(value: Value): (r: Value)
    ensures r == Nil
  {
    Nil
  }
}
