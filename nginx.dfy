/**
 * The Nginx module class: part of its `@supported` schema as data, `set_hiera_param`, and the
 * machine-level `custom_setup` that groups the WordPress projects by install directory and
 * enqueues one PHP upstream, the phpMyAdmin virtual host and one virtual host per directory.
 */
module Nginx {
  import opened Values
  import opened Outcome
  import opened Strings
  import opened Puppet
  import opened Schema
  import opened Validators
  import opened Resolver
  import opened CheckGet
  import Hashes
  import Patterns
  import Wordpress
  import Yaml

  const ClassName := "DOA::Provisioner::Puppet::Nginx"

  /** `DOA::Setting::SW_PHP` and `DOA::Setting::SW_WP`. */
  const SwPhp := "php"
  const SwWp := "wordpress"

  /** `DEF_WWW_ROOT`. */
  const DefWwwRoot := "/var/www/public"

  /** The `:maps_to` of 'vhosts', 'locations' and 'upstreams'. */
  const VhostsMap := "nginx::nginx_vhosts"
  const LocationsMap := "nginx::nginx_locations"
  const UpstreamsMap := "nginx::nginx_upstreams"

  // ----- the schema entries this model transcribes -----

  function Expecting(tag: string): Pair { Opt("expect", Arr([Sym(tag)])) }

  function GzipEntry(): Pair
  {
    Entry("gzip", [Expecting("flag"), Opt("maps_to", Str("nginx::gzip")), Opt("mod_def", Str("on"))])
  }

  function PackageEnsureEntry(): Pair
  {
    Entry("ensure", [Expecting("puppet_interpolable_string"),
                     Opt("allow", Arr([Str("absent"), Str("purged"), Str("present"), Str("installed"), Str("latest"), Str("held")])),
                     Opt("maps_to", Str("nginx::package_ensure")),
                     Opt("mod_def", Str("present")),
                     Opt("doa_def", StrByEnv("latest", "latest", "present"))])
  }

  /** The children of 'package'. */
  function PackageChildren(): seq<Pair>
  {
    [PackageEnsureEntry(),
     Entry("name", [Expecting("puppet_interpolable_string"), Opt("maps_to", Str("nginx::package_name")),
                    Opt("mod_def", Hash([Pair(Str("default"), Str("nginx")), Pair(Str("gentoo"), Str("www-servers/nginx")),
                                         Pair(Str("solaris"), Nil)]))]),
     Entry("source", [Expecting("puppet_interpolable_string"), Opt("maps_to", Str("nginx::package_source")), Opt("mod_def", Str("nginx"))]),
     Entry("flavor", [Expecting("puppet_interpolable_string"), Opt("maps_to", Str("nginx::package_flavor"))])]
  }

  /** The children of 'service'. */
  function ServiceChildren(): seq<Pair>
  {
    [Entry("configtest_enable", [Expecting("boolean"), Opt("maps_to", Str("nginx::configtest_enable")), Opt("mod_def", Str("false"))]),
     Entry("ensure", [Expecting("puppet_interpolable_string"), Opt("allow", Arr([Str("running"), Str("stopped"), Str("absent")])),
                      Opt("maps_to", Str("nginx::service_ensure")), Opt("mod_def", Str("running"))]),
     Entry("flags", [Expecting("puppet_interpolable_string"), Opt("maps_to", Str("nginx::service_flags"))]),
     Entry("name", [Expecting("puppet_interpolable_string"), Opt("maps_to", Str("nginx::service_name")), Opt("mod_def", Str("nginx"))]),
     Entry("restart", [Expecting("puppet_interpolable_string"), Opt("maps_to", Str("nginx::service_restart")),
                       Opt("mod_def", Str("/etc/init.d/nginx configtest && /etc/init.d/nginx restart"))])]
  }

  function PackageEntry(): Pair { Entry("package", [Opt("children", Hash(PackageChildren()))]) }

  function ServiceEntry(): Pair { Entry("service", [Opt("children", Hash(ServiceChildren()))]) }

  /** The entries 'gzip', 'package' and 'service' of `@supported`, as written. */
  function SchemaPart(): seq<Pair>
  {
    [GzipEntry(), PackageEntry(), ServiceEntry()]
  }

  // ----- lookups in the transcribed schema -----

  lemma PackageInSchema()
    ensures At(SchemaPart(), Str("package")) == PackageEntry().val
  {
  }

  lemma ServiceInSchema()
    ensures At(SchemaPart(), Str("service")) == ServiceEntry().val
  {
    assert Find(SchemaPart(), Str("service")) == Some(2);
  }

  lemma EnsureInPackage()
    ensures At(PackageEntry().val.entries, KChildren) == Hash(PackageChildren())
    ensures At(PackageChildren(), Str("ensure")) == PackageEnsureEntry().val
  {
  }

  lemma EnsureInService()
    ensures At(ServiceEntry().val.entries, KChildren) == Hash(ServiceChildren())
    ensures At(ServiceChildren(), Str("ensure")) == ServiceChildren()[1].val
  {
    FindAt(ServiceEntry().val.entries, KChildren, 0);
    assert ServiceChildren()[0].key != Str("ensure");
    FindAt(ServiceChildren(), Str("ensure"), 1);
  }

  /** 'package' and 'service' are groups: neither carries a default of its own. */
  lemma GroupsHaveNoDefault()
    ensures !HasKey(PackageEntry().val.entries, DoaDef) && !HasKey(PackageEntry().val.entries, ModDef)
    ensures !HasKey(PackageEntry().val.entries, Str("default"))
  {
  }

  lemma PackageEnsureMapsTo()
    ensures Find(PackageEnsureEntry().val.entries, KMapsTo) == Some(2)
  {
  }

  lemma PackageEnsureDoaDef()
    ensures Find(PackageEnsureEntry().val.entries, DoaDef) == Some(4)
  {
  }

  lemma PackageEnsureOptions()
    ensures var cfg := PackageEnsureEntry().val.entries;
      HasKey(cfg, KMapsTo) && At(cfg, KMapsTo) == Str("nginx::package_ensure")
      && At(cfg, DoaDef) == StrByEnv("latest", "latest", "present")
  {
    PackageEnsureMapsTo();
    PackageEnsureDoaDef();
  }

  lemma ServiceEnsureOptions()
    ensures !HasKey(ServiceChildren()[1].val.entries, DoaDef)
  {
  }

  // ----- set_hiera_param -----

  /** `v[k]` on a schema value: hashes look the key up, nil has no `[]`, other values refuse a non-integer index. */
  function Fetch(v: Value, k: Value): (r: Result<Value>)
    ensures v.Hash? <==> r.Ok?
    ensures v.Hash? ==> r.value == At(v.entries, k)
  {
    match v
      case Hash(es) => Ok(At(es, k))
      case Nil => Err(NoMethod("[]"))
      case Bool(_) => Err(NoMethod("[]"))
      case _ => Err(TypeErr("no implicit conversion into Integer"))
  }

  /** What `set_hiera_param` returns, and the calls after it. */
  datatype Hiera = Hiera(value: Value, calls: seq<Call>)

  /** The `ensure` child of the entry `yamlParam`. */
  function EnsureOf(supported: seq<Pair>, yamlParam: Value): Result<Value>
  {
    var children :- Fetch(At(supported, yamlParam), KChildren);
    Fetch(children, Str("ensure"))
  }

  /** Line 1442: whether `sw_stack[label]` lacks the key the `ensure` child maps to. */
  function EnsureMissing(swStack: seq<Pair>, swLabel: string, key: Value): Result<bool>
  {
    if !HasKey(swStack, Str(swLabel)) then Ok(true)
    else
      var has :- HasKeyOf(At(swStack, Str(swLabel)), key);
      Ok(!has)
  }

  /**
   * Lines 1442-1447: unless `sw_stack[label]` already holds the key the `ensure` child maps to,
   * enqueue the environment's `:doa_def` of that child, quoted, under its `:maps_to`.
   */
  function EnsureCall(supported: seq<Pair>, swLabel: string, swStack: seq<Pair>, p: Platform, yamlParam: Value,
                      calls: seq<Call>): (r: Result<seq<Call>>)
    ensures r.Ok? ==> (r.value == calls
      || (|r.value| == |calls| + 1 && r.value[..|calls|] == calls
          && r.value[|calls|].HieraParams? && r.value[|calls|].sw == swLabel && |r.value[|calls|].params| == 1))
  {
    var ensure :- EnsureOf(supported, yamlParam);
    var key :- Fetch(ensure, KMapsTo);
    var missing :- EnsureMissing(swStack, swLabel, key);
    if !missing then Ok(calls)
    else
      var mapsTo := if HasKey(ensure.entries, KMapsTo) then key else yamlParam;
      var byEnv :- Fetch(At(ensure.entries, DoaDef), Sym(p.env));
      assert (calls + [HieraParams(swLabel, [Pair(mapsTo, Str(Quoted(ToS(byEnv))))])])[..|calls|] == calls;
      Ok(calls + [HieraParams(swLabel, [Pair(mapsTo, Str(Quoted(ToS(byEnv))))])])
  }

  /** Lines 1449-1451: the entry's own `:doa_def` when it is truthy, else its `:mod_def`. */
  function EntryDefault(supported: seq<Pair>, yamlParam: Value, p: Platform): (r: Result<Value>)
    ensures r.Ok? ==> At(supported, yamlParam).Hash?
  {
    var entry := At(supported, yamlParam);
    if !entry.Hash? then Err(NoMethod("[]"))
    else
      var doaDef :- GetDefaultValue(entry.entries, DoaDef, p);
      var modDef :- GetDefaultValue(entry.entries, ModDef, p);
      Ok(if Truthy(doaDef) then doaDef else modDef)
  }

  /** Lines 1439-1452: `set_hiera_param(value, yaml_param)`; its `value` and `set` arguments are not read. */
  function SetHieraParam(supported: seq<Pair>, swLabel: string, swStack: seq<Pair>, p: Platform, yamlParam: Value,
                         calls: seq<Call>): Result<Hiera>
  {
    var calls' :- EnsureCall(supported, swLabel, swStack, p, yamlParam, calls);
    var v :- EntryDefault(supported, yamlParam, p);
    Ok(Hiera(v, calls'))
  }

  /** Line 1442: an `ensure` already in `sw_stack[label]` is not enqueued again. */
  lemma EnsureAlreadySet(supported: seq<Pair>, swLabel: string, swStack: seq<Pair>, p: Platform, yamlParam: Value, calls: seq<Call>)
    requires EnsureOf(supported, yamlParam).Ok? && EnsureOf(supported, yamlParam).value.Hash?
    requires EnsureMissing(swStack, swLabel, At(EnsureOf(supported, yamlParam).value.entries, KMapsTo)) == Ok(false)
    ensures EnsureCall(supported, swLabel, swStack, p, yamlParam, calls) == Ok(calls)
  {
  }

  /** Lines 1442-1446: a missing `ensure` is enqueued with the environment's `:doa_def`, quoted. */
  lemma EnsureEnqueued(supported: seq<Pair>, swLabel: string, swStack: seq<Pair>, p: Platform, yamlParam: Value, calls: seq<Call>)
    requires EnsureOf(supported, yamlParam).Ok? && EnsureOf(supported, yamlParam).value.Hash?
    requires var ensure := EnsureOf(supported, yamlParam).value.entries;
      EnsureMissing(swStack, swLabel, At(ensure, KMapsTo)) == Ok(true) && At(ensure, DoaDef).Hash?
    ensures var ensure := EnsureOf(supported, yamlParam).value.entries;
      var key := if HasKey(ensure, KMapsTo) then At(ensure, KMapsTo) else yamlParam;
      var byEnv := At(At(ensure, DoaDef).entries, Sym(p.env));
      EnsureCall(supported, swLabel, swStack, p, yamlParam, calls)
        == Ok(calls + [HieraParams(swLabel, [Pair(key, Str(Quoted(ToS(byEnv))))])])
  {
  }

  /** Line 1444: a missing `ensure` whose child has no `:doa_def` makes the lookup raise. */
  lemma EnsureWithoutDefaultRaises(supported: seq<Pair>, swLabel: string, swStack: seq<Pair>, p: Platform, yamlParam: Value, calls: seq<Call>)
    requires EnsureOf(supported, yamlParam).Ok? && EnsureOf(supported, yamlParam).value.Hash?
    requires var ensure := EnsureOf(supported, yamlParam).value.entries;
      EnsureMissing(swStack, swLabel, At(ensure, KMapsTo)) == Ok(true) && !HasKey(ensure, DoaDef)
    ensures EnsureCall(supported, swLabel, swStack, p, yamlParam, calls) == Err(NoMethod("[]"))
  {
  }

  lemma PackageEnsureShape()
    ensures EnsureOf(SchemaPart(), Str("package")) == Ok(PackageEnsureEntry().val)
  {
    PackageInSchema();
    EnsureInPackage();
  }

  /** The package ensure's `:doa_def` for each environment, nil for one it does not list. */
  lemma PackageEnsureByEnvAt(env: string)
    ensures At(StrByEnv("latest", "latest", "present").entries, Sym(env))
      == if env == "prod" then Str("present") else if env == "dev" || env == "test" then Str("latest") else Nil
  {
    var es := StrByEnv("latest", "latest", "present").entries;
    FindSpec(es, Sym(env));
  }

  /** Lines 1449-1451: 'package' is a group without defaults, so `set_hiera_param` returns nil. */
  lemma PackageDefaultNil(p: Platform)
    ensures EntryDefault(SchemaPart(), Str("package"), p) == Ok(Nil)
  {
    PackageInSchema();
    GroupsHaveNoDefault();
  }

  /**
   * Lines 352-362 and 1442-1451: on a machine whose `sw_stack` has no table for the label, the
   * package's `ensure` is enqueued as the environment's quoted default (an empty quoted string
   * for an environment the default does not list), and nil comes back.
   */
  lemma PackageEnsureByEnvironment(swLabel: string, p: Platform, calls: seq<Call>)
    ensures var ensure := if p.env == "prod" then "present" else if p.env == "dev" || p.env == "test" then "latest" else "";
      SetHieraParam(SchemaPart(), swLabel, [], p, Str("package"), calls)
        == Ok(Hiera(Nil, calls + [HieraParams(swLabel, [Pair(Str("nginx::package_ensure"), Str(Quoted(ensure)))])]))
  {
    PackageEnsureShape();
    PackageEnsureOptions();
    PackageEnsureByEnvAt(p.env);
    EnsureEnqueued(SchemaPart(), swLabel, [], p, Str("package"), calls);
    PackageDefaultNil(p);
  }

  /** Line 1444: the service's `ensure` has no `:doa_def`, so a missing service ensure makes the lookup raise. */
  lemma ServiceEnsureRaises(swLabel: string, p: Platform, calls: seq<Call>)
    ensures SetHieraParam(SchemaPart(), swLabel, [], p, Str("service"), calls) == Err(NoMethod("[]"))
  {
    ServiceInSchema();
    EnsureInService();
    ServiceEnsureOptions();
    EnsureWithoutDefaultRaises(SchemaPart(), swLabel, [], p, Str("service"), calls);
  }

  // ----- what the resolver makes of package.ensure -----

  lemma PackageEnsureNoChildren()
    ensures !HasKey(PackageEnsureEntry().val.entries, KChildren)
  {
  }

  lemma PackageEnsureNoChildrenHash()
    ensures !HasKey(PackageEnsureEntry().val.entries, KChildrenHash)
  {
  }

  lemma PackageEnsureNoCallback()
    ensures !HasKey(PackageEnsureEntry().val.entries, KCbProcess)
  {
  }

  lemma PackageEnsureModDef()
    ensures Find(PackageEnsureEntry().val.entries, ModDef) == Some(3)
  {
  }

  /** The package ensure is a leaf without a post-processing callback, whose `:mod_def` is 'present'. */
  lemma PackageEnsureStructure()
    ensures var cfg := PackageEnsureEntry().val.entries;
      IsLeaf(cfg) && !HasKey(cfg, KCbProcess) && HasKey(cfg, ModDef) && At(cfg, ModDef) == Str("present")
  {
    PackageEnsureNoChildren();
    PackageEnsureNoChildrenHash();
    PackageEnsureNoCallback();
    PackageEnsureModDef();
  }

  lemma PackageEnsureFacts(p: Platform)
    requires p.env == "dev" || p.env == "test" || p.env == "prod"
    ensures var cfg := PackageEnsureEntry().val.entries;
      IsLeaf(cfg) && !HasKey(cfg, KCbProcess)
      && GetDefaultValue(cfg, DoaDef, p) == Ok(Str(if p.env == "prod" then "present" else "latest"))
      && GetDefaultValue(cfg, ModDef, p) == Ok(Str("present"))
  {
    var cfg := PackageEnsureEntry().val.entries;
    PackageEnsureOptions();
    PackageEnsureStructure();
    PackageEnsureByEnvAt(p.env);
    FindSpec(StrByEnv("latest", "latest", "present").entries, Sym(p.env));
    EnvironmentEntry(cfg, DoaDef, p);
    PlainDefault(cfg, ModDef, p);
  }

  /** An entry expecting exactly one type: whether its values are flags or wrapped follows from that type. */
  lemma ExpectsOne(cfg: seq<Pair>, tag: string)
    requires HasKey(cfg, KExpect) && At(cfg, KExpect) == Arr([Sym(tag)])
    ensures FlagsExpected(cfg) <==> tag == "hash_flags" || tag == "hash_values"
    ensures Wrapped(cfg) <==> WrapSym(Sym(tag))
  {
    var xs := AsList(At(cfg, KExpect));
    assert xs == [Sym(tag)];
    if WrapSym(Sym(tag)) {
      assert WrapSym(xs[0]);
    }
  }

  lemma PackageEnsureExpect()
    ensures Find(PackageEnsureEntry().val.entries, KExpect) == Some(0)
    ensures PackageEnsureEntry().val.entries[0].val == Arr([Sym("puppet_interpolable_string")])
  {
  }

  /** The package ensure's `:expect` is the one tag puppet_interpolable_string. */
  lemma PackageEnsureQuoted()
    ensures var cfg := PackageEnsureEntry().val.entries;
      HasKey(cfg, KExpect) && At(cfg, KExpect) == Arr([Sym("puppet_interpolable_string")])
  {
    PackageEnsureExpect();
  }

  /** That tag is neither of the flag tags, and it is one whose value is written quoted. */
  lemma PackageEnsureUnflagged()
    ensures var cfg := PackageEnsureEntry().val.entries; !FlagsExpected(cfg) && Wrapped(cfg)
  {
    var cfg := PackageEnsureEntry().val.entries;
    var tag := "puppet_interpolable_string";
    PackageEnsureQuoted();
    assert TagNamed(tag) == Some(TPuppetInterpolableString);
    assert |tag| != |"hash_flags"| && |tag| != |"hash_values"|;
    ExpectsOne(cfg, tag);
  }

  /** The package ensure is written under nginx::package_ensure. */
  lemma PackageEnsureTarget()
    ensures MapsTo(PackageEnsureEntry().val.entries, Str("ensure")) == Ok(Str("nginx::package_ensure"))
  {
    PackageEnsureOptions();
    assert "nginx::package_ensure"[0] == 'n';
    MapsToNamed(PackageEnsureEntry().val.entries, Str("ensure"), "nginx::package_ensure");
  }

  lemma PackageEnsureWriting()
    ensures var cfg := PackageEnsureEntry().val.entries;
      !FlagsExpected(cfg) && Wrapped(cfg) && MapsTo(cfg, Str("ensure")) == Ok(Str("nginx::package_ensure"))
  {
    PackageEnsureUnflagged();
    PackageEnsureTarget();
  }

  /** Lines 352-362: in dev and test an absent package.ensure is written as 'latest' under nginx::package_ensure. */
  lemma PackageEnsureLatest(e: Env, st: St, queue: seq<Pair>)
    requires e.c.platform.env == "dev" || e.c.platform.env == "test"
    requires Lookup(st.provided, [Str("package"), Str("ensure")]) == Nil
    ensures var r := EntryAt(e, st, PackageChildren(), 0, [Str("package")], queue);
      r.Ok? && r.value.st == st && Get(r.value.queue, Str("nginx::package_ensure")) == Some(Str(Quoted("latest")))
  {
    var es := PackageChildren();
    assert es[0] == PackageEnsureEntry();
    assert [Str("package")] + [es[0].key] == [Str("package"), Str("ensure")];
    PackageEnsureFacts(e.c.platform);
    PackageEnsureWriting();
    AbsentOverridesModDef(e, st, es, 0, [Str("package")], queue, Str("latest"), Str("present"), Str("nginx::package_ensure"));
  }

  /** Lines 352-362: in prod the default is the module's own 'present', and nothing is written. */
  lemma PackageEnsureProdSilent(e: Env, st: St, queue: seq<Pair>)
    requires e.c.platform.env == "prod"
    requires Lookup(st.provided, [Str("package"), Str("ensure")]) == Nil
    ensures EntryAt(e, st, PackageChildren(), 0, [Str("package")], queue) == Ok(Resolved(queue, st))
  {
    var es := PackageChildren();
    assert es[0] == PackageEnsureEntry();
    assert [Str("package")] + [es[0].key] == [Str("package"), Str("ensure")];
    PackageEnsureFacts(e.c.platform);
    AbsentSameAsModDef(e, st, es, 0, [Str("package")], queue, Str("present"));
  }

  // ----- custom_setup: the WordPress projects, grouped by install directory -----

  /** The lookup paths of lines 1458, 1471 and 1473. */
  const SocketPath: seq<Value> := [Str(SwPhp), Str("fpm"), Str("pools"), Hashes.Star, Str("listen"), Str("socket")]
  const InstallDirPath: seq<Value> := [Str(SwWp), Str("wp"), Str("install"), Str("dir")]
  const SubdirectoryPath: seq<Value> := [Str(SwWp), Str("wp"), Str("subdirectory")]

  /** Lines 1459-1465: the PHP-FPM upstream member for the socket PHP listens on. */
  function MemberOf(socket: Value): (r: Result<string>)
    ensures r.Ok? && HasText(socket) && Patterns.Ipv4PortAsWritten(Validators.TextOf(socket)) ==> r.value == ToS(socket)
    ensures socket.Nil? ==> r == Ok("127.0.0.1:9000")
    ensures r.Ok? ==> r.value == ToS(socket) || r.value == "unix:" + ToS(socket) || r.value == "127.0.0.1:9000"
    ensures ValidIpv4Port(socket) == Ok(true) ==> r == Ok(ToS(socket))
    ensures ValidIpv4Port(socket) == Ok(false) && ValidUnixAbspath(socket) == Ok(true) ==> r == Ok("unix:" + ToS(socket))
    ensures ValidIpv4Port(socket) == Ok(false) && ValidUnixAbspath(socket) == Ok(false) ==> r == Ok("127.0.0.1:9000")
    ensures ValidIpv4Port(socket).Err? ==> r == Err(ValidIpv4Port(socket).error)
    ensures ValidIpv4Port(socket) == Ok(false) && ValidUnixAbspath(socket).Err? ==> r == Err(ValidUnixAbspath(socket).error)
  {
    var port :- ValidIpv4Port(socket);
    if port then Ok(ToS(socket))
    else
      var abs :- ValidUnixAbspath(socket);
      if abs then Ok("unix:" + ToS(socket)) else Ok("127.0.0.1:9000")
  }

  /** Where one WordPress project goes: its virtual host root, and its subdirectory (empty at the top). */
  datatype Placement = Placement(root: Value, top: bool, sub: Value)

  /** Lines 1472-1476 once the two lookups are done. */
  function PlacementOf(project: Value, dir: Value, raw: Value): (pl: Placement)
    ensures pl.root == (if IsEmpty(dir) then Str(Wordpress.DefInstallDir) else dir)
    ensures !IsEmpty(raw) && !Wordpress.OnWord(raw) ==> pl.sub == raw && !pl.top
    ensures !IsEmpty(raw) && Wordpress.OnWord(raw) ==> pl.sub == project && (pl.top <==> IsEmpty(project))
    ensures IsEmpty(raw) ==> pl.top
    ensures pl.top <==> IsEmpty(pl.sub)
  {
    var root := if IsEmpty(dir) then Str(Wordpress.DefInstallDir) else dir;
    var sub := if IsEmpty(raw) then Str("") else if Wordpress.OnWord(raw) then project else raw;
    Placement(root, IsEmpty(sub), sub)
  }

  /**
   * Lines 1469-1476 for one project: nothing unless its stack holds WordPress. As written both
   * lookups pass the project's stack as a third argument that the lookup does not take, which
   * raises an ArgumentError; `corrected` reads that argument as the stack consulted first.
   */
  function PlaceOf(c: Ctx, pmWp: seq<Pair>, project: Pair, corrected: bool): (r: Result<Option<Placement>>)
    ensures !corrected && r.Ok? ==> r.value.None?
  {
    var hasStack :- HasKeyOf(project.val, Str("stack"));
    if !hasStack then Ok(None)
    else
      var stack := At(project.val.entries, Str("stack"));
      var hasWp :- HasKeyOf(stack, Str(SwWp));
      if !hasWp then Ok(None)
      else if !corrected then Err(ArgumentErr("wrong number of arguments (given 3, expected 2)"))
      else
        var pc := c.(currentStack := stack);
        var dir :- Prioritized(pc, pmWp, InstallDirPath);
        var raw :- Prioritized(pc, pmWp, SubdirectoryPath);
        Ok(Some(PlacementOf(project.key, dir, raw)))
  }

  /** One round of `projects.each` per project. */
  function PlaceRounds(c: Ctx, pmWp: seq<Pair>, es: seq<Pair>, corrected: bool): (rs: seq<Result<Option<Placement>>>)
    ensures |rs| == |es|
  {
    seq(|es|, i requires 0 <= i < |es| => PlaceOf(c, pmWp, es[i], corrected))
  }

  /** The placements of the projects that have one, in order. */
  function Somes(os: seq<Option<Placement>>): (ps: seq<Placement>)
    decreases |os|
  {
    if |os| == 0 then [] else Somes(os[..|os| - 1]) + (if os[|os| - 1].Some? then [os[|os| - 1].value] else [])
  }

  lemma SomesAppend(os: seq<Option<Placement>>, o: Option<Placement>)
    ensures Somes(os + [o]) == Somes(os) + (if o.Some? then [o.value] else [])
  {
    assert (os + [o])[..|os|] == os;
  }

  /** One entry of `wp_projects`: a root, whether it has `:top`, and its `:subdir` list (present when not empty). */
  datatype Group = Group(root: Value, top: bool, subdirs: seq<Value>)

  /** The first group for `root` from `i` on. */
  function RootIndex(gs: seq<Group>, root: Value, i: nat): (r: Option<nat>)
    requires i <= |gs|
    ensures r.Some? ==> i <= r.value < |gs| && gs[r.value].root == root
    ensures r.None? <==> forall j | i <= j < |gs| :: gs[j].root != root
    decreases |gs| - i
  {
    if i == |gs| then None else if gs[i].root == root then Some(i) else RootIndex(gs, root, i + 1)
  }

  /** Lines 1479-1485: a top installation sets `:top`, any other appends its subdirectory. */
  function Joined(g: Group, pl: Placement): Group
  {
    if pl.top then g.(top := true) else g.(subdirs := g.subdirs + [pl.sub])
  }

  /** Lines 1477-1485: a project joins its root's group, which is made on first use. */
  function Place(gs: seq<Group>, pl: Placement): seq<Group>
  {
    match RootIndex(gs, pl.root, 0)
      case None => gs + [Joined(Group(pl.root, false, []), pl)]
      case Some(i) => gs[i := Joined(gs[i], pl)]
  }

  /** `wp_projects` after the placements, in order. */
  function GroupAll(ps: seq<Placement>): seq<Group>
    decreases |ps|
  {
    if |ps| == 0 then [] else Place(GroupAll(ps[..|ps| - 1]), ps[|ps| - 1])
  }

  lemma GroupAllAppend(ps: seq<Placement>, p: Placement)
    ensures GroupAll(ps + [p]) == Place(GroupAll(ps), p)
  {
    assert (ps + [p])[..|ps|] == ps;
  }

  /** One more round: a placement joins the groups, a project without one leaves them as they are. */
  lemma GroupStep(os: seq<Option<Placement>>, o: Option<Placement>)
    ensures GroupAll(Somes(os + [o])) == if o.Some? then Place(GroupAll(Somes(os)), o.value) else GroupAll(Somes(os))
  {
    SomesAppend(os, o);
    if o.Some? {
      GroupAllAppend(Somes(os), o.value);
    } else {
      assert Somes(os) + [] == Somes(os);
    }
  }

  /** Lines 1468-1487: `wp_projects` once every project was visited; the first raise aborts. */
  function Grouping(c: Ctx, pmWp: seq<Pair>, es: seq<Pair>, corrected: bool): Result<seq<Group>>
  {
    GroupsFrom(Collect(PlaceRounds(c, pmWp, es, corrected), 0))
  }

  /** The groups of the rounds' placements, or the error that ended the rounds. */
  function GroupsFrom(rounds: Result<seq<Option<Placement>>>): Result<seq<Group>>
  {
    var os :- rounds;
    Ok(GroupAll(Somes(os)))
  }

  /** Lines 1477-1485 for one project: its placement, if any, joins the groups. */
  method JoinGroups(gs: seq<Group>, ghost done: seq<Option<Placement>>, o: Option<Placement>) returns (gs': seq<Group>)
    requires gs == GroupAll(Somes(done))
    ensures gs' == GroupAll(Somes(done + [o]))
  {
    GroupStep(done, o);
    gs' := gs;
    if o.Some? {
      gs' := Place(gs, o.value);
    }
  }

  method GroupProjects(c: Ctx, pmWp: seq<Pair>, es: seq<Pair>, corrected: bool) returns (r: Result<seq<Group>>)
    ensures r == Grouping(c, pmWp, es, corrected)
  {
    var gs: seq<Group> := [];
    ghost var done: seq<Option<Placement>> := [];
    ghost var rs := PlaceRounds(c, pmWp, es, corrected);
    var i := 0;
    while i < |es|
      invariant i <= |es| && |done| == i
      invariant forall j | 0 <= j < i :: rs[j] == Ok(done[j])
      invariant gs == GroupAll(Somes(done))
    {
      var o := PlaceOf(c, pmWp, es[i], corrected);
      assert rs[i] == o;
      if o.Err? {
        GroupingStops(c, pmWp, es, corrected, i);
        return Err(o.error);
      }
      gs := JoinGroups(gs, done, o.value);
      done := done + [o.value];
      i := i + 1;
    }
    GroupingFinishes(c, pmWp, es, corrected, done);
    return Ok(gs);
  }

  /** The first project whose round raises ends the grouping with that error. */
  lemma GroupingStops(c: Ctx, pmWp: seq<Pair>, es: seq<Pair>, corrected: bool, k: nat)
    requires k < |es| && PlaceRounds(c, pmWp, es, corrected)[k].Err?
    requires forall j | 0 <= j < k :: PlaceRounds(c, pmWp, es, corrected)[j].Ok?
    ensures Grouping(c, pmWp, es, corrected) == Err(PlaceRounds(c, pmWp, es, corrected)[k].error)
  {
    CollectFirstErr(PlaceRounds(c, pmWp, es, corrected), 0, k);
  }

  /** When every round succeeds, the groups are those of the placements found. */
  lemma GroupingFinishes(c: Ctx, pmWp: seq<Pair>, es: seq<Pair>, corrected: bool, done: seq<Option<Placement>>)
    requires |done| == |es|
    requires forall j | 0 <= j < |es| :: PlaceRounds(c, pmWp, es, corrected)[j] == Ok(done[j])
    ensures Grouping(c, pmWp, es, corrected) == Ok(GroupAll(Somes(done)))
  {
    RoundsGroup(PlaceRounds(c, pmWp, es, corrected), done);
  }

  /** Rounds that all succeed group the placements they found. */
  lemma RoundsGroup(rs: seq<Result<Option<Placement>>>, done: seq<Option<Placement>>)
    requires |done| == |rs|
    requires forall j | 0 <= j < |rs| :: rs[j] == Ok(done[j])
    ensures GroupsFrom(Collect(rs, 0)) == Ok(GroupAll(Somes(done)))
  {
    CollectAllOk(rs, 0, done);
  }

  // ----- what the grouping promises -----

  predicate DistinctRoots(gs: seq<Group>)
  {
    forall i, j | 0 <= i < j < |gs| :: gs[i].root != gs[j].root
  }

  predicate HasRoot(gs: seq<Group>, root: Value) { exists i | 0 <= i < |gs| :: gs[i].root == root }

  predicate Placed(ps: seq<Placement>, root: Value) { exists j | 0 <= j < |ps| :: ps[j].root == root }

  predicate TopFor(ps: seq<Placement>, root: Value) { exists j | 0 <= j < |ps| :: ps[j].root == root && ps[j].top }

  /** The subdirectories placed under `root`, in the order of the projects. */
  function SubsFor(ps: seq<Placement>, root: Value): seq<Value>
    decreases |ps|
  {
    if |ps| == 0 then []
    else SubsFor(ps[..|ps| - 1], root) + (if ps[|ps| - 1].root == root && !ps[|ps| - 1].top then [ps[|ps| - 1].sub] else [])
  }

  /** What `wp_projects` means: one group per root some project uses, holding exactly that root's projects. */
  ghost predicate GroupsOf(gs: seq<Group>, ps: seq<Placement>)
  {
    DistinctRoots(gs)
    && (forall root :: HasRoot(gs, root) <==> Placed(ps, root))
    && (forall i | 0 <= i < |gs| :: gs[i].top == TopFor(ps, gs[i].root) && gs[i].subdirs == SubsFor(ps, gs[i].root))
  }

  lemma NotPlacedNoSubs(ps: seq<Placement>, root: Value)
    requires !Placed(ps, root)
    ensures SubsFor(ps, root) == []
    decreases |ps|
  {
    if |ps| > 0 {
      var qs := ps[..|ps| - 1];
      assert !Placed(qs, root) by {
        forall j | 0 <= j < |qs| ensures qs[j].root != root {
          assert qs[j] == ps[j];
        }
      }
      NotPlacedNoSubs(qs, root);
    }
  }

  /** Adding one placement extends the three facts about a root in the obvious way. */
  lemma PlacedAppend(ps: seq<Placement>, p: Placement, root: Value)
    ensures Placed(ps + [p], root) <==> Placed(ps, root) || p.root == root
    ensures TopFor(ps + [p], root) <==> TopFor(ps, root) || (p.root == root && p.top)
    ensures SubsFor(ps + [p], root) == SubsFor(ps, root) + (if p.root == root && !p.top then [p.sub] else [])
  {
    var qs := ps + [p];
    assert qs[..|ps|] == ps;
    assert qs[|ps|] == p;
    if Placed(ps, root) {
      var j :| 0 <= j < |ps| && ps[j].root == root;
      assert qs[j] == ps[j];
    }
    if TopFor(ps, root) {
      var j :| 0 <= j < |ps| && ps[j].root == root && ps[j].top;
      assert qs[j] == ps[j];
    }
    if Placed(qs, root) && p.root != root {
      var j :| 0 <= j < |qs| && qs[j].root == root;
      assert qs[j] == ps[j];
    }
    if TopFor(qs, root) && !(p.root == root && p.top) {
      var j :| 0 <= j < |qs| && qs[j].root == root && qs[j].top;
      assert qs[j] == ps[j];
    }
  }

  /** One placement keeps `GroupsOf` when it joins an existing group. */
  lemma PlaceExisting(gs: seq<Group>, ps: seq<Placement>, p: Placement, i: nat)
    requires GroupsOf(gs, ps) && i < |gs| && gs[i].root == p.root
    ensures GroupsOf(gs[i := Joined(gs[i], p)], ps + [p])
  {
    var gs' := gs[i := Joined(gs[i], p)];
    forall root ensures HasRoot(gs', root) <==> Placed(ps + [p], root) {
      PlacedAppend(ps, p, root);
      if HasRoot(gs, root) {
        var k :| 0 <= k < |gs| && gs[k].root == root;
        assert gs'[k].root == root;
      }
      if HasRoot(gs', root) {
        var k :| 0 <= k < |gs'| && gs'[k].root == root;
        assert gs[k].root == root;
      }
    }
    forall k | 0 <= k < |gs'|
      ensures gs'[k].top == TopFor(ps + [p], gs'[k].root) && gs'[k].subdirs == SubsFor(ps + [p], gs'[k].root)
    {
      PlacedAppend(ps, p, gs'[k].root);
    }
  }

  /** One placement keeps `GroupsOf` when it opens a group of its own. */
  lemma PlaceNew(gs: seq<Group>, ps: seq<Placement>, p: Placement)
    requires GroupsOf(gs, ps) && forall j | 0 <= j < |gs| :: gs[j].root != p.root
    ensures GroupsOf(gs + [Joined(Group(p.root, false, []), p)], ps + [p])
  {
    PlaceNewRoots(gs, ps, p);
    PlaceNewFields(gs, ps, p);
  }

  /** The roots with a group are still the roots placed, now with the new one. */
  lemma PlaceNewRoots(gs: seq<Group>, ps: seq<Placement>, p: Placement)
    requires GroupsOf(gs, ps) && forall j | 0 <= j < |gs| :: gs[j].root != p.root
    ensures forall root :: HasRoot(gs + [Joined(Group(p.root, false, []), p)], root) <==> Placed(ps + [p], root)
  {
    var gs' := gs + [Joined(Group(p.root, false, []), p)];
    forall root ensures HasRoot(gs', root) <==> Placed(ps + [p], root) {
      PlacedAppend(ps, p, root);
      if HasRoot(gs, root) {
        var k :| 0 <= k < |gs| && gs[k].root == root;
        assert gs'[k].root == root;
      }
      if HasRoot(gs', root) && root != p.root {
        var k :| 0 <= k < |gs'| && gs'[k].root == root;
        assert gs[k].root == root;
      }
      if root == p.root {
        assert gs'[|gs|].root == root;
      }
    }
  }

  /** Each group, old or new, holds exactly its root's projects. */
  lemma PlaceNewFields(gs: seq<Group>, ps: seq<Placement>, p: Placement)
    requires GroupsOf(gs, ps) && forall j | 0 <= j < |gs| :: gs[j].root != p.root
    ensures var gs' := gs + [Joined(Group(p.root, false, []), p)];
      forall k | 0 <= k < |gs'| :: gs'[k].top == TopFor(ps + [p], gs'[k].root) && gs'[k].subdirs == SubsFor(ps + [p], gs'[k].root)
  {
    var gs' := gs + [Joined(Group(p.root, false, []), p)];
    assert !HasRoot(gs, p.root);
    assert !Placed(ps, p.root);
    NotPlacedNoSubs(ps, p.root);
    forall k | 0 <= k < |gs'|
      ensures gs'[k].top == TopFor(ps + [p], gs'[k].root) && gs'[k].subdirs == SubsFor(ps + [p], gs'[k].root)
    {
      PlacedAppend(ps, p, gs'[k].root);
    }
  }

  /**
   * Lines 1477-1485: the roots of `wp_projects` are distinct and are the roots some project
   * uses; a root has `:top` exactly when a project sits at its top, and its `:subdir` list holds
   * the subdirectories of its other projects in order.
   */
  lemma {:induction false} GroupAllGroups(ps: seq<Placement>)
    ensures GroupsOf(GroupAll(ps), ps)
    decreases |ps|
  {
    if |ps| == 0 {
    } else {
      var qs := ps[..|ps| - 1];
      var p := ps[|ps| - 1];
      assert qs + [p] == ps;
      GroupAllGroups(qs);
      var gs := GroupAll(qs);
      match RootIndex(gs, p.root, 0)
        case None => PlaceNew(gs, qs, p);
        case Some(i) => PlaceExisting(gs, qs, p, i);
    }
  }

  // ----- custom_setup: what is enqueued -----

  function WpServer(guestName: string): string { "wp." + guestName + ".vm" }

  function PmaServer(guestName: string): string { "pma." + guestName + ".vm" }

  function Present(): Pair { Pair(Str("ensure"), Str("'present'")) }

  /** Lines 1495-1500: the PHP upstream with its one member. */
  function UpstreamParams(member: string): seq<Pair>
  {
    [Pair(Str(UpstreamsMap), Hash([Pair(Str("'php'"), Hash([Present(), Pair(Str("members"), Arr([Str(Quoted(member))]))]))]))]
  }

  /** Lines 1504-1511 and 1548-1556: a virtual host on port 80 serving `root`. */
  function Vhost(root: string): Value
  {
    Hash([Present(), Pair(Str("listen_port"), Str("'80'")), Pair(Str("spdy"), Str("'on'")),
          Pair(Str("use_default_location"), Str("false")), Pair(Str("www_root"), Str(Quoted(root))),
          Pair(Str("index_files"), Arr([Str("'index.html'"), Str("'index.htm'"), Str("'index.php'")]))])
  }

  /** Lines 1517 and 1564: the location of the static files: any of `STATIC_EXTS` (lines 12-48), joined by '|'. */
  const StaticPattern: string := "'~* \\.(atom|bmp|bz2|css|doc|eot|exe|gif|gz|htm|html|ico|jpeg|jpg|js|mid|midi|mp4|ogg|ogv|otf|png|ppt|rar|rss|rtf|svg|svgz|tar|tgz|ttf|wav|woff|xls|zip)$'"

  /** Lines 1514-1522 and 1560-1569: static files expire late and are not logged. */
  function StaticLocation(server: string): Value
  {
    Hash([Present(), Pair(Str("vhost"), Str(server)), Pair(Str("location"), Str(StaticPattern)),
          Pair(Str("location_custom_cfg"), Hash([Pair(Str("'expires'"), Str("'max'")), Pair(Str("'access_log'"), Str("'off'"))]))])
  }

  function FastcgiParam(): Pair
  {
    Pair(Str("fastcgi_param"), Hash([Pair(Str("'SCRIPT_FILENAME'"), Str("'$document_root$fastcgi_script_name'"))]))
  }

  function CfgAppend(): Pair
  {
    Pair(Str("location_cfg_append"), Hash([Pair(Str("'fastcgi_connect_timeout'"), Str("'3m'")),
      Pair(Str("'fastcgi_read_timeout'"), Str("'3m'")), Pair(Str("'fastcgi_send_timeout'"), Str("'3m'")),
      Pair(Str("'fastcgi_index'"), Str("'index.php'"))]))
  }

  /** Lines 1523-1538: phpMyAdmin's PHP scripts go to the upstream. */
  function PmaPhpLocation(server: string): Value
  {
    Hash([Present(), Pair(Str("vhost"), Str(server)), Pair(Str("fastcgi"), Str("'php'")), FastcgiParam(),
          Pair(Str("location"), Str("'~* \\.php$'")), CfgAppend()])
  }

  /** Lines 1574-1595 and 1598-1619: a WordPress location served by the upstream, with its last fallback. */
  function WpPhpLocation(server: string, fallback: string, location: string): Value
  {
    Hash([Present(), Pair(Str("vhost"), Str(server)),
          Pair(Str("try_files"), Arr([Str("'$uri'"), Str("'$uri/'"), Str(fallback)])),
          Pair(Str("fastcgi"), Str("'php'")), FastcgiParam(), Pair(Str("location"), Str(location)), CfgAppend()])
  }

  /** Lines 1502-1540: the phpMyAdmin virtual host under 'pma' of the default web root. */
  function PmaParams(pma: string): seq<Pair>
  {
    [Pair(Str(VhostsMap), Hash([Pair(Str(pma), Vhost(DefWwwRoot + "/pma"))])),
     Pair(Str(LocationsMap), Hash([Pair(Str("'pma_static'"), StaticLocation(pma)),
                                   Pair(Str("'pma_upstream_php'"), PmaPhpLocation(pma))]))]
  }

  /** Line 1544: `root.gsub('/', '_')`. */
  function EscRoot(root: string): string { ReplaceChar(root, '/', "_") }

  function LocationKey(esc: string, suffix: string): Value { Str("'wp" + esc + suffix + "'") }

  /**
   * Line 1586: a pattern matching the paths under any of the subdirectories, joined by
   * `Array#join('|')`, which flattens a subdirectory setting that is itself an array.
   */
  function SubdirPattern(subdirs: seq<Value>): string
  {
    "'~ ^/(" + Yaml.JoinValues(subdirs, "|") + ")'"
  }

  /** A subdirectory given as an array contributes each of its elements as an alternative. */
  lemma SubdirPatternFlattens()
    ensures SubdirPattern([Arr([Str("a"), Str("b")])]) == "'~ ^/(a|b)'"
    ensures SubdirPattern([Str("blog"), Str("shop")]) == "'~ ^/(blog|shop)'"
  {
    JoinTwo("a", "b");
    JoinNested([Str("a"), Str("b")]);
    JoinTwo("blog", "shop");
  }

  /** Two string subdirectories are joined around one bar. */
  lemma JoinTwo(a: string, b: string)
    ensures Yaml.JoinValues([Str(a), Str(b)], "|") == a + "|" + b
  {
    var xs := [Str(a), Str(b)];
    assert Yaml.JoinParts(xs, 2, "|") == [];
    assert Yaml.JoinParts(xs, 1, "|") == [b];
    assert Yaml.JoinParts(xs, 0, "|") == [a, b];
    assert Join([a, b], "|") == a + "|" + Join([b], "|");
  }

  /** A lone array subdirectory is joined as its elements are. */
  lemma JoinNested(xs: seq<Value>)
    ensures Yaml.JoinValues([Arr(xs)], "|") == Yaml.JoinValues(xs, "|")
  {
    assert Yaml.JoinParts([Arr(xs)], 1, "|") == [];
    assert Yaml.JoinParts([Arr(xs)], 0, "|") == [Yaml.JoinValues(xs, "|")];
  }

  /** Lines 1558-1620: the static location, then the subdirectory one and the top one when the group has them. */
  function Locations(g: Group, esc: string, wp: string): seq<Pair>
  {
    [Pair(LocationKey(esc, "_static"), StaticLocation(wp))]
    + (if g.subdirs != [] then [Pair(LocationKey(esc, "_upstream_php"), WpPhpLocation(wp, "'/$1/index.php?$args'", SubdirPattern(g.subdirs)))] else [])
    + (if g.top then [Pair(LocationKey(esc, "_upstream_php_top"), WpPhpLocation(wp, "'/index.php?$args'", "'/'"))] else [])
  }

  /** Lines 1542-1621 for one root: its virtual host and its locations; a root that is not a string has no `gsub`. */
  function RootCall(swLabel: string, g: Group, wp: string): Result<Call>
  {
    if !g.root.Str? then Err(NoMethod("gsub"))
    else
      Ok(HieraParams(swLabel, [Pair(Str(VhostsMap), Hash([Pair(Str(wp), Vhost(g.root.s))])),
                               Pair(Str(LocationsMap), Hash(Locations(g, EscRoot(g.root.s), wp)))]))
  }

  function RootCalls(swLabel: string, gs: seq<Group>, wp: string): (rs: seq<Result<Call>>)
    ensures |rs| == |gs|
  {
    seq(|gs|, i requires 0 <= i < |gs| => RootCall(swLabel, gs[i], wp))
  }

  /** Lines 1494-1540: the calls every root shares, the PHP upstream and phpMyAdmin's virtual host. */
  function SharedCalls(swLabel: string, member: string, pma: string): seq<Call>
  {
    [HieraParams(swLabel, UpstreamParams(member)), HieraParams(swLabel, PmaParams(pma))]
  }

  /** The guest's aliases and the calls into the provisioner after the setup. */
  datatype Emission = Emission(aliases: seq<string>, calls: seq<Call>)

  /** Lines 1488-1623: nothing without a WordPress project; else the aliases, the upstream, phpMyAdmin and one call per root. */
  function Emitted(swLabel: string, guestName: string, member: string, gs: seq<Group>,
                   aliases: seq<string>, calls: seq<Call>): Result<Emission>
  {
    if gs == [] then Ok(Emission(aliases, calls))
    else
      var wp := WpServer(guestName);
      var pma := PmaServer(guestName);
      var roots :- Collect(RootCalls(swLabel, gs, wp), 0);
      Ok(Emission(aliases + [wp, pma], calls + SharedCalls(swLabel, member, pma) + roots))
  }

  /**
   * Lines 1454-1626: `custom_setup`, at machine level only. `pmWp` is the schema of the module
   * `PM_WP` names, `projectsKey` the key `PROJECTS` names, `swLabel` the label `SW_NGINX_LABEL`
   * names. `settings.rb` defines none of the three, so as written the class raises NameError
   * as it loads; the model supplies them.
   */
  function CustomSetup(c: Ctx, pmWp: seq<Pair>, swLabel: string, guestName: string, guestSettings: Value, projectsKey: Value,
                       aliases: seq<string>, calls: seq<Call>, corrected: bool): Result<Emission>
  {
    if c.project != Nil then Ok(Emission(aliases, calls))
    else
      var socket :- Prioritized(c, pmWp, SocketPath);
      var member :- MemberOf(socket);
      var projects :- CheckGetOf(guestSettings, CHash, 2, projectsKey, Nil, false, None, None);
      if !projects.Hash? then Err(NoMethod("each"))
      else
        var gs :- Grouping(c, pmWp, projects.entries, corrected);
        Emitted(swLabel, guestName, member, gs, aliases, calls)
  }

  /** `DOA::Guest.aliases` and the queue of the provisioner, changed in place by the setup. */
  class Machine {
    var aliases: seq<string>
    var calls: seq<Call>

    constructor(aliases0: seq<string>, calls0: seq<Call>)
      ensures aliases == aliases0 && calls == calls0
    {
      aliases, calls := aliases0, calls0;
    }
  }

  /** The loop of lines 1542-1622: one call per root, in order; the first raise stops it. */
  method EnqueueRoots(m: Machine, rs: seq<Result<Call>>) returns (r: Result<bool>)
    modifies m
    ensures m.aliases == old(m.aliases)
    ensures r.Ok? <==> Collect(rs, 0).Ok?
    ensures r.Err? ==> r == Err(Collect(rs, 0).error)
    ensures r.Ok? ==> m.calls == old(m.calls) + Collect(rs, 0).value
  {
    var i := 0;
    ghost var done: seq<Call> := [];
    while i < |rs|
      invariant i <= |rs| && |done| == i && m.aliases == old(m.aliases)
      invariant forall j | 0 <= j < i :: rs[j] == Ok(done[j])
      invariant m.calls == old(m.calls) + done
    {
      if rs[i].Err? {
        CollectFirstErr(rs, 0, i);
        return Err(rs[i].error);
      }
      m.calls := m.calls + [rs[i].value];
      done := done + [rs[i].value];
      i := i + 1;
    }
    CollectAllOk(rs, 0, done);
    return Ok(true);
  }

  method CustomSetupIn(m: Machine, c: Ctx, pmWp: seq<Pair>, swLabel: string, guestName: string, guestSettings: Value,
                       projectsKey: Value, corrected: bool) returns (r: Result<bool>)
    modifies m
    ensures var want := CustomSetup(c, pmWp, swLabel, guestName, guestSettings, projectsKey, old(m.aliases), old(m.calls), corrected);
      (r.Ok? <==> want.Ok?) && (want.Ok? ==> m.aliases == want.value.aliases && m.calls == want.value.calls)
  {
    if c.project != Nil {
      return Ok(true);
    }
    var socket :- Prioritized(c, pmWp, SocketPath);
    var member :- MemberOf(socket);
    var projects :- CheckGetOf(guestSettings, CHash, 2, projectsKey, Nil, false, None, None);
    if !projects.Hash? {
      return Err(NoMethod("each"));
    }
    var gs :- GroupProjects(c, pmWp, projects.entries, corrected);
    r := EmitIn(m, swLabel, guestName, member, gs);
  }

  /** Lines 1488-1623 on the machine: the aliases, the shared calls and the roots of a non-empty grouping. */
  method EmitIn(m: Machine, swLabel: string, guestName: string, member: string, gs: seq<Group>) returns (r: Result<bool>)
    modifies m
    ensures var want := Emitted(swLabel, guestName, member, gs, old(m.aliases), old(m.calls));
      (r.Ok? <==> want.Ok?) && (want.Ok? ==> m.aliases == want.value.aliases && m.calls == want.value.calls)
  {
    if gs == [] {
      return Ok(true);
    }
    var wp := WpServer(guestName);
    var pma := PmaServer(guestName);
    m.aliases := m.aliases + [wp, pma];
    m.calls := m.calls + SharedCalls(swLabel, member, pma);
    r := EnqueueRoots(m, RootCalls(swLabel, gs, wp));
  }

  // ----- setup, with this class's custom_setup -----

  /** The module's state and the guest's aliases after the Nginx setup. */
  datatype Configured = Configured(st: St, aliases: seq<string>)

  /**
   * `Nginx.setup`, inherited from `PuppetModule.setup` (puppet_module.rb lines 214-220): the
   * shared preparation and the resolution of the schema, then this class's `custom_setup` on
   * the queue the resolution left.
   */
  function Setup(e: Env, st: St, settings: Value, librarian: Value, hieraclasses: Value,
                 pmWp: seq<Pair>, swLabel: string, guestName: string, guestSettings: Value, projectsKey: Value,
                 aliases: seq<string>, corrected: bool): Result<Configured>
  {
    var pre :- Prepared(st, settings, librarian, hieraclasses);
    var resolved :- Resolve(e, pre);
    var em :- CustomSetup(e.c, pmWp, swLabel, guestName, guestSettings, projectsKey, aliases, resolved.calls, corrected);
    Ok(Configured(resolved.(calls := em.calls), em.aliases))
  }

  /** `custom_setup` only appends: to the aliases and to the queue. */
  lemma CustomSetupAppends(c: Ctx, pmWp: seq<Pair>, swLabel: string, guestName: string, guestSettings: Value,
                           projectsKey: Value, aliases: seq<string>, calls: seq<Call>, corrected: bool)
    requires CustomSetup(c, pmWp, swLabel, guestName, guestSettings, projectsKey, aliases, calls, corrected).Ok?
    ensures var em := CustomSetup(c, pmWp, swLabel, guestName, guestSettings, projectsKey, aliases, calls, corrected).value;
      |aliases| <= |em.aliases| && em.aliases[..|aliases|] == aliases
      && |calls| <= |em.calls| && em.calls[..|calls|] == calls
  {
    var em := CustomSetup(c, pmWp, swLabel, guestName, guestSettings, projectsKey, aliases, calls, corrected).value;
    if em != Emission(aliases, calls) {
      assert em.aliases[..|aliases|] == aliases;
      assert em.calls[..|calls|] == calls;
    }
  }

  /**
   * Lines 214-220 and 1455: the Nginx setup resolves the schema first, then `custom_setup` only
   * appends to what the resolution enqueued; inside a project it adds nothing at all.
   */
  lemma SetupOrder(e: Env, st: St, settings: Value, librarian: Value, hieraclasses: Value,
                   pmWp: seq<Pair>, swLabel: string, guestName: string, guestSettings: Value, projectsKey: Value,
                   aliases: seq<string>, corrected: bool)
    requires Setup(e, st, settings, librarian, hieraclasses, pmWp, swLabel, guestName, guestSettings, projectsKey, aliases, corrected).Ok?
    ensures Prepared(st, settings, librarian, hieraclasses).Ok?
    ensures Resolve(e, Prepared(st, settings, librarian, hieraclasses).value).Ok?
    ensures var resolved := Resolve(e, Prepared(st, settings, librarian, hieraclasses).value).value;
      var r := Setup(e, st, settings, librarian, hieraclasses, pmWp, swLabel, guestName, guestSettings, projectsKey, aliases, corrected).value;
      Extends(resolved, r.st) && r.st.provided == resolved.provided
      && (e.c.project != Nil ==> r == Configured(resolved, aliases))
  {
    var resolved := Resolve(e, Prepared(st, settings, librarian, hieraclasses).value).value;
    CustomSetupAppends(e.c, pmWp, swLabel, guestName, guestSettings, projectsKey, aliases, resolved.calls, corrected);
  }

  // ----- what custom_setup promises -----

  /** Line 1455: inside a project the setup changes nothing. */
  lemma ProjectLevelUnchanged(c: Ctx, pmWp: seq<Pair>, swLabel: string, guestName: string, guestSettings: Value,
                              projectsKey: Value, aliases: seq<string>, calls: seq<Call>, corrected: bool)
    requires c.project != Nil
    ensures CustomSetup(c, pmWp, swLabel, guestName, guestSettings, projectsKey, aliases, calls, corrected)
      == Ok(Emission(aliases, calls))
  {
  }

  /** Whether a project's settings hold a stack with WordPress in it (line 1470). */
  predicate WordPressStack(settings: Value)
  {
    settings.Hash? && HasKey(settings.entries, Str("stack"))
    && At(settings.entries, Str("stack")).Hash? && HasKey(At(settings.entries, Str("stack")).entries, Str(SwWp))
  }

  lemma NoneSomes(os: seq<Option<Placement>>)
    requires forall j | 0 <= j < |os| :: os[j].None?
    ensures Somes(os) == []
    decreases |os|
  {
    if |os| > 0 {
      var qs := os[..|os| - 1];
      assert forall j | 0 <= j < |qs| :: qs[j] == os[j];
      NoneSomes(qs);
    }
  }

  /** Lines 1469-1488: without a WordPress project the grouping is empty, and the setup enqueues nothing. */
  lemma NoWordPressNothing(c: Ctx, pmWp: seq<Pair>, swLabel: string, guestName: string, guestSettings: Value,
                           projectsKey: Value, es: seq<Pair>, aliases: seq<string>, calls: seq<Call>, corrected: bool)
    requires c.project == Nil && Prioritized(c, pmWp, SocketPath).Ok? && MemberOf(Prioritized(c, pmWp, SocketPath).value).Ok?
    requires CheckGetOf(guestSettings, CHash, 2, projectsKey, Nil, false, None, None) == Ok(Hash(es))
    requires forall i | 0 <= i < |es| :: es[i].val.Hash? && !WordPressStack(es[i].val)
    requires forall i | 0 <= i < |es| :: HasKey(es[i].val.entries, Str("stack")) ==> At(es[i].val.entries, Str("stack")).Hash?
    ensures CustomSetup(c, pmWp, swLabel, guestName, guestSettings, projectsKey, aliases, calls, corrected)
      == Ok(Emission(aliases, calls))
  {
    var rs := PlaceRounds(c, pmWp, es, corrected);
    var os := seq(|es|, i requires 0 <= i < |es| => None);
    forall j | 0 <= j < |os| ensures rs[j] == Ok(os[j]) {
      assert rs[j] == PlaceOf(c, pmWp, es[j], corrected);
    }
    CollectAllOk(rs, 0, os);
    NoneSomes(os);
  }

  /**
   * Lines 1471 and 1473 as written, once the constants they name are supplied: the first
   * project whose stack holds WordPress makes the lookup raise, so no WordPress virtual host is
   * ever configured.
   */
  lemma WordPressRaisesAsWritten(c: Ctx, pmWp: seq<Pair>, es: seq<Pair>, i: nat)
    requires i < |es| && WordPressStack(es[i].val)
    requires forall j | 0 <= j < i :: PlaceOf(c, pmWp, es[j], false).Ok?
    ensures Grouping(c, pmWp, es, false) == Err(ArgumentErr("wrong number of arguments (given 3, expected 2)"))
  {
    var rs := PlaceRounds(c, pmWp, es, false);
    assert rs[i] == PlaceOf(c, pmWp, es[i], false);
    CollectFirstErr(rs, 0, i);
  }

  /** As written, a setup that does not raise never enqueues anything. */
  lemma AsWrittenNothingEnqueued(c: Ctx, pmWp: seq<Pair>, swLabel: string, guestName: string, guestSettings: Value,
                                 projectsKey: Value, aliases: seq<string>, calls: seq<Call>)
    requires CustomSetup(c, pmWp, swLabel, guestName, guestSettings, projectsKey, aliases, calls, false).Ok?
    ensures CustomSetup(c, pmWp, swLabel, guestName, guestSettings, projectsKey, aliases, calls, false)
      == Ok(Emission(aliases, calls))
  {
    if c.project == Nil {
      var projects := CheckGetOf(guestSettings, CHash, 2, projectsKey, Nil, false, None, None).value;
      var rs := PlaceRounds(c, pmWp, projects.entries, false);
      var os := Collect(rs, 0).value;
      forall j | 0 <= j < |os| ensures os[j].None? {
        assert rs[j] == Ok(os[j]);
      }
      NoneSomes(os);
    }
  }

  /**
   * With the lookups reading the project's stack, every WordPress project is placed, and
   * `wp_projects` groups exactly the placed projects by root.
   */
  lemma WordPressProjectsGrouped(c: Ctx, pmWp: seq<Pair>, es: seq<Pair>)
    requires Grouping(c, pmWp, es, true).Ok?
    ensures var os := Collect(PlaceRounds(c, pmWp, es, true), 0).value;
      GroupsOf(Grouping(c, pmWp, es, true).value, Somes(os))
      && forall i | 0 <= i < |es| :: WordPressStack(es[i].val) <==> os[i].Some?
  {
    var rs := PlaceRounds(c, pmWp, es, true);
    var os := Collect(rs, 0).value;
    GroupAllGroups(Somes(os));
    forall i | 0 <= i < |es| ensures WordPressStack(es[i].val) <==> os[i].Some? {
      assert rs[i] == Ok(os[i]);
      PlaceOfWordPress(c, pmWp, es[i], os[i]);
    }
  }

  /** A project is placed exactly when its stack has WordPress. */
  lemma PlaceOfWordPress(c: Ctx, pmWp: seq<Pair>, project: Pair, o: Option<Placement>)
    requires PlaceOf(c, pmWp, project, true) == Ok(o)
    ensures WordPressStack(project.val) <==> o.Some?
  {
  }

  /** Lines 1488-1540: with a WordPress root, the two aliases are added and the upstream and phpMyAdmin enqueued first. */
  lemma EmittedShared(swLabel: string, guestName: string, member: string, gs: seq<Group>,
                      aliases: seq<string>, calls: seq<Call>)
    requires gs != [] && Emitted(swLabel, guestName, member, gs, aliases, calls).Ok?
    ensures var e := Emitted(swLabel, guestName, member, gs, aliases, calls).value;
      e.aliases == aliases + [WpServer(guestName), PmaServer(guestName)]
      && |e.calls| == |calls| + 2 + |gs|
      && e.calls[..|calls| + 2] == calls + SharedCalls(swLabel, member, PmaServer(guestName))
  {
    var pre := calls + SharedCalls(swLabel, member, PmaServer(guestName));
    var roots := Collect(RootCalls(swLabel, gs, WpServer(guestName)), 0).value;
    assert (pre + roots)[..|pre|] == pre;
  }

  /** Lines 1542-1622: then one call per root, in the order of `wp_projects`; every root is a string. */
  lemma EmittedOnePerRoot(swLabel: string, guestName: string, member: string, gs: seq<Group>,
                          aliases: seq<string>, calls: seq<Call>, i: nat)
    requires gs != [] && Emitted(swLabel, guestName, member, gs, aliases, calls).Ok? && i < |gs|
    ensures var e := Emitted(swLabel, guestName, member, gs, aliases, calls).value;
      gs[i].root.Str? && |calls| + 2 + i < |e.calls|
      && Ok(e.calls[|calls| + 2 + i]) == RootCall(swLabel, gs[i], WpServer(guestName))
  {
    var rs := RootCalls(swLabel, gs, WpServer(guestName));
    var roots := Collect(rs, 0).value;
    var pre := calls + SharedCalls(swLabel, member, PmaServer(guestName));
    assert rs[i] == Ok(roots[i]);
    assert (pre + roots)[|pre| + i] == roots[i];
  }

  /** Line 1621: a root whose directory is not a string stops the setup. */
  lemma NonStringRootRaises(swLabel: string, guestName: string, member: string, gs: seq<Group>,
                            aliases: seq<string>, calls: seq<Call>, i: nat)
    requires i < |gs| && !gs[i].root.Str? && forall j | 0 <= j < i :: gs[j].root.Str?
    ensures Emitted(swLabel, guestName, member, gs, aliases, calls) == Err(NoMethod("gsub"))
  {
    var rs := RootCalls(swLabel, gs, WpServer(guestName));
    assert rs[i] == Err(NoMethod("gsub"));
    CollectFirstErr(rs, 0, i);
  }

  /** Lines 1558-1620: the static location always, the subdirectory one exactly with subdirectories, the top one exactly with `:top`. */
  lemma LocationsPresent(g: Group, esc: string, wp: string)
    ensures var ls := Locations(g, esc, wp);
      HasKey(ls, LocationKey(esc, "_static"))
      && (HasKey(ls, LocationKey(esc, "_upstream_php")) <==> g.subdirs != [])
      && (HasKey(ls, LocationKey(esc, "_upstream_php_top")) <==> g.top)
  {
    var ls := Locations(g, esc, wp);
    var kS, kU, kT := LocationKey(esc, "_static"), LocationKey(esc, "_upstream_php"), LocationKey(esc, "_upstream_php_top");
    assert |kS.s| != |kU.s| && |kS.s| != |kT.s| && |kU.s| != |kT.s|;
    FindSpec(ls, kS);
    FindSpec(ls, kU);
    FindSpec(ls, kT);
    if g.subdirs != [] {
      assert ls[1].key == kU;
    }
    if g.top {
      assert ls[|ls| - 1].key == kT;
    }
  }

  /** Line 1544: escaping keeps the length, turns every '/' into '_' and keeps every other character. */
  lemma {:induction false} EscRootChars(root: string)
    ensures |EscRoot(root)| == |root|
    ensures forall i | 0 <= i < |root| :: EscRoot(root)[i] == if root[i] == '/' then '_' else root[i]
    decreases |root|
  {
    if |root| > 0 {
      EscRootChars(root[1..]);
      var head := if root[0] == '/' then "_" else [root[0]];
      assert EscRoot(root) == head + EscRoot(root[1..]);
      forall i | 1 <= i < |root| ensures EscRoot(root)[i] == if root[i] == '/' then '_' else root[i] {
        assert root[1..][i - 1] == root[i];
      }
    }
  }

  /** Two different roots can share a location name: an underscore and a slash escape alike. */
  lemma EscRootCollides()
    ensures EscRoot("/a_b") == EscRoot("/a/b") == "_a_b"
  {
    EscRootChars("/a_b");
    EscRootChars("/a/b");
  }

}
