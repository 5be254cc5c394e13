/**
 * `PuppetModule.set_params`: the walk of a module's schema (`@supported`) alongside the
 * provided settings (`@provided`) that fills the flat queue of Hiera parameters, with the
 * callbacks a schema names by text (`Owner#method@arg,arg`) resolved to a closed set of
 * operations, and `PuppetModule.setup`, which orders the calls around it.
 *
 * The three-argument `recursive_get` the walk calls is not part of this model. It is read as
 * two paths kept side by side: the schema is descended through the `:children` and
 * `:children_hash` of each entry (an instance name selects the same child schema), and the
 * provided tree is descended through parameter and instance names only.
 */
module Resolver {
  import opened Strings
  import opened Values
  import opened Outcome
  import opened Hashes
  import opened Patterns
  import opened Validators
  import opened Puppet
  import Mariadb
  import Wordpress

  // ----- the class whose schema is walked -----

  /** The module class being resolved: it decides which methods a callback text can name. */
  datatype Kind =
    | MariaDBClass(guestMem: int, mainClass: string)
    | WordPressClass
    | OtherClass(className: string)

  /** `self.to_s`, the owner the schemas write in front of their own callbacks. */
  function ClassNameOf(k: Kind): string
  {
    match k
      case MariaDBClass(_, _) => Mariadb.ClassName
      case WordPressClass => Wordpress.ClassName
      case OtherClass(n) => n
  }

  datatype Env = Env(c: Ctx, kind: Kind)

  // ----- callbacks -----

  const ToolsName := "DOA::Tools"

  /** The operations a callback text can reach. */
  datatype Callback =
    | CbValid(tag: Tag)
    | CbProcessParam(param: string, parent: string)
    | CbIncludeHieraclass(node: string)
    | CbProcessVersion(classname: string)
    | CbEmpty
    | CbGetInstallDir
    | CbSetupAssets(assetType: string)
    | CbPresyncExcludes
    | CbListenIgnores

  /** A callback text taken apart: `Owner#method@arg,arg`. */
  datatype CallbackText = CallbackText(owner: string, name: string, args: seq<string>)

  /**
   * Lines 153-155 and 167-169: split at GLUE_PARAMS ('@'); exactly two parts give the arguments,
   * split at GLUE_ITEMS (','); the first part splits at GLUE_METHOD ('#') into owner and method.
   */
  function ParseText(text: string): (r: Result<CallbackText>)
    ensures r.Ok? ==> |Split(text, "@")| > 0
  {
    var parts := Split(text, "@");
    if |parts| == 0 then Err(NoMethod("split"))
    else
      var args := if |parts| == 2 then Split(parts[1], ",") else [];
      var tokens := Split(parts[0], "#");
      if |tokens| == 0 then Err(NoMethod("split"))
      else Ok(CallbackText(tokens[0], if |tokens| > 1 then tokens[1] else "", args))
  }

  /** The text of a callback: owner, '#', method, and '@' with the arguments joined by ','. */
  function TextOf(t: CallbackText): string
  {
    t.owner + "#" + t.name + (if |t.args| > 0 then "@" + Join(t.args, ",") else "")
  }

  /** The symbol names of the validator library, `valid_<name>?` in DOA::Tools. */
  function TagNamed(name: string): Option<Tag>
  {
    var a := ArrayToHashTag(name);
    if a.Some? then a
    else var b := IntegerToPortTag(name);
    if b.Some? then b else PuppetToFlagTag(name)
  }

  function ArrayToHashTag(name: string): Option<Tag>
  {
    if name == "array" then Some(TArray)
    else if name == "array_ips" then Some(TArrayIps)
    else if name == "array_ipv4" then Some(TArrayIpv4)
    else if name == "array_ipv6" then Some(TArrayIpv6)
    else if name == "auto" then Some(TAuto)
    else if name == "boolean" then Some(TBoolean)
    else if name == "chmod" then Some(TChmod)
    else if name == "float" then Some(TFloat)
    else if name == "hash" then Some(THash)
    else if name == "hash_flags" then Some(THashFlags)
    else if name == "hash_values" then Some(THashValues)
    else None
  }

  function IntegerToPortTag(name: string): Option<Tag>
  {
    if name == "integer" then Some(TInteger)
    else if name == "ip" then Some(TIp)
    else if name == "ipv4" then Some(TIpv4)
    else if name == "ipv4_port" then Some(TIpv4Port)
    else if name == "ipv6" then Some(TIpv6)
    else if name == "level" then Some(TLevel)
    else if name == "linux_package_name" then Some(TLinuxPackageName)
    else if name == "port" then Some(TPort)
    else None
  }

  function PuppetToFlagTag(name: string): Option<Tag>
  {
    if name == "puppet_interpolable_string" then Some(TPuppetInterpolableString)
    else if name == "puppet_interpolable_uri" then Some(TPuppetInterpolableUri)
    else if name == "semver_branch" then Some(TSemverBranch)
    else if name == "semver_version" then Some(TSemverVersion)
    else if name == "string" then Some(TString)
    else if name == "unix_abspath" then Some(TUnixAbspath)
    else if name == "unix_path" then Some(TUnixPath)
    else if name == "unix_relpath" then Some(TUnixRelpath)
    else if name == "url" then Some(TUrl)
    else if name == "flag" then Some(TFlag)
    else None
  }

  /** `valid_<name>?` for a validator name. */
  function ValidatorMethod(name: string): string { "valid_" + name + "?" }

  /** The validator a method name of DOA::Tools calls, if it is one. */
  function ValidatorNamed(m: string): (r: Option<Tag>)
    ensures r.Some? ==> |m| >= 7 && r == TagNamed(m[6..|m| - 1])
  {
    if |m| >= 7 && m[..6] == "valid_" && m[|m| - 1] == '?' then TagNamed(m[6..|m| - 1]) else None
  }

  const Arity := ArgumentErr("wrong number of arguments")

  /** The method of the resolving class a callback names, with its optional parameters filled in. */
  function BindOwn(k: Kind, m: string, args: seq<string>): Result<Callback>
  {
    if m == "process_version" then
      if |args| == 1 || |args| == 2 then Ok(CbProcessVersion(args[0])) else Err(Arity)
    else if m == "empty" then
      if |args| == 0 then Ok(CbEmpty) else Err(Arity)
    else match k
      case MariaDBClass(_, _) =>
        if m == "process_param" then
          if |args| == 1 then Ok(CbProcessParam(args[0], "server"))
          else if |args| == 2 then Ok(CbProcessParam(args[0], args[1]))
          else Err(Arity)
        else if m == "include_hieraclass" then
          if |args| == 0 then Ok(CbIncludeHieraclass("server"))
          else if |args| == 1 then Ok(CbIncludeHieraclass(args[0]))
          else Err(Arity)
        else Err(NoMethod(m))
      case WordPressClass =>
        if m == "get_install_dir" then
          if |args| == 0 then Ok(CbGetInstallDir) else Err(Arity)
        else if m == "setup_assets" then
          if |args| == 0 then Ok(CbSetupAssets("plugins"))
          else if |args| == 1 then Ok(CbSetupAssets(args[0]))
          else Err(Arity)
        else if m == "setup_presync_excludes" then
          if |args| == 0 then Ok(CbPresyncExcludes) else Err(Arity)
        else if m == "setup_listen_ignores" then
          if |args| == 0 then Ok(CbListenIgnores) else Err(Arity)
        else Err(NoMethod(m))
      case OtherClass(_) => Err(NoMethod(m))
  }

  /**
   * `const_get` on the owner, then `send` of the method with the value and the arguments: the
   * owner is DOA::Tools (its validators) or the class being resolved.
   */
  function Bind(k: Kind, t: CallbackText): (r: Result<Callback>)
    ensures t.owner != ToolsName && t.owner != ClassNameOf(k) ==> r == Err(NameErr(t.owner))
    ensures r.Ok? && r.value.CbValid? ==> t.owner == ToolsName && t.args == []
  {
    if t.owner == ToolsName then
      match ValidatorNamed(t.name)
        case None => Err(NoMethod(t.name))
        case Some(tag) => if |t.args| == 0 then Ok(CbValid(tag)) else Err(Arity)
    else if t.owner != ClassNameOf(k) then Err(NameErr(t.owner))
    else BindOwn(k, t.name, t.args)
  }

  /** What each callback does with the value it is handed. */
  function Dispatch(e: Env, st: St, cb: Callback, value: Value): (r: Result<Step>)
    ensures r.Ok? && cb.CbValid? ==> r.value.st == st && r.value.value.Bool?
  {
    match cb
      case CbValid(tag) =>
        var b :- Accepts(e.c.lib, tag, value);
        Ok(Step(Bool(b), st))
      case CbProcessParam(param, parent) => Mariadb.ProcessParam(e.c, st, value, param, parent)
      case CbIncludeHieraclass(node) => Ok(Mariadb.IncludeHieraclass(st, node))
      case CbProcessVersion(cn) => ProcessVersion(e.c, st, value, cn)
      case CbEmpty => Ok(Step(Empty(value), st))
      case CbGetInstallDir =>
        var v :- Wordpress.InstallDir(e.c, value);
        Ok(Step(v, st))
      case CbSetupAssets(typ) => Wordpress.SetupAssets(e.c, st, value, typ)
      // Without a non-empty list both read a constant the Sync class does not define; with
      // one they work on the host and guest sync objects, outside this model, and return nil.
      case CbPresyncExcludes =>
        if value.Arr? && !IsEmpty(value) then Ok(Step(Nil, st)) else Err(NameErr("DOA::Sync::DEFAULT_EXCLUDES"))
      case CbListenIgnores =>
        if value.Arr? && !IsEmpty(value) then Ok(Step(Nil, st)) else Err(NameErr("DOA::Sync::DEFAULT_IGNORES"))
  }

  /** Parse, bind and call a callback stored in the schema. */
  function Invoke(e: Env, st: St, text: Value, value: Value): Result<Step>
  {
    if !text.Str? then Err(NoMethod("split"))
    else
      var t :- ParseText(text.s);
      var cb :- Bind(e.kind, t);
      Dispatch(e, st, cb, value)
  }

  // ----- one schema entry -----

  const KExpect: Value := Sym("expect")
  const KExclude: Value := Sym("exclude")
  const KAllow: Value := Sym("allow")
  const KChildren: Value := Sym("children")
  const KChildrenHash: Value := Sym("children_hash")
  const KCbValidate: Value := Sym("cb_validate")
  const KCbProcess: Value := Sym("cb_process")
  const KMapsTo: Value := Sym("maps_to")

  /** Lines 84 and 88: a single `:expect` or `:exclude` is treated as a one-element list. */
  function AsList(v: Value): (r: seq<Value>)
    ensures !v.Arr? ==> r == [v]
  {
    if v.Arr? then v.items else [v]
  }

  /** Lines 89-94: the first excluded '->' path present in the provided tree aborts. */
  function ExclusionCheck(root: Value, param: Value, excludes: seq<Value>): Result<bool>
  {
    if |excludes| == 0 then Ok(true)
    else if !excludes[0].Str? then Err(NoMethod("split"))
    else if Lookup(root, Strs(Split(excludes[0].s, "->"))) != Nil then Err(ExclusiveParams(ToS(param), excludes[0].s))
    else ExclusionCheck(root, param, excludes[1..])
  }

  /** `Array - Array`: the elements of `xs` the other list does not hold, in order. */
  function Minus(xs: seq<Value>, ys: seq<Value>): (r: seq<Value>)
    ensures forall i | 0 <= i < |r| :: r[i] in xs && r[i] !in ys
    ensures forall i | 0 <= i < |xs| && xs[i] !in ys :: xs[i] in r
  {
    if |xs| == 0 then []
    else if xs[0] in ys then Minus(xs[1..], ys)
    else [xs[0]] + Minus(xs[1..], ys)
  }

  /**
   * `allow.include?(text)`: membership for an Array, a substring for a String, a key for a Hash;
   * any other value has no `include?`.
   */
  function Includes(allow: Value, text: string): Result<bool>
  {
    match allow
      case Arr(xs) => Ok(Str(text) in xs)
      case Str(s) => Ok(Contains(s, text))
      case Hash(es) => Ok(HasKey(es, Str(text)))
      case _ => Err(NoMethod("include?"))
  }

  /**
   * Lines 127-132: with an `:allow` list, an array with an element outside it aborts, and so
   * does any value whose `to_s` the list does not include. An array subtracts the `:allow`
   * value, which must then be an Array too.
   */
  function AllowCheck(cfg: seq<Pair>, param: Value, provided: Value): Result<bool>
  {
    if !HasKey(cfg, KAllow) then Ok(true)
    else
      var allow := At(cfg, KAllow);
      if provided.Arr? && !allow.Arr? then Err(TypeErr("no implicit conversion into Array"))
      else if provided.Arr? && !IsEmpty(Arr(Minus(provided.items, allow.items))) then Err(UnsupportedValue(ToS(provided), ToS(param)))
      else
        var listed :- Includes(allow, ToS(provided));
        if listed then Ok(true) else Err(UnsupportedValue(ToS(provided), ToS(param)))
  }

  /** A validator text for a tag name: `DOA::Tools#valid_<name>?`. */
  function ValidatorText(name: string): string
  {
    TextOf(CallbackText(ToolsName, ValidatorMethod(name), []))
  }

  /** Lines 139-146: each `:expect` entry must be a symbol in VALIDATORS, else the walk aborts. */
  function ExpectTexts(xs: seq<Value>): (r: Result<seq<Value>>)
    ensures r.Ok? ==> |r.value| == |xs|
  {
    if |xs| == 0 then Ok([])
    else
      var x := xs[0];
      var t := if x.Sym? then TagNamed(x.name) else None;
      if t.None? || !InValidators(t.value) then Err(UnsupportedValue(ToS(x), "expect"))
      else
        var rest :- ExpectTexts(xs[1..]);
        Ok([TagText(x)] + rest)
  }

  /** Lines 135-147: `:cb_validate` replaces `:expect`; no validators at all is a valid value. */
  function ValidatorTexts(cfg: seq<Pair>): Result<seq<Value>>
  {
    if HasKey(cfg, KCbValidate) then Ok([At(cfg, KCbValidate)])
    else if HasKey(cfg, KExpect) && !IsEmpty(Arr(AsList(At(cfg, KExpect)))) then ExpectTexts(AsList(At(cfg, KExpect)))
    else Ok([])
  }

  datatype Validated = Validated(valid: bool, st: St)

  /** Lines 152-158: callbacks run in order until one answers truthy; that answer is `valid`. */
  function RunValidators(e: Env, st: St, cbs: seq<Value>, provided: Value): Result<Validated>
    decreases |cbs|
  {
    if |cbs| == 0 then Ok(Validated(false, st))
    else
      var s :- Invoke(e, st, cbs[0], provided);
      if Truthy(s.value) then Ok(Validated(true, s.st))
      else RunValidators(e, s.st, cbs[1..], provided)
  }

  /**
   * Lines 149-159: the callbacks run only when the list is not `empty?`, which for an Array means
   * some element is not empty; otherwise the value stays valid.
   */
  function Validate(e: Env, st: St, cbs: seq<Value>, provided: Value): Result<Validated>
  {
    if IsEmpty(Arr(cbs)) then Ok(Validated(true, st)) else RunValidators(e, st, cbs, provided)
  }

  /**
   * A `:cb_validate` that is `empty?` (nil, '', [] or {}) skips validation: the value is valid
   * and the state is kept. Any other `:cb_validate` is run as the one callback.
   */
  lemma EmptyCbValidateSkips(e: Env, st: St, cfg: seq<Pair>, provided: Value)
    requires HasKey(cfg, KCbValidate)
    ensures ValidatorTexts(cfg) == Ok([At(cfg, KCbValidate)])
    ensures IsEmpty(At(cfg, KCbValidate)) ==> Validate(e, st, [At(cfg, KCbValidate)], provided) == Ok(Validated(true, st))
    ensures !IsEmpty(At(cfg, KCbValidate)) ==>
      Validate(e, st, [At(cfg, KCbValidate)], provided) == RunValidators(e, st, [At(cfg, KCbValidate)], provided)
  {
    assert [At(cfg, KCbValidate)][0] == At(cfg, KCbValidate);
  }

  /** Lines 116-123: the value an absent leaf starts from. */
  function AbsentValue(doaDef: Value, modDef: Value): (r: Value)
    ensures r == if doaDef != Nil && doaDef != modDef then doaDef else Nil
  {
    var default := if doaDef == Nil then modDef else if doaDef != modDef then doaDef else Nil;
    if default != Nil && default != modDef then default else Nil
  }

  /** A leaf's value before any `:cb_process`, its `:mod_def`, the state, and whether it is valid. */
  datatype Leaf = Leaf(value: Value, modDef: Value, st: St, valid: bool)

  /** Lines 113-161: defaults, then for a provided value that differs from `:mod_def` the checks. */
  function LeafOf(e: Env, st: St, cfg: seq<Pair>, param: Value, provided: Value): Result<Leaf>
  {
    var doaDef :- GetDefaultValue(cfg, DoaDef, e.c.platform);
    var modDef :- GetDefaultValue(cfg, ModDef, e.c.platform);
    if provided == Nil then Ok(Leaf(AbsentValue(doaDef, modDef), modDef, st, true))
    else if Str(ToS(provided)) == modDef then Ok(Leaf(Nil, modDef, st, true))
    else
      var _ :- AllowCheck(cfg, param, provided);
      var cbs :- ValidatorTexts(cfg);
      var v :- Validate(e, st, cbs, provided);
      Ok(Leaf(if provided.Hash? || provided.Arr? then provided else Str(ToS(provided)), modDef, v.st, v.valid))
  }

  /** `:expect` (as a list) names a validator of VALIDATORS_TO_WRAP. */
  predicate WrapSym(x: Value)
  {
    x.Sym? && TagNamed(x.name).Some? && ToWrap(TagNamed(x.name).value)
  }

  predicate Wrapped(cfg: seq<Pair>)
  {
    HasKey(cfg, KExpect) && exists i | 0 <= i < |AsList(At(cfg, KExpect))| :: WrapSym(AsList(At(cfg, KExpect))[i])
  }

  predicate FlagsExpected(cfg: seq<Pair>)
  {
    HasKey(cfg, KExpect)
    && (Sym("hash_flags") in AsList(At(cfg, KExpect)) || Sym("hash_values") in AsList(At(cfg, KExpect)))
  }

  /** Lines 183-189: false and 'off' become 'off', true and 'on' become 'on', anything else its quoted text. */
  function FlagText(v: Value): string
  {
    if v == Bool(false) || v == Str("off") then Quoted("off")
    else if v == Bool(true) || v == Str("on") then Quoted("on")
    else Quoted(ToS(v))
  }

  /** The first `n` pairs with quoted keys and flag texts, later keys overwriting earlier ones. */
  function QuotedPairs(ps: seq<Pair>, n: nat): seq<Pair>
    requires n <= |ps|
  {
    if n == 0 then []
    else Put(QuotedPairs(ps, n - 1), Str(Quoted(ToS(ps[n - 1].key))), Str(FlagText(ps[n - 1].val)))
  }

  /** Lines 181-191. */
  function QuoteFlags(value: Value): Result<Value>
  {
    var ps :- EachPairs(value);
    Ok(Hash(QuotedPairs(ps, |ps|)))
  }

  /** Line 195: `:maps_to` unless blank, else the schema key. */
  function MapsTo(cfg: seq<Pair>, param: Value): Result<Value>
  {
    if HasKey(cfg, KMapsTo) then
      var blank :- BlankOf(At(cfg, KMapsTo));
      Ok(if blank then param else At(cfg, KMapsTo))
    else Ok(param)
  }

  /** Line 196: a non-blank `:maps_to` text is the key written. */
  lemma MapsToNamed(cfg: seq<Pair>, param: Value, target: string)
    requires HasKey(cfg, KMapsTo) && At(cfg, KMapsTo) == Str(target) && |target| > 0 && !IsSpace(target[0])
    ensures MapsTo(cfg, param) == Ok(Str(target))
  {
  }

  /** Lines 177-203: a value other than nil and `:mod_def` is written to the queue. */
  function Emit(cfg: seq<Pair>, param: Value, value: Value, modDef: Value, queue: seq<Pair>): Result<seq<Pair>>
  {
    if value == Nil || value == modDef then Ok(queue)
    else
      var v :- if FlagsExpected(cfg) then QuoteFlags(value) else Ok(value);
      var key :- MapsTo(cfg, param);
      Ok(Put(queue, key, if Wrapped(cfg) then Str(Quoted(ToS(v))) else v))
  }

  datatype Resolved = Resolved(queue: seq<Pair>, st: St)

  /** Lines 164-203: an invalid value aborts; otherwise `:cb_process` sees the raw provided value, then the result is emitted. */
  function Finish(e: Env, st: St, cfg: seq<Pair>, param: Value, provided: Value, value: Value, modDef: Value,
                  valid: bool, queue: seq<Pair>): Result<Resolved>
  {
    if !valid then Err(UnsupportedParamValue(ToS(param)))
    else
      var s :- if HasKey(cfg, KCbProcess) then Invoke(e, st, At(cfg, KCbProcess), provided) else Ok(Step(value, st));
      var q :- Emit(cfg, param, s.value, modDef, queue);
      Ok(Resolved(q, s.st))
  }

  // ----- the walk -----

  /** `set_params`: every entry of one schema level, in order, threading queue and state. */
  function SetParams(e: Env, st: St, schema: Value, ppath: seq<Value>): Result<Resolved>
    decreases schema, 3
  {
    if !schema.Hash? then Err(NoMethod("each"))
    else Entries(e, st, schema.entries, 0, ppath, [])
  }

  function Entries(e: Env, st: St, es: seq<Pair>, i: nat, ppath: seq<Value>, queue: seq<Pair>): Result<Resolved>
    requires i <= |es|
    decreases Value.Hash(es), 2, |es| - i
  {
    if i == |es| then Ok(Resolved(queue, st))
    else
      var r :- EntryAt(e, st, es, i, ppath, queue);
      Entries(e, r.st, es, i + 1, ppath, r.queue)
  }

  /** Lines 82-203 for the entry `es[i]`. */
  function EntryAt(e: Env, st: St, es: seq<Pair>, i: nat, ppath: seq<Value>, queue: seq<Pair>): Result<Resolved>
    requires i < |es|
    decreases Value.Hash(es), 1
  {
    var param := es[i].key;
    if !es[i].val.Hash? then Err(NoMethod("has_key?"))
    else
      var cfg := es[i].val.entries;
      var provided := Lookup(st.provided, ppath + [param]);
      var _ :- if HasKey(cfg, KExclude) && provided != Nil then ExclusionCheck(st.provided, param, AsList(At(cfg, KExclude))) else Ok(true);
      EntryBody(e, st, es, i, ppath, queue)
  }

  /** Lines 96-203 for the entry `es[i]`, once its exclusions are checked: children, instances or a leaf. */
  function EntryBody(e: Env, st: St, es: seq<Pair>, i: nat, ppath: seq<Value>, queue: seq<Pair>): Result<Resolved>
    requires i < |es| && es[i].val.Hash?
    decreases Value.Hash(es), 0
  {
    var param := es[i].key;
    var cfg := es[i].val.entries;
    var provided := Lookup(st.provided, ppath + [param]);
    var ci := Find(cfg, KChildren);
    var hi := Find(cfg, KChildrenHash);
    if ci.Some? then
      var sub :- SetParams(e, st, cfg[ci.value].val, ppath + [param]);
      Finish(e, sub.st, cfg, param, provided, Nil, Nil, true, if sub.queue != [] then DeepMerge(queue, sub.queue) else queue)
    else if hi.Some? then
      if provided == Nil then Finish(e, st, cfg, param, provided, Nil, Nil, true, queue)
      else if !provided.Hash? || provided.entries == [] then Err(UnsupportedParamValue(ToS(param)))
      else
        var inst :- Instances(e, st, cfg[hi.value].val, provided.entries, 0, ppath + [param], []);
        Finish(e, inst.st, cfg, param, provided, Hash(inst.queue), Nil, true, queue)
    else
      var leaf :- LeafOf(e, st, cfg, param, provided);
      Finish(e, leaf.st, cfg, param, provided, leaf.value, leaf.modDef, leaf.valid, queue)
  }

  /** An entry that did not abort passed its exclusions, so it is its body. */
  lemma EntryAtOk(e: Env, st: St, es: seq<Pair>, i: nat, ppath: seq<Value>, queue: seq<Pair>)
    requires i < |es| && EntryAt(e, st, es, i, ppath, queue).Ok?
    ensures es[i].val.Hash? && EntryAt(e, st, es, i, ppath, queue) == EntryBody(e, st, es, i, ppath, queue)
  {
  }

  /** Lines 106-109: one nested queue per provided instance, keyed by its quoted name. */
  function Instances(e: Env, st: St, schema: Value, insts: seq<Pair>, k: nat, ppath: seq<Value>, value: seq<Pair>): Result<Resolved>
    requires k <= |insts|
    decreases schema, 4, |insts| - k
  {
    if k == |insts| then Ok(Resolved(value, st))
    else
      var sub :- SetParams(e, st, schema, ppath + [insts[k].key]);
      Instances(e, sub.st, schema, insts, k + 1, ppath, Put(value, InstanceKey(insts[k].key), Hash(sub.queue)))
  }

  function InstanceKey(child: Value): Value { Str(Quoted(ToS(child))) }

  // ----- callback texts -----

  /** A list of parts without the separator character is what splitting its join gives back. */
  lemma {:induction false} SplitAllOfJoin(parts: seq<string>, c: char)
    requires |parts| > 0
    requires forall i | 0 <= i < |parts| :: c !in parts[i]
    ensures SplitAll(Join(parts, [c]), [c]) == parts
    decreases |parts|
  {
    if |parts| == 1 {
      SplitAllWithout(parts[0], c);
    } else {
      SplitAllOfJoin(parts[1..], c);
      SplitAllJoin(parts[0], c, Join(parts[1..], [c]));
      assert Join(parts, [c]) == parts[0] + [c] + Join(parts[1..], [c]);
      assert parts == [parts[0]] + parts[1..];
    }
  }

  lemma NoTrailingEmpty(parts: seq<string>)
    requires |parts| > 0 && parts[|parts| - 1] != ""
    ensures DropTrailingEmpty(parts) == parts
  {
  }

  /** Splitting the join of non-empty parts without the separator gives the parts back. */
  lemma SplitOfJoin(parts: seq<string>, c: char)
    requires |parts| > 0
    requires forall i | 0 <= i < |parts| :: c !in parts[i] && parts[i] != ""
    ensures Split(Join(parts, [c]), [c]) == parts
  {
    SplitAllOfJoin(parts, c);
    NoTrailingEmpty(parts);
  }

  lemma {:induction false} JoinStartsWithFirst(parts: seq<string>, sep: string)
    requires |parts| > 0
    ensures |Join(parts, sep)| >= |parts[0]|
  {
  }

  /** Owner and method without '@' and '#', arguments without '@' and ',': nothing is lost in the text. */
  predicate PlainText(t: CallbackText)
  {
    t.owner != "" && t.name != "" && '@' !in t.owner && '#' !in t.owner && '@' !in t.name && '#' !in t.name
    && forall i | 0 <= i < |t.args| :: t.args[i] != "" && '@' !in t.args[i] && ',' !in t.args[i]
  }

  lemma OwnerAndName(owner: string, name: string)
    requires owner != "" && name != "" && '@' !in owner && '#' !in owner && '@' !in name && '#' !in name
    ensures '@' !in owner + "#" + name
    ensures Split(owner + "#" + name, "#") == [owner, name]
  {
    var head := owner + "#" + name;
    assert '@' !in head by {
      forall i | 0 <= i < |head| ensures head[i] != '@' {
        if i < |owner| { assert head[i] == owner[i]; }
        else if i > |owner| { assert head[i] == name[i - |owner| - 1]; }
      }
    }
    SplitAllJoin(owner, '#', name);
    SplitAllWithout(name, '#');
    NoTrailingEmpty([owner, name]);
  }

  /** Parsing the text of a callback gives back its owner, method and arguments. */
  lemma ParseTextOf(t: CallbackText)
    requires PlainText(t)
    ensures ParseText(TextOf(t)) == Ok(t)
  {
    var head := t.owner + "#" + t.name;
    OwnerAndName(t.owner, t.name);
    if |t.args| == 0 {
      assert TextOf(t) == head;
      SplitAllWithout(head, '@');
      NoTrailingEmpty([head]);
    } else {
      var j := Join(t.args, ",");
      assert TextOf(t) == head + ['@'] + j;
      NoCharInJoin(t.args, ',', '@');
      SplitAllJoin(head, '@', j);
      SplitAllWithout(j, '@');
      JoinStartsWithFirst(t.args, ",");
      NoTrailingEmpty([head, j]);
      SplitOfJoin(t.args, ',');
    }
  }

  predicate Plain(name: string) { name != "" && '@' !in name && '#' !in name }

  /** Every validator name is a plain word. */
  lemma TagNamePlain(name: string)
    requires TagNamed(name).Some?
    ensures Plain(name)
  {
    if ArrayToHashTag(name).Some? {
      ArrayToHashPlain(name);
    } else if IntegerToPortTag(name).Some? {
      IntegerToPortPlain(name);
    } else {
      PuppetToFlagPlain(name);
    }
  }

  lemma ArrayToHashPlain(name: string)
    requires ArrayToHashTag(name).Some?
    ensures Plain(name)
  {
  }

  lemma IntegerToPortPlain(name: string)
    requires IntegerToPortTag(name).Some?
    ensures Plain(name)
  {
  }

  lemma PuppetToFlagPlain(name: string)
    requires PuppetToFlagTag(name).Some?
    ensures Plain(name)
  {
  }

  /** The text line 141 builds for an `:expect` tag reaches that tag's validator. */
  lemma ValidatorTextBinds(k: Kind, name: string)
    requires TagNamed(name).Some?
    ensures var t := ParseText(ValidatorText(name));
      t.Ok? && Bind(k, t.value) == Ok(CbValid(TagNamed(name).value))
  {
    ValidatorTextParses(name);
    ValidatorMethodNamed(name);
  }

  /** The validator text of a tag reads back as a call of DOA::Tools without arguments. */
  lemma ValidatorTextParses(name: string)
    requires TagNamed(name).Some?
    ensures ParseText(ValidatorText(name)) == Ok(CallbackText(ToolsName, ValidatorMethod(name), []))
  {
    TagNamePlain(name);
    var m := ValidatorMethod(name);
    assert '@' !in m && '#' !in m by {
      forall i | 0 <= i < |m| ensures m[i] != '@' && m[i] != '#' {
        if 6 <= i < |m| - 1 { assert m[i] == name[i - 6]; }
      }
    }
    ParseTextOf(CallbackText(ToolsName, m, []));
  }

  /** `valid_<name>?` names the validator of the tag `name`. */
  lemma ValidatorMethodNamed(name: string)
    ensures ValidatorNamed(ValidatorMethod(name)) == TagNamed(name)
  {
    var m := ValidatorMethod(name);
    assert m[..6] == "valid_" && m[6..|m| - 1] == name;
  }

  // ----- validation -----

  /** A symbol that names a validator of VALIDATORS. */
  predicate ListedTag(x: Value)
  {
    x.Sym? && TagNamed(x.name).Some? && InValidators(TagNamed(x.name).value)
  }

  /** The validator text a listed `:expect` entry stands for. */
  function TagText(x: Value): Value
  {
    if x.Sym? then Str(ValidatorText(x.name)) else Nil
  }

  /** When every `:expect` entry is listed, there is one validator text per entry, in order. */
  lemma {:induction false} ExpectTextsOfListed(xs: seq<Value>)
    requires forall j | 0 <= j < |xs| :: ListedTag(xs[j])
    ensures ExpectTexts(xs).Ok?
    ensures forall j | 0 <= j < |xs| :: ExpectTexts(xs).value[j] == TagText(xs[j])
    decreases |xs|
  {
    if |xs| > 0 {
      assert ListedTag(xs[0]);
      assert forall j | 0 <= j < |xs| - 1 :: xs[1..][j] == xs[j + 1];
      ExpectTextsOfListed(xs[1..]);
      var rest := ExpectTexts(xs[1..]).value;
      assert ExpectTexts(xs).value == [TagText(xs[0])] + rest;
    }
  }

  /** The first `:expect` entry outside VALIDATORS aborts, whatever the entries before it would answer. */
  lemma {:induction false} ExpectTextsUnlisted(xs: seq<Value>, j: nat)
    requires j < |xs| && !ListedTag(xs[j])
    requires forall i | 0 <= i < j :: ListedTag(xs[i])
    ensures ExpectTexts(xs) == Err(UnsupportedValue(ToS(xs[j]), "expect"))
    decreases j
  {
    if j > 0 {
      var tail := xs[1..];
      assert tail[j - 1] == xs[j];
      forall i | 0 <= i < j - 1 ensures ListedTag(tail[i]) {
        assert tail[i] == xs[i + 1];
      }
      ExpectTextsUnlisted(tail, j - 1);
      ExpectTextsListedHead(xs);
    } else {
      ExpectTextsUnlistedHead(xs);
    }
  }

  /** An unlisted first tag aborts the texts at once. */
  lemma ExpectTextsUnlistedHead(xs: seq<Value>)
    requires |xs| > 0 && !ListedTag(xs[0])
    ensures ExpectTexts(xs) == Err(UnsupportedValue(ToS(xs[0]), "expect"))
  {
  }

  /** After a listed tag, the texts abort exactly as the rest of them does. */
  lemma ExpectTextsListedHead(xs: seq<Value>)
    requires |xs| > 0 && ListedTag(xs[0])
    ensures ExpectTexts(xs[1..]).Err? ==> ExpectTexts(xs) == ExpectTexts(xs[1..])
  {
  }

  /** The validator text of a listed tag answers what its validator answers, without changing the state. */
  lemma InvokeValidator(e: Env, st: St, x: Value, provided: Value, a: bool)
    requires Answers(e, x, provided, a)
    ensures Invoke(e, st, TagText(x), provided) == Ok(Step(Bool(a), st))
  {
    ValidatorTextBinds(e.kind, x.name);
  }

  /** `x` is a listed tag whose validator answers `a` for `provided`. */
  predicate Answers(e: Env, x: Value, provided: Value, a: bool)
  {
    ListedTag(x) && Accepts(e.c.lib, TagNamed(x.name).value, provided) == Ok(a)
  }

  /**
   * Lines 150-159 over callbacks that answer without changing the state: the value is valid
   * exactly when some callback answers true.
   */
  lemma {:induction false} RunValidatorsOf(e: Env, st: St, cbs: seq<Value>, provided: Value, answers: seq<bool>)
    requires |answers| == |cbs|
    requires forall j | 0 <= j < |cbs| :: Invoke(e, st, cbs[j], provided) == Ok(Step(Bool(answers[j]), st))
    ensures RunValidators(e, st, cbs, provided) == Ok(Validated(true in answers, st))
    decreases |cbs|
  {
    if |cbs| > 0 {
      RunValidatorsStep(e, st, cbs, provided, answers[0]);
      if !answers[0] {
        TailAnswers(e, st, cbs, provided, answers);
        RunValidatorsOf(e, st, cbs[1..], provided, answers[1..]);
        assert answers == [answers[0]] + answers[1..];
      }
    }
  }

  /** The callbacks after the first answer as they did. */
  lemma TailAnswers(e: Env, st: St, cbs: seq<Value>, provided: Value, answers: seq<bool>)
    requires 0 < |answers| == |cbs|
    requires forall j | 0 <= j < |cbs| :: Invoke(e, st, cbs[j], provided) == Ok(Step(Bool(answers[j]), st))
    ensures forall j | 0 <= j < |cbs| - 1 :: Invoke(e, st, cbs[1..][j], provided) == Ok(Step(Bool(answers[1..][j]), st))
  {
    assert forall j | 0 <= j < |cbs| - 1 :: cbs[1..][j] == cbs[j + 1] && answers[1..][j] == answers[j + 1];
  }

  lemma RunValidatorsStep(e: Env, st: St, cbs: seq<Value>, provided: Value, a: bool)
    requires |cbs| > 0 && Invoke(e, st, cbs[0], provided) == Ok(Step(Bool(a), st))
    ensures RunValidators(e, st, cbs, provided)
      == if a then Ok(Validated(true, st)) else RunValidators(e, st, cbs[1..], provided)
  {
  }

  /** Lines 135-159 for an `:expect` list of listed tags: valid exactly when one of their validators accepts. */
  lemma RunValidatorsAnswer(e: Env, st: St, xs: seq<Value>, provided: Value, answers: seq<bool>)
    requires |answers| == |xs|
    requires forall j | 0 <= j < |xs| :: Answers(e, xs[j], provided, answers[j])
    ensures ExpectTexts(xs).Ok?
    ensures RunValidators(e, st, ExpectTexts(xs).value, provided) == Ok(Validated(true in answers, st))
  {
    assert forall j | 0 <= j < |xs| :: ListedTag(xs[j]);
    ExpectTextsOfListed(xs);
    var cbs := ExpectTexts(xs).value;
    forall j | 0 <= j < |xs| ensures Invoke(e, st, cbs[j], provided) == Ok(Step(Bool(answers[j]), st)) {
      InvokeValidator(e, st, xs[j], provided, answers[j]);
    }
    RunValidatorsOf(e, st, cbs, provided, answers);
  }

  /** Lines 135-147: `:cb_validate` is used alone; no `:expect` (or one with only empty entries) means no validator. */
  lemma ValidatorTextsChoice(cfg: seq<Pair>)
    ensures HasKey(cfg, KCbValidate) ==> ValidatorTexts(cfg) == Ok([At(cfg, KCbValidate)])
    ensures !HasKey(cfg, KCbValidate) && (!HasKey(cfg, KExpect) || IsEmpty(Arr(AsList(At(cfg, KExpect)))))
      ==> ValidatorTexts(cfg) == Ok([])
    ensures !HasKey(cfg, KCbValidate) && HasKey(cfg, KExpect) && !IsEmpty(Arr(AsList(At(cfg, KExpect))))
      ==> ValidatorTexts(cfg) == ExpectTexts(AsList(At(cfg, KExpect)))
  {
  }

  // ----- what one entry resolves to -----

  /** No `:children` and no `:children_hash`: the entry is resolved as a leaf. */
  predicate IsLeaf(cfg: seq<Pair>)
  {
    !HasKey(cfg, KChildren) && !HasKey(cfg, KChildrenHash)
  }

  /** The `:exclude` check passes, or there is none. */
  predicate NotExcluded(root: Value, param: Value, cfg: seq<Pair>)
  {
    !HasKey(cfg, KExclude) || ExclusionCheck(root, param, AsList(At(cfg, KExclude))).Ok?
  }

  /** The value provided for the entry `es[i]` below `ppath`. */
  function ProvidedFor(st: St, es: seq<Pair>, i: nat, ppath: seq<Value>): Value
    requires i < |es|
  {
    Lookup(st.provided, ppath + [es[i].key])
  }

  /** Both of a leaf's defaults can be read for the platform. */
  predicate DefaultsRead(e: Env, cfg: seq<Pair>)
  {
    GetDefaultValue(cfg, DoaDef, e.c.platform).Ok? && GetDefaultValue(cfg, ModDef, e.c.platform).Ok?
  }

  function InState(q: Result<seq<Pair>>, st: St): Result<Resolved>
  {
    if q.Ok? then Ok(Resolved(q.value, st)) else Err(q.error)
  }

  /**
   * Lines 113-123 and 177-203: a parameter nobody provided is never checked; it is written with
   * its `:doa_def` exactly when that default exists and differs from `:mod_def`, else not at all.
   */
  lemma AbsentLeaf(e: Env, st: St, es: seq<Pair>, i: nat, ppath: seq<Value>, queue: seq<Pair>)
    requires i < |es| && es[i].val.Hash? && IsLeaf(es[i].val.entries) && !HasKey(es[i].val.entries, KCbProcess)
    requires ProvidedFor(st, es, i, ppath) == Nil && DefaultsRead(e, es[i].val.entries)
    ensures var cfg := es[i].val.entries;
      var d := GetDefaultValue(cfg, DoaDef, e.c.platform).value;
      var m := GetDefaultValue(cfg, ModDef, e.c.platform).value;
      EntryAt(e, st, es, i, ppath, queue)
        == InState(if d != Nil && d != m then Emit(cfg, es[i].key, d, m, queue) else Ok(queue), st)
  {
  }

  /** Line 125: a provided value whose text is `:mod_def` is left to the module: nothing is written. */
  lemma ProvidedModDef(e: Env, st: St, es: seq<Pair>, i: nat, ppath: seq<Value>, queue: seq<Pair>)
    requires i < |es| && es[i].val.Hash? && IsLeaf(es[i].val.entries) && !HasKey(es[i].val.entries, KCbProcess)
    requires ProvidedFor(st, es, i, ppath) != Nil && DefaultsRead(e, es[i].val.entries)
    requires NotExcluded(st.provided, es[i].key, es[i].val.entries)
    requires Str(ToS(ProvidedFor(st, es, i, ppath))) == GetDefaultValue(es[i].val.entries, ModDef, e.c.platform).value
    ensures EntryAt(e, st, es, i, ppath, queue) == Ok(Resolved(queue, st))
  {
  }

  /** Lines 87-95: a provided parameter whose exclusion check fails aborts the walk, whatever its kind. */
  lemma ExclusionAborts(e: Env, st: St, es: seq<Pair>, i: nat, ppath: seq<Value>, queue: seq<Pair>)
    requires i < |es| && es[i].val.Hash? && ProvidedFor(st, es, i, ppath) != Nil
    requires !NotExcluded(st.provided, es[i].key, es[i].val.entries)
    ensures EntryAt(e, st, es, i, ppath, queue)
      == Err(ExclusionCheck(st.provided, es[i].key, AsList(At(es[i].val.entries, KExclude))).error)
  {
  }

  /** A provided leaf value other than `:mod_def` that passed the exclusion check. */
  predicate Checked(e: Env, st: St, es: seq<Pair>, i: nat, ppath: seq<Value>)
    requires i < |es|
  {
    es[i].val.Hash? && IsLeaf(es[i].val.entries) && DefaultsRead(e, es[i].val.entries)
    && ProvidedFor(st, es, i, ppath) != Nil
    && NotExcluded(st.provided, es[i].key, es[i].val.entries)
    && Str(ToS(ProvidedFor(st, es, i, ppath))) != GetDefaultValue(es[i].val.entries, ModDef, e.c.platform).value
  }

  /** Lines 127-132: a value outside `:allow` aborts the walk before any validator runs. */
  lemma AllowAborts(e: Env, st: St, es: seq<Pair>, i: nat, ppath: seq<Value>, queue: seq<Pair>)
    requires i < |es| && Checked(e, st, es, i, ppath)
    requires AllowCheck(es[i].val.entries, es[i].key, ProvidedFor(st, es, i, ppath)).Err?
    ensures EntryAt(e, st, es, i, ppath, queue)
      == Err(AllowCheck(es[i].val.entries, es[i].key, ProvidedFor(st, es, i, ppath)).error)
  {
  }

  /** Lines 150-173: when no validator accepts the value the walk aborts, `:cb_process` or not. */
  lemma InvalidAborts(e: Env, st: St, es: seq<Pair>, i: nat, ppath: seq<Value>, queue: seq<Pair>, cbs: seq<Value>, st': St)
    requires i < |es| && Checked(e, st, es, i, ppath)
    requires AllowCheck(es[i].val.entries, es[i].key, ProvidedFor(st, es, i, ppath)).Ok?
    requires ValidatorTexts(es[i].val.entries) == Ok(cbs)
    requires Validate(e, st, cbs, ProvidedFor(st, es, i, ppath)) == Ok(Validated(false, st'))
    ensures EntryAt(e, st, es, i, ppath, queue) == Err(UnsupportedParamValue(ToS(es[i].key)))
  {
  }

  /**
   * Lines 161 and 177-203: an accepted value is written as given when it is a hash or an array
   * and as its text otherwise, in the state the validators left.
   */
  lemma ValidLeafEmits(e: Env, st: St, es: seq<Pair>, i: nat, ppath: seq<Value>, queue: seq<Pair>, cbs: seq<Value>, st': St)
    requires i < |es| && Checked(e, st, es, i, ppath) && !HasKey(es[i].val.entries, KCbProcess)
    requires AllowCheck(es[i].val.entries, es[i].key, ProvidedFor(st, es, i, ppath)).Ok?
    requires ValidatorTexts(es[i].val.entries) == Ok(cbs)
    requires Validate(e, st, cbs, ProvidedFor(st, es, i, ppath)) == Ok(Validated(true, st'))
    ensures var p := ProvidedFor(st, es, i, ppath);
      EntryAt(e, st, es, i, ppath, queue)
        == InState(Emit(es[i].val.entries, es[i].key, if p.Hash? || p.Arr? then p else Str(ToS(p)),
                        GetDefaultValue(es[i].val.entries, ModDef, e.c.platform).value, queue), st')
  {
  }

  /**
   * Lines 164-170: `:cb_process` receives the raw provided value, nil for an absent parameter,
   * never the default; what it returns is what is written.
   */
  lemma ProcessSeesProvided(e: Env, st: St, es: seq<Pair>, i: nat, ppath: seq<Value>, queue: seq<Pair>)
    requires i < |es| && es[i].val.Hash? && IsLeaf(es[i].val.entries) && HasKey(es[i].val.entries, KCbProcess)
    requires ProvidedFor(st, es, i, ppath) == Nil && DefaultsRead(e, es[i].val.entries)
    ensures var cfg := es[i].val.entries;
      var s := Invoke(e, st, At(cfg, KCbProcess), Nil);
      EntryAt(e, st, es, i, ppath, queue)
        == if s.Err? then Err(s.error)
           else InState(Emit(cfg, es[i].key, s.value.value, GetDefaultValue(cfg, ModDef, e.c.platform).value, queue), s.value.st)
  {
  }

  // ----- the checks, stated on their own -----

  /** The provided tree holds nothing at the '->' path `x`. */
  predicate PathAbsent(root: Value, x: Value)
  {
    x.Str? && Lookup(root, Strs(Split(x.s, "->"))) == Nil
  }

  /** Lines 89-94: the check passes exactly when every excluded path is absent from the provided tree. */
  lemma {:induction false} ExclusionPasses(root: Value, param: Value, xs: seq<Value>)
    ensures ExclusionCheck(root, param, xs).Ok? <==> forall j | 0 <= j < |xs| :: PathAbsent(root, xs[j])
    ensures ExclusionCheck(root, param, xs).Ok? ==> ExclusionCheck(root, param, xs).value
    decreases |xs|
  {
    if |xs| > 0 {
      ExclusionPasses(root, param, xs[1..]);
      if ExclusionCheck(root, param, xs).Ok? {
        forall j | 0 <= j < |xs| ensures PathAbsent(root, xs[j]) {
          if j > 0 { assert xs[1..][j - 1] == xs[j]; }
        }
      } else if PathAbsent(root, xs[0]) {
        var j :| 0 <= j < |xs[1..]| && !PathAbsent(root, xs[1..][j]);
        assert xs[1..][j] == xs[j + 1];
      }
    }
  }

  /** Line 91: the first excluded path that is present is the one reported. */
  lemma {:induction false} ExclusionFirstHit(root: Value, param: Value, xs: seq<Value>, j: nat)
    requires j < |xs| && xs[j].Str? && !PathAbsent(root, xs[j])
    requires forall i | 0 <= i < j :: PathAbsent(root, xs[i])
    ensures ExclusionCheck(root, param, xs) == Err(ExclusiveParams(ToS(param), xs[j].s))
    decreases j
  {
    if j > 0 {
      assert PathAbsent(root, xs[0]);
      assert forall i | 0 <= i < j - 1 :: xs[1..][i] == xs[i + 1];
      ExclusionFirstHit(root, param, xs[1..], j - 1);
    }
  }

  /**
   * Lines 127-132 with an `:allow` list: the value passes exactly when its text is listed and,
   * for an array, every element outside the list is itself empty.
   */
  lemma AllowPasses(cfg: seq<Pair>, param: Value, provided: Value)
    requires HasKey(cfg, KAllow) && At(cfg, KAllow).Arr?
    ensures AllowCheck(cfg, param, provided).Ok?
      <==> (Str(ToS(provided)) in At(cfg, KAllow).items
            && (provided.Arr? ==> forall j | 0 <= j < |provided.items| :: provided.items[j] in At(cfg, KAllow).items || IsEmpty(provided.items[j])))
  {
    var allow := At(cfg, KAllow).items;
    if provided.Arr? {
      var left := Minus(provided.items, allow);
      if IsEmpty(Arr(left)) {
        forall j | 0 <= j < |provided.items| && provided.items[j] !in allow
          ensures IsEmpty(provided.items[j])
        {
          var k :| 0 <= k < |left| && left[k] == provided.items[j];
        }
      } else {
        var k :| 0 <= k < |left| && !IsEmpty(left[k]);
        var j :| 0 <= j < |provided.items| && provided.items[j] == left[k];
      }
    }
  }

  /**
   * Lines 127-132 with a scalar `:allow`: a value that is not an array passes a String exactly
   * when its text occurs in it, and a Hash exactly when its text is a key; any other `:allow`
   * raises at `include?`. An array against a non-Array `:allow` raises at the subtraction.
   */
  lemma AllowScalar(cfg: seq<Pair>, param: Value, provided: Value)
    requires HasKey(cfg, KAllow) && !At(cfg, KAllow).Arr?
    ensures provided.Arr? ==> AllowCheck(cfg, param, provided) == Err(TypeErr("no implicit conversion into Array"))
    ensures !provided.Arr? && At(cfg, KAllow).Str? ==>
      (AllowCheck(cfg, param, provided).Ok? <==> Contains(At(cfg, KAllow).s, ToS(provided)))
    ensures !provided.Arr? && At(cfg, KAllow).Hash? ==>
      (AllowCheck(cfg, param, provided).Ok? <==> HasKey(At(cfg, KAllow).entries, Str(ToS(provided))))
    ensures !provided.Arr? && !At(cfg, KAllow).Str? && !At(cfg, KAllow).Hash? ==>
      AllowCheck(cfg, param, provided) == Err(NoMethod("include?"))
    ensures AllowCheck(cfg, param, provided).Err? ==>
      AllowCheck(cfg, param, provided).error in
        {TypeErr("no implicit conversion into Array"), NoMethod("include?"), UnsupportedValue(ToS(provided), ToS(param))}
  {
  }

  /** Without an `:allow` list every value passes. */
  lemma AllowAbsent(cfg: seq<Pair>, param: Value, provided: Value)
    requires !HasKey(cfg, KAllow)
    ensures AllowCheck(cfg, param, provided) == Ok(true)
  {
  }

  // ----- what is written -----

  /**
   * Lines 193-201: a value other than nil and `:mod_def` is written under `:maps_to` (or the
   * schema key), flag hashes quoted first, wrapped in quotes when a wrapping validator is
   * expected; every other key keeps its value.
   */
  lemma EmitWrites(cfg: seq<Pair>, param: Value, value: Value, modDef: Value, queue: seq<Pair>)
    requires value != Nil && value != modDef
    requires MapsTo(cfg, param).Ok? && (FlagsExpected(cfg) ==> QuoteFlags(value).Ok?)
    ensures Emit(cfg, param, value, modDef, queue).Ok?
    ensures var v := if FlagsExpected(cfg) then QuoteFlags(value).value else value;
      Get(Emit(cfg, param, value, modDef, queue).value, MapsTo(cfg, param).value)
        == Some(if Wrapped(cfg) then Str(Quoted(ToS(v))) else v)
  {
    var v := if FlagsExpected(cfg) then QuoteFlags(value).value else value;
    PutGetSame(queue, MapsTo(cfg, param).value, if Wrapped(cfg) then Str(Quoted(ToS(v))) else v);
  }

  /** Line 196: writing one key leaves every other key as it was. */
  lemma EmitKeepsOthers(cfg: seq<Pair>, param: Value, value: Value, modDef: Value, queue: seq<Pair>, other: Value)
    requires Emit(cfg, param, value, modDef, queue).Ok?
    requires MapsTo(cfg, param).Ok? && other != MapsTo(cfg, param).value
    ensures Get(Emit(cfg, param, value, modDef, queue).value, other) == Get(queue, other)
  {
    if value != Nil && value != modDef {
      var v := if FlagsExpected(cfg) then QuoteFlags(value).value else value;
      PutGetOther(queue, MapsTo(cfg, param).value, if Wrapped(cfg) then Str(Quoted(ToS(v))) else v, other);
    }
  }

  /** Lines 177-178: nil and `:mod_def` are never written. */
  lemma EmitSkips(cfg: seq<Pair>, param: Value, value: Value, modDef: Value, queue: seq<Pair>)
    requires value == Nil || value == modDef
    ensures Emit(cfg, param, value, modDef, queue) == Ok(queue)
  {
  }

  /** Line 195: a present, non-blank `:maps_to` renames the key; otherwise the schema key is used. */
  lemma MapsToKey(cfg: seq<Pair>, param: Value)
    ensures !HasKey(cfg, KMapsTo) ==> MapsTo(cfg, param) == Ok(param)
    ensures HasKey(cfg, KMapsTo) && BlankOf(At(cfg, KMapsTo)) == Ok(false) ==> MapsTo(cfg, param) == Ok(At(cfg, KMapsTo))
    ensures HasKey(cfg, KMapsTo) && BlankOf(At(cfg, KMapsTo)) == Ok(true) ==> MapsTo(cfg, param) == Ok(param)
  {
  }

  /** The quoted text a flag key is written under. */
  function FlagKey(k: Value): Value
  {
    Str(Quoted(ToS(k)))
  }

  /** Lines 182-190: the keys written are exactly the quoted texts of the given keys. */
  lemma {:induction false} QuotedPairsKeys(ps: seq<Pair>, n: nat, k: Value)
    requires n <= |ps|
    ensures HasKey(QuotedPairs(ps, n), k) <==> exists j | 0 <= j < n :: k == FlagKey(ps[j].key)
  {
    if n > 0 {
      var prev, fk, v := QuotedPairs(ps, n - 1), FlagKey(ps[n - 1].key), Str(FlagText(ps[n - 1].val));
      assert QuotedPairs(ps, n) == Put(prev, fk, v);
      QuotedPairsKeys(ps, n - 1, k);
      PutHasKey(prev, fk, v, k);
      if HasKey(prev, k) {
        var j :| 0 <= j < n - 1 && k == FlagKey(ps[j].key);
        assert 0 <= j < n;
      } else if k != fk {
        forall j | 0 <= j < n ensures k != FlagKey(ps[j].key) {
          if j < n - 1 {
            assert !(0 <= j < n - 1 && k == FlagKey(ps[j].key));
          }
        }
      }
    }
  }

  /** Lines 182-190: a quoted key holds the flag text of the last pair written under it. */
  lemma {:induction false} QuotedPairsLast(ps: seq<Pair>, n: nat, j: nat)
    requires j < n <= |ps|
    requires forall i | j < i < n :: FlagKey(ps[i].key) != FlagKey(ps[j].key)
    ensures Get(QuotedPairs(ps, n), FlagKey(ps[j].key)) == Some(Str(FlagText(ps[j].val)))
  {
    if j == n - 1 {
      PutGetSame(QuotedPairs(ps, n - 1), FlagKey(ps[j].key), Str(FlagText(ps[j].val)));
    } else {
      QuotedPairsLast(ps, n - 1, j);
      PutGetOther(QuotedPairs(ps, n - 1), FlagKey(ps[n - 1].key), Str(FlagText(ps[n - 1].val)), FlagKey(ps[j].key));
    }
  }

  /** Lines 184-189: booleans and 'on'/'off' become the quoted words; anything else its quoted text. */
  lemma FlagTexts(v: Value)
    ensures v == Bool(true) || v == Str("on") ==> FlagText(v) == "'on'"
    ensures v == Bool(false) || v == Str("off") ==> FlagText(v) == "'off'"
    ensures v !in {Bool(true), Bool(false), Str("on"), Str("off")} ==> FlagText(v) == Quoted(ToS(v))
  {
  }

  // ----- nested entries -----

  /** Lines 193-201: writing one key keeps the queue a hash with one entry per key. */
  lemma EmitUnique(cfg: seq<Pair>, param: Value, value: Value, modDef: Value, queue: seq<Pair>)
    requires UniqueKeys(queue)
    ensures Emit(cfg, param, value, modDef, queue).Ok? ==> UniqueKeys(Emit(cfg, param, value, modDef, queue).value)
  {
    if Emit(cfg, param, value, modDef, queue).Ok? && value != Nil && value != modDef {
      var v := if FlagsExpected(cfg) then QuoteFlags(value).value else value;
      PutKeepsUnique(queue, MapsTo(cfg, param).value, if Wrapped(cfg) then Str(Quoted(ToS(v))) else v);
    }
  }

  lemma FinishUnique(e: Env, st: St, cfg: seq<Pair>, param: Value, provided: Value, value: Value, modDef: Value,
                     valid: bool, queue: seq<Pair>)
    requires UniqueKeys(queue)
    ensures var r := Finish(e, st, cfg, param, provided, value, modDef, valid, queue);
      r.Ok? ==> UniqueKeys(r.value.queue)
  {
    var r := Finish(e, st, cfg, param, provided, value, modDef, valid, queue);
    if r.Ok? {
      var s := if HasKey(cfg, KCbProcess) then Invoke(e, st, At(cfg, KCbProcess), provided).value else Step(value, st);
      EmitUnique(cfg, param, s.value, modDef, queue);
    }
  }

  /** One entry keeps the queue a hash with one entry per key. */
  lemma EntryAtUnique(e: Env, st: St, es: seq<Pair>, i: nat, ppath: seq<Value>, queue: seq<Pair>)
    requires i < |es| && UniqueKeys(queue)
    ensures var r := EntryAt(e, st, es, i, ppath, queue); r.Ok? ==> UniqueKeys(r.value.queue)
  {
    var r := EntryAt(e, st, es, i, ppath, queue);
    if r.Ok? {
      EntryAtOk(e, st, es, i, ppath, queue);
      var param := es[i].key;
      var cfg := es[i].val.entries;
      var provided := ProvidedFor(st, es, i, ppath);
      var ci := Find(cfg, KChildren);
      var hi := Find(cfg, KChildrenHash);
      if ci.Some? {
        var sub := SetParams(e, st, cfg[ci.value].val, ppath + [param]).value;
        MergeFromUnique(queue, sub.queue, 0);
        FinishUnique(e, sub.st, cfg, param, provided, Nil, Nil, true, if sub.queue != [] then DeepMerge(queue, sub.queue) else queue);
      } else if hi.Some? {
        if provided == Nil {
          FinishUnique(e, st, cfg, param, provided, Nil, Nil, true, queue);
        } else {
          var inst := Instances(e, st, cfg[hi.value].val, provided.entries, 0, ppath + [param], []).value;
          FinishUnique(e, inst.st, cfg, param, provided, Hash(inst.queue), Nil, true, queue);
        }
      } else {
        var leaf := LeafOf(e, st, cfg, param, provided).value;
        FinishUnique(e, leaf.st, cfg, param, provided, leaf.value, leaf.modDef, leaf.valid, queue);
      }
    }
  }

  lemma {:induction false} EntriesUnique(e: Env, st: St, es: seq<Pair>, i: nat, ppath: seq<Value>, queue: seq<Pair>)
    requires i <= |es| && UniqueKeys(queue)
    ensures var r := Entries(e, st, es, i, ppath, queue); r.Ok? ==> UniqueKeys(r.value.queue)
    decreases |es| - i
  {
    if i < |es| {
      var ok, st', queue' := EntriesHead(e, st, es, i, ppath, queue);
      if ok {
        EntriesUnique(e, st', es, i + 1, ppath, queue');
      }
    }
  }

  /** The first entry either aborts the walk, or leaves a queue with unique keys for the rest of it. */
  lemma EntriesHead(e: Env, st: St, es: seq<Pair>, i: nat, ppath: seq<Value>, queue: seq<Pair>)
    returns (ok: bool, st': St, queue': seq<Pair>)
    requires i < |es| && UniqueKeys(queue)
    ensures ok ==> UniqueKeys(queue') && Entries(e, st, es, i, ppath, queue) == Entries(e, st', es, i + 1, ppath, queue')
    ensures !ok ==> Entries(e, st, es, i, ppath, queue).Err?
  {
    var r := EntryAt(e, st, es, i, ppath, queue);
    EntryAtUnique(e, st, es, i, ppath, queue);
    ok := r.Ok?;
    if ok {
      st', queue' := r.value.st, r.value.queue;
    } else {
      st', queue' := st, queue;
    }
  }

  /** The queue `set_params` returns is a hash: one entry per key. */
  lemma SetParamsUnique(e: Env, st: St, schema: Value, ppath: seq<Value>)
    ensures var r := SetParams(e, st, schema, ppath); r.Ok? ==> UniqueKeys(r.value.queue)
  {
    if schema.Hash? {
      EntriesUnique(e, st, schema.entries, 0, ppath, []);
    }
  }

  /**
   * Lines 97-100: a `:children` entry writes no key of its own; its children's parameters are
   * deep-merged into the queue of its own level.
   */
  lemma ChildrenMerged(e: Env, st: St, es: seq<Pair>, i: nat, ppath: seq<Value>, queue: seq<Pair>, k: Value)
    requires i < |es| && es[i].val.Hash? && HasKey(es[i].val.entries, KChildren)
    requires !HasKey(es[i].val.entries, KCbProcess)
    requires ProvidedFor(st, es, i, ppath) != Nil ==> NotExcluded(st.provided, es[i].key, es[i].val.entries)
    requires SetParams(e, st, At(es[i].val.entries, KChildren), ppath + [es[i].key]).Ok?
    ensures var sub := SetParams(e, st, At(es[i].val.entries, KChildren), ppath + [es[i].key]).value;
      var r := EntryAt(e, st, es, i, ppath, queue);
      r.Ok? && r.value.st == sub.st
      && Get(r.value.queue, k) == match Get(sub.queue, k)
        case None => Get(queue, k)
        case Some(v) => Some(Merger(Get(queue, k), v))
  {
    var sub := SetParams(e, st, At(es[i].val.entries, KChildren), ppath + [es[i].key]).value;
    SetParamsUnique(e, st, At(es[i].val.entries, KChildren), ppath + [es[i].key]);
    DeepMergeGet(queue, sub.queue, k);
  }

  /** Lines 102-110: an absent `:children_hash` parameter writes nothing. */
  lemma ChildrenHashAbsent(e: Env, st: St, es: seq<Pair>, i: nat, ppath: seq<Value>, queue: seq<Pair>)
    requires i < |es| && es[i].val.Hash? && !HasKey(es[i].val.entries, KChildren) && HasKey(es[i].val.entries, KChildrenHash)
    requires !HasKey(es[i].val.entries, KCbProcess) && ProvidedFor(st, es, i, ppath) == Nil
    ensures EntryAt(e, st, es, i, ppath, queue) == Ok(Resolved(queue, st))
  {
  }

  /** Lines 103-104: a provided `:children_hash` value that is not a non-empty hash aborts the walk. */
  lemma ChildrenHashRejects(e: Env, st: St, es: seq<Pair>, i: nat, ppath: seq<Value>, queue: seq<Pair>)
    requires i < |es| && es[i].val.Hash? && !HasKey(es[i].val.entries, KChildren) && HasKey(es[i].val.entries, KChildrenHash)
    requires ProvidedFor(st, es, i, ppath) != Nil && NotExcluded(st.provided, es[i].key, es[i].val.entries)
    requires !ProvidedFor(st, es, i, ppath).Hash? || ProvidedFor(st, es, i, ppath).entries == []
    ensures EntryAt(e, st, es, i, ppath, queue) == Err(UnsupportedParamValue(ToS(es[i].key)))
  {
  }

  /**
   * Lines 105-110 and 193-201: a provided hash of instances is written, as one hash of nested
   * queues, under the entry's key.
   */
  lemma ChildrenHashEmits(e: Env, st: St, es: seq<Pair>, i: nat, ppath: seq<Value>, queue: seq<Pair>)
    requires i < |es| && es[i].val.Hash? && !HasKey(es[i].val.entries, KChildren) && HasKey(es[i].val.entries, KChildrenHash)
    requires !HasKey(es[i].val.entries, KCbProcess) && NotExcluded(st.provided, es[i].key, es[i].val.entries)
    requires var p := ProvidedFor(st, es, i, ppath); p.Hash? && p.entries != []
    requires Instances(e, st, At(es[i].val.entries, KChildrenHash), ProvidedFor(st, es, i, ppath).entries, 0, ppath + [es[i].key], []).Ok?
    ensures var inst := Instances(e, st, At(es[i].val.entries, KChildrenHash), ProvidedFor(st, es, i, ppath).entries, 0, ppath + [es[i].key], []).value;
      EntryAt(e, st, es, i, ppath, queue) == InState(Emit(es[i].val.entries, es[i].key, Hash(inst.queue), Nil, queue), inst.st)
  {
  }

  /** Line 107: each provided instance gets a nested queue under its quoted name, and nothing else is written. */
  lemma {:induction false} InstancesKeyed(e: Env, st: St, schema: Value, insts: seq<Pair>, k: nat, ppath: seq<Value>,
                                          value: seq<Pair>, key: Value)
    requires k <= |insts|
    requires Instances(e, st, schema, insts, k, ppath, value).Ok?
    ensures HasKey(Instances(e, st, schema, insts, k, ppath, value).value.queue, key)
      <==> HasKey(value, key) || exists j | k <= j < |insts| :: key == InstanceKey(insts[j].key)
    decreases |insts| - k
  {
    if k < |insts| {
      var sub := SetParams(e, st, schema, ppath + [insts[k].key]).value;
      var value' := Put(value, InstanceKey(insts[k].key), Hash(sub.queue));
      InstancesKeyed(e, sub.st, schema, insts, k + 1, ppath, value', key);
      PutHasKey(value, InstanceKey(insts[k].key), Hash(sub.queue), key);
      if exists j | k <= j < |insts| :: key == InstanceKey(insts[j].key) {
        var j :| k <= j < |insts| && key == InstanceKey(insts[j].key);
        if j > k {
          assert k + 1 <= j < |insts|;
        }
      }
    }
  }

  /** Line 107: what an instance key holds is a nested queue, a hash. */
  lemma {:induction false} InstancesHashes(e: Env, st: St, schema: Value, insts: seq<Pair>, k: nat, ppath: seq<Value>,
                                           value: seq<Pair>, key: Value)
    requires k <= |insts|
    requires Instances(e, st, schema, insts, k, ppath, value).Ok?
    ensures var g := Get(Instances(e, st, schema, insts, k, ppath, value).value.queue, key);
      g == Get(value, key) || (g.Some? && g.value.Hash?)
    decreases |insts| - k
  {
    if k < |insts| {
      var sub := SetParams(e, st, schema, ppath + [insts[k].key]).value;
      var value' := Put(value, InstanceKey(insts[k].key), Hash(sub.queue));
      InstancesHashes(e, sub.st, schema, insts, k + 1, ppath, value', key);
      if key == InstanceKey(insts[k].key) {
        PutGetSame(value, key, Hash(sub.queue));
      } else {
        PutGetOther(value, InstanceKey(insts[k].key), Hash(sub.queue), key);
      }
    }
  }

  // ----- the calls only grow -----

  /** `b` keeps every call `a` made, in order, and may add more after them. */
  predicate Extends(a: St, b: St)
  {
    |a.calls| <= |b.calls| && b.calls[..|a.calls|] == a.calls
  }

  lemma ExtendsTrans(a: St, b: St, c: St)
    requires Extends(a, b) && Extends(b, c)
    ensures Extends(a, c)
  {
    assert c.calls[..|a.calls|] == c.calls[..|b.calls|][..|a.calls|];
  }

  lemma VersionStepExtends(c: Ctx, st: St, value: Value, parent: string)
    ensures var r := Mariadb.VersionStep(c, st, value, parent); r.Ok? ==> Extends(st, r.value)
  {
    var r := Mariadb.VersionStep(c, st, value, parent);
    if r.Ok? {
      var st1 := Mariadb.RequestedBranch(st, value, parent).value;
      assert st1.calls == st.calls;
    }
  }

  lemma ProcessParamExtends(c: Ctx, st: St, value: Value, param: string, parent: string)
    ensures var r := Mariadb.ProcessParam(c, st, value, param, parent); r.Ok? ==> Extends(st, r.value.st)
  {
    var r := Mariadb.ProcessParam(c, st, value, param, parent);
    if r.Ok? && param == "version" {
      var children := Mariadb.NodeChildren(parent);
      var p1 := if children.Some? then Mariadb.CopyIntoGroup(st.provided, parent, children.value, param, value) else Ok(st.provided);
      assert p1.Ok?;
      var st1 := st.(provided := p1.value);
      var st2 := Mariadb.VersionStep(c, st1, value, parent);
      assert st2.Ok?;
      VersionStepExtends(c, st1, value, parent);
      assert r.value.st.calls == st2.value.calls;
    }
  }

  /** No callback takes back a call already made. */
  lemma DispatchExtends(e: Env, st: St, cb: Callback, value: Value)
    ensures var r := Dispatch(e, st, cb, value); r.Ok? ==> Extends(st, r.value.st)
  {
    match cb
      case CbValid(_) =>
      case CbProcessParam(param, parent) => ProcessParamExtends(e.c, st, value, param, parent);
      case CbIncludeHieraclass(_) =>
      case CbProcessVersion(cn) => ProcessVersionExtends(e.c, st, value, cn);
      case CbEmpty =>
      case CbGetInstallDir =>
      case CbSetupAssets(typ) => SetupAssetsExtends(e.c, st, value, typ);
      case CbPresyncExcludes =>
      case CbListenIgnores =>
  }

  lemma ProcessVersionExtends(c: Ctx, st: St, value: Value, cn: string)
    ensures var r := ProcessVersion(c, st, value, cn); r.Ok? ==> Extends(st, r.value.st)
  {
  }

  lemma SetupAssetsExtends(c: Ctx, st: St, value: Value, typ: string)
    ensures var r := Wordpress.SetupAssets(c, st, value, typ); r.Ok? ==> Extends(st, r.value.st)
  {
  }

  lemma InvokeExtends(e: Env, st: St, text: Value, value: Value)
    ensures var r := Invoke(e, st, text, value); r.Ok? ==> Extends(st, r.value.st)
  {
    if text.Str? && ParseText(text.s).Ok? && Bind(e.kind, ParseText(text.s).value).Ok? {
      DispatchExtends(e, st, Bind(e.kind, ParseText(text.s).value).value, value);
    }
  }

  lemma {:induction false} RunValidatorsExtends(e: Env, st: St, cbs: seq<Value>, provided: Value)
    ensures var r := RunValidators(e, st, cbs, provided); r.Ok? ==> Extends(st, r.value.st)
    decreases |cbs|
  {
    if |cbs| > 0 {
      InvokeExtends(e, st, cbs[0], provided);
      var s := Invoke(e, st, cbs[0], provided);
      if s.Ok? && !Truthy(s.value.value) {
        RunValidatorsExtends(e, s.value.st, cbs[1..], provided);
        var r := RunValidators(e, st, cbs, provided);
        if r.Ok? { ExtendsTrans(st, s.value.st, r.value.st); }
      }
    }
  }

  lemma ValidateExtends(e: Env, st: St, cbs: seq<Value>, provided: Value)
    ensures var r := Validate(e, st, cbs, provided); r.Ok? ==> Extends(st, r.value.st)
  {
    RunValidatorsExtends(e, st, cbs, provided);
  }

  lemma LeafExtends(e: Env, st: St, cfg: seq<Pair>, param: Value, provided: Value)
    ensures var r := LeafOf(e, st, cfg, param, provided); r.Ok? ==> Extends(st, r.value.st)
  {
    var m := GetDefaultValue(cfg, ModDef, e.c.platform);
    var cbs := ValidatorTexts(cfg);
    if m.Ok? && provided != Nil && Str(ToS(provided)) != m.value && cbs.Ok? {
      ValidateExtends(e, st, cbs.value, provided);
    }
  }

  lemma FinishExtends(e: Env, st: St, cfg: seq<Pair>, param: Value, provided: Value, value: Value, modDef: Value,
                      valid: bool, queue: seq<Pair>)
    ensures var r := Finish(e, st, cfg, param, provided, value, modDef, valid, queue); r.Ok? ==> Extends(st, r.value.st)
  {
    if HasKey(cfg, KCbProcess) {
      InvokeExtends(e, st, At(cfg, KCbProcess), provided);
    }
  }

  /** The walk only ever adds calls after those made before it. */
  lemma SetParamsExtends(e: Env, st: St, schema: Value, ppath: seq<Value>)
    ensures var r := SetParams(e, st, schema, ppath); r.Ok? ==> Extends(st, r.value.st)
    decreases schema, 3
  {
    if schema.Hash? {
      EntriesExtends(e, st, schema.entries, 0, ppath, []);
    }
  }

  lemma EntriesExtends(e: Env, st: St, es: seq<Pair>, i: nat, ppath: seq<Value>, queue: seq<Pair>)
    requires i <= |es|
    ensures var r := Entries(e, st, es, i, ppath, queue); r.Ok? ==> Extends(st, r.value.st)
    decreases Value.Hash(es), 2, |es| - i
  {
    if i < |es| {
      EntryAtExtends(e, st, es, i, ppath, queue);
      var s := EntryAt(e, st, es, i, ppath, queue);
      if s.Ok? {
        EntriesExtends(e, s.value.st, es, i + 1, ppath, s.value.queue);
        var r := Entries(e, st, es, i, ppath, queue);
        if r.Ok? { ExtendsTrans(st, s.value.st, r.value.st); }
      }
    }
  }

  lemma EntryAtExtends(e: Env, st: St, es: seq<Pair>, i: nat, ppath: seq<Value>, queue: seq<Pair>)
    requires i < |es|
    ensures var r := EntryAt(e, st, es, i, ppath, queue); r.Ok? ==> Extends(st, r.value.st)
    decreases Value.Hash(es), 1
  {
    var r := EntryAt(e, st, es, i, ppath, queue);
    if r.Ok? {
      EntryAtOk(e, st, es, i, ppath, queue);
      var param := es[i].key;
      var cfg := es[i].val.entries;
      var provided := ProvidedFor(st, es, i, ppath);
      var ci := Find(cfg, KChildren);
      var hi := Find(cfg, KChildrenHash);
      if ci.Some? {
        SetParamsExtends(e, st, cfg[ci.value].val, ppath + [param]);
        var sub := SetParams(e, st, cfg[ci.value].val, ppath + [param]).value;
        FinishExtends(e, sub.st, cfg, param, provided, Nil, Nil, true, if sub.queue != [] then DeepMerge(queue, sub.queue) else queue);
        ExtendsTrans(st, sub.st, r.value.st);
      } else if hi.Some? {
        if provided == Nil {
          FinishExtends(e, st, cfg, param, provided, Nil, Nil, true, queue);
        } else {
          InstancesExtends(e, st, cfg[hi.value].val, provided.entries, 0, ppath + [param], []);
          var inst := Instances(e, st, cfg[hi.value].val, provided.entries, 0, ppath + [param], []).value;
          FinishExtends(e, inst.st, cfg, param, provided, Hash(inst.queue), Nil, true, queue);
          ExtendsTrans(st, inst.st, r.value.st);
        }
      } else {
        LeafExtends(e, st, cfg, param, provided);
        var leaf := LeafOf(e, st, cfg, param, provided).value;
        FinishExtends(e, leaf.st, cfg, param, provided, leaf.value, leaf.modDef, leaf.valid, queue);
        ExtendsTrans(st, leaf.st, r.value.st);
      }
    }
  }

  lemma InstancesExtends(e: Env, st: St, schema: Value, insts: seq<Pair>, k: nat, ppath: seq<Value>, value: seq<Pair>)
    requires k <= |insts|
    ensures var r := Instances(e, st, schema, insts, k, ppath, value); r.Ok? ==> Extends(st, r.value.st)
    decreases schema, 4, |insts| - k
  {
    if k < |insts| {
      SetParamsExtends(e, st, schema, ppath + [insts[k].key]);
      var sub := SetParams(e, st, schema, ppath + [insts[k].key]);
      if sub.Ok? {
        var value' := Put(value, InstanceKey(insts[k].key), Hash(sub.value.queue));
        InstancesExtends(e, sub.value.st, schema, insts, k + 1, ppath, value');
        var r := Instances(e, st, schema, insts, k, ppath, value);
        if r.Ok? { ExtendsTrans(st, sub.value.st, r.value.st); }
      }
    }
  }

  // ----- setup -----

  /** Lines 215-217: `@provided` is set, then the librarian modules and the Hiera classes are enqueued when given. */
  function Prepared(st: St, settings: Value, librarian: Value, hieraclasses: Value): Result<St>
  {
    var st1 := st.(provided := if settings.Hash? then settings else Hash([]));
    var st2 := if librarian.Hash? && librarian.entries != [] then st1.(calls := st1.calls + [LibrarianMods(librarian)]) else st1;
    var blank :- if hieraclasses.Arr? then BlankOf(hieraclasses) else Ok(true);
    Ok(if !blank then st2.(calls := st2.calls + [HieraClasses(hieraclasses)]) else st2)
  }

  /** Line 220: the `custom_setup` of the class, where it has one. */
  function CustomSetupOf(e: Env, st: St): St
  {
    match e.kind
      case MariaDBClass(mem, main) => st.(calls := Mariadb.CustomSetup(st.calls, mem, main))
      case _ => st
  }

  /**
   * `setup(settings)`, lines 214-220: prepare, then (when the class has a schema) resolve it and
   * enqueue the result under the class label, then the class's own setup.
   */
  function Setup(e: Env, st: St, settings: Value, librarian: Value, hieraclasses: Value): Result<St>
  {
    var st3 :- Prepared(st, settings, librarian, hieraclasses);
    var st4 :- Resolve(e, st3);
    Ok(CustomSetupOf(e, st4))
  }

  /** Line 218: a class with a schema resolves it and enqueues the result under its label. */
  function Resolve(e: Env, st: St): Result<St>
  {
    if e.c.supported != [] then
      var res :- SetParams(e, st, Hash(e.c.supported), []);
      Ok(res.st.(calls := res.st.calls + [HieraParams(e.c.name, res.queue)]))
    else Ok(st)
  }

  /**
   * Lines 214-220: the librarian modules come first, then the Hiera classes, then whatever the
   * schema's callbacks enqueue, then the resolved parameters under the class label; a class
   * without schema enqueues no parameters.
   */
  lemma PreparedCalls(st: St, settings: Value, librarian: Value, hieraclasses: Value)
    requires Prepared(st, settings, librarian, hieraclasses).Ok?
    ensures var pre := Prepared(st, settings, librarian, hieraclasses).value;
      pre.calls == st.calls
        + (if librarian.Hash? && librarian.entries != [] then [LibrarianMods(librarian)] else [])
        + (if hieraclasses.Arr? && BlankOf(hieraclasses) == Ok(false) then [HieraClasses(hieraclasses)] else [])
      && pre.provided == (if settings.Hash? then settings else Hash([]))
  {
  }

  lemma SetupOrder(e: Env, st: St, settings: Value, librarian: Value, hieraclasses: Value)
    requires Setup(e, st, settings, librarian, hieraclasses).Ok?
    ensures Prepared(st, settings, librarian, hieraclasses).Ok?
    ensures var pre := Prepared(st, settings, librarian, hieraclasses).value;
      Extends(pre, Setup(e, st, settings, librarian, hieraclasses).value)
    ensures var pre := Prepared(st, settings, librarian, hieraclasses).value;
      var r := Setup(e, st, settings, librarian, hieraclasses).value;
      e.kind.OtherClass? ==> r == Resolve(e, pre).value
  {
    var pre := Prepared(st, settings, librarian, hieraclasses).value;
    ResolveExtends(e, pre);
    var st4 := Resolve(e, pre).value;
    CustomSetupExtends(e, st4);
    ExtendsTrans(pre, st4, CustomSetupOf(e, st4));
  }

  /** Line 220: `custom_setup` only adds calls. */
  lemma CustomSetupExtends(e: Env, st: St)
    ensures Extends(st, CustomSetupOf(e, st))
    ensures CustomSetupOf(e, st).provided == st.provided
  {
  }

  /**
   * Line 218: the resolved parameters are enqueued last, after every call the schema's
   * callbacks made; a class without schema changes nothing.
   */
  lemma ResolveExtends(e: Env, st: St)
    requires Resolve(e, st).Ok?
    ensures Extends(st, Resolve(e, st).value)
    ensures e.c.supported == [] ==> Resolve(e, st).value == st
    ensures e.c.supported != [] ==>
      var res := SetParams(e, st, Hash(e.c.supported), []).value;
      var r := Resolve(e, st).value;
      Extends(st, res.st) && r.provided == res.st.provided
      && r.calls == res.st.calls + [HieraParams(e.c.name, res.queue)]
  {
    if e.c.supported != [] {
      SetParamsExtends(e, st, Hash(e.c.supported), []);
      var res := SetParams(e, st, Hash(e.c.supported), []).value;
      ExtendsTrans(st, res.st, Resolve(e, st).value);
    }
  }

  // ----- the walk as a loop -----

  /**
   * `set_params(path)` as the class method runs it: a loop over the schema entries, each one
   * resolved against the module's state and added to the queue.
   */
  method SetParamsIn(m: ModuleState, e: Env, schema: Value, ppath: seq<Value>) returns (r: Result<seq<Pair>>)
    modifies m
    ensures var f := SetParams(e, old(m.State()), schema, ppath);
      r == (if f.Ok? then Ok(f.value.queue) else Err(f.error))
    ensures var f := SetParams(e, old(m.State()), schema, ppath);
      f.Ok? ==> m.State() == f.value.st
  {
    if !schema.Hash? {
      return Err(NoMethod("each"));
    }
    var es := schema.entries;
    var queue: seq<Pair> := [];
    var i := 0;
    while i < |es|
      invariant 0 <= i <= |es|
      invariant SetParams(e, old(m.State()), schema, ppath) == Entries(e, m.State(), es, i, ppath, queue)
      decreases |es| - i
    {
      var step := EntryAt(e, m.State(), es, i, ppath, queue);
      if step.Err? {
        return Err(step.error);
      }
      m.Load(step.value.st);
      queue := step.value.queue;
      i := i + 1;
    }
    r := Ok(queue);
  }

  /** Line 218 on the module's state. */
  method ResolveIn(m: ModuleState, e: Env) returns (r: Result<bool>)
    modifies m
    ensures var f := Resolve(e, old(m.State())); r.Ok? <==> f.Ok?
    ensures var f := Resolve(e, old(m.State())); f.Ok? ==> m.State() == f.value
  {
    if e.c.supported != [] {
      var q := SetParamsIn(m, e, Hash(e.c.supported), []);
      if q.Err? {
        return Err(q.error);
      }
      m.calls := m.calls + [HieraParams(e.c.name, q.value)];
    }
    r := Ok(true);
  }

  /** `setup(settings)` on the module's state. */
  method SetupIn(m: ModuleState, e: Env, settings: Value, librarian: Value, hieraclasses: Value) returns (r: Result<bool>)
    modifies m
    ensures var f := Setup(e, old(m.State()), settings, librarian, hieraclasses);
      r.Ok? <==> f.Ok?
    ensures var f := Setup(e, old(m.State()), settings, librarian, hieraclasses);
      f.Ok? ==> m.State() == f.value
  {
    var pre := Prepared(m.State(), settings, librarian, hieraclasses);
    if pre.Err? {
      return Err(pre.error);
    }
    m.Load(pre.value);
    r := ResolveIn(m, e);
    if r.Err? {
      return;
    }
    m.Load(CustomSetupOf(e, m.State()));
  }

  // ----- one leaf with a single `:expect` tag, end to end -----

  /** Line 146: a single listed `:expect` tag gives its one validator. */
  lemma SingleExpect(cfg: seq<Pair>, x: Value)
    requires !HasKey(cfg, KCbValidate) && HasKey(cfg, KExpect) && At(cfg, KExpect) == x && ListedTag(x)
    ensures ValidatorTexts(cfg) == Ok([TagText(x)])
  {
    assert AsList(At(cfg, KExpect)) == [x];
    assert !IsEmpty(Arr([x])) by { assert [x][0] == x; }
    SingleExpectText(x);
  }

  lemma SingleExpectText(x: Value)
    requires ListedTag(x)
    ensures ExpectTexts([x]) == Ok([TagText(x)])
  {
    assert [x][0] == x;
    ExpectTextsOfListed([x]);
    assert ExpectTexts([x]).value[0] == TagText(x);
    assert ExpectTexts([x]).value == [TagText(x)];
  }

  /** A validator text holds at least the '#' between owner and method, so it is not empty. */
  lemma TagTextNotEmpty(x: Value)
    requires x.Sym?
    ensures TagText(x).Str? && |TagText(x).s| > 0
  {
    var t := CallbackText(ToolsName, ValidatorMethod(x.name), []);
    assert |TextOf(t)| >= |t.owner + "#"| > 0;
  }

  /** Lines 150-159 for one validator: its answer is the verdict and the state is kept. */
  lemma SingleValidate(e: Env, st: St, x: Value, provided: Value, a: bool)
    requires Answers(e, x, provided, a)
    ensures Validate(e, st, [TagText(x)], provided) == Ok(Validated(a, st))
  {
    InvokeValidator(e, st, x, provided, a);
    TagTextNotEmpty(x);
    assert !IsEmpty(Arr([TagText(x)])) by { assert [TagText(x)][0] == TagText(x); }
    RunValidatorsOf(e, st, [TagText(x)], provided, [a]);
    assert (true in [a]) == a;
  }

  /** Lines 113-123 and 177-196: an absent leaf whose `:doa_def` overrides its `:mod_def` is written with it. */
  lemma AbsentOverridesModDef(e: Env, st: St, es: seq<Pair>, i: nat, ppath: seq<Value>, queue: seq<Pair>, d: Value, m: Value, key: Value)
    requires i < |es| && es[i].val.Hash? && IsLeaf(es[i].val.entries) && !HasKey(es[i].val.entries, KCbProcess)
    requires ProvidedFor(st, es, i, ppath) == Nil && d != Nil && d != m
    requires GetDefaultValue(es[i].val.entries, DoaDef, e.c.platform) == Ok(d)
    requires GetDefaultValue(es[i].val.entries, ModDef, e.c.platform) == Ok(m)
    requires !FlagsExpected(es[i].val.entries) && MapsTo(es[i].val.entries, es[i].key) == Ok(key)
    ensures var r := EntryAt(e, st, es, i, ppath, queue);
      r.Ok? && r.value.st == st
      && Get(r.value.queue, key) == Some(if Wrapped(es[i].val.entries) then Str(Quoted(ToS(d))) else d)
  {
    AbsentLeaf(e, st, es, i, ppath, queue);
    EmitWrites(es[i].val.entries, es[i].key, d, m, queue);
  }

  /** Lines 177-178: an absent leaf whose `:doa_def` is its `:mod_def` is left to the module. */
  lemma AbsentSameAsModDef(e: Env, st: St, es: seq<Pair>, i: nat, ppath: seq<Value>, queue: seq<Pair>, d: Value)
    requires i < |es| && es[i].val.Hash? && IsLeaf(es[i].val.entries) && !HasKey(es[i].val.entries, KCbProcess)
    requires ProvidedFor(st, es, i, ppath) == Nil
    requires GetDefaultValue(es[i].val.entries, DoaDef, e.c.platform) == Ok(d)
    requires GetDefaultValue(es[i].val.entries, ModDef, e.c.platform) == Ok(d)
    ensures EntryAt(e, st, es, i, ppath, queue) == Ok(Resolved(queue, st))
  {
    AbsentLeaf(e, st, es, i, ppath, queue);
  }

  /**
   * Lines 125-203: a provided scalar leaf without `:allow` or `:exclude`, accepted by its one
   * validator and different from `:mod_def`, is written as its text under its `:maps_to` key.
   */
  lemma AcceptedWritten(e: Env, st: St, es: seq<Pair>, i: nat, ppath: seq<Value>, queue: seq<Pair>, x: Value, key: Value)
    requires i < |es| && es[i].val.Hash? && IsLeaf(es[i].val.entries) && !HasKey(es[i].val.entries, KCbProcess)
    requires !HasKey(es[i].val.entries, KExclude) && !HasKey(es[i].val.entries, KAllow)
    requires DefaultsRead(e, es[i].val.entries)
    requires var p := ProvidedFor(st, es, i, ppath);
      p != Nil && !p.Hash? && !p.Arr? && Str(ToS(p)) != GetDefaultValue(es[i].val.entries, ModDef, e.c.platform).value
    requires ValidatorTexts(es[i].val.entries) == Ok([TagText(x)]) && Answers(e, x, ProvidedFor(st, es, i, ppath), true)
    requires !FlagsExpected(es[i].val.entries) && MapsTo(es[i].val.entries, es[i].key) == Ok(key)
    ensures var p := ProvidedFor(st, es, i, ppath);
      var r := EntryAt(e, st, es, i, ppath, queue);
      r.Ok? && r.value.st == st
      && Get(r.value.queue, key) == Some(if Wrapped(es[i].val.entries) then Str(Quoted(ToS(p))) else Str(ToS(p)))
  {
    var p := ProvidedFor(st, es, i, ppath);
    SingleValidate(e, st, x, p, true);
    AllowAbsent(es[i].val.entries, es[i].key, p);
    ValidLeafEmits(e, st, es, i, ppath, queue, [TagText(x)], st);
    EmitWrites(es[i].val.entries, es[i].key, Str(ToS(p)), GetDefaultValue(es[i].val.entries, ModDef, e.c.platform).value, queue);
  }

  /** Lines 125-161: a provided leaf its one validator rejects aborts with the parameter's name. */
  lemma RejectedAborts(e: Env, st: St, es: seq<Pair>, i: nat, ppath: seq<Value>, queue: seq<Pair>, x: Value)
    requires i < |es| && es[i].val.Hash? && IsLeaf(es[i].val.entries)
    requires !HasKey(es[i].val.entries, KExclude) && !HasKey(es[i].val.entries, KAllow)
    requires DefaultsRead(e, es[i].val.entries)
    requires var p := ProvidedFor(st, es, i, ppath);
      p != Nil && Str(ToS(p)) != GetDefaultValue(es[i].val.entries, ModDef, e.c.platform).value
    requires ValidatorTexts(es[i].val.entries) == Ok([TagText(x)]) && Answers(e, x, ProvidedFor(st, es, i, ppath), false)
    ensures EntryAt(e, st, es, i, ppath, queue) == Err(UnsupportedParamValue(ToS(es[i].key)))
  {
    var p := ProvidedFor(st, es, i, ppath);
    SingleValidate(e, st, x, p, false);
    AllowAbsent(es[i].val.entries, es[i].key, p);
    InvalidAborts(e, st, es, i, ppath, queue, [TagText(x)], st);
  }

  /** Lines 99-109 and 177-203: a provided hash of instances is written whole under the `:maps_to` key. */
  lemma ChildrenHashWritten(e: Env, st: St, es: seq<Pair>, i: nat, ppath: seq<Value>, queue: seq<Pair>, key: Value)
    requires i < |es| && es[i].val.Hash? && !HasKey(es[i].val.entries, KChildren) && HasKey(es[i].val.entries, KChildrenHash)
    requires !HasKey(es[i].val.entries, KCbProcess) && NotExcluded(st.provided, es[i].key, es[i].val.entries)
    requires var p := ProvidedFor(st, es, i, ppath); p.Hash? && p.entries != []
    requires Instances(e, st, At(es[i].val.entries, KChildrenHash), ProvidedFor(st, es, i, ppath).entries, 0, ppath + [es[i].key], []).Ok?
    requires !FlagsExpected(es[i].val.entries) && !Wrapped(es[i].val.entries) && MapsTo(es[i].val.entries, es[i].key) == Ok(key)
    ensures var inst := Instances(e, st, At(es[i].val.entries, KChildrenHash), ProvidedFor(st, es, i, ppath).entries, 0, ppath + [es[i].key], []).value;
      var r := EntryAt(e, st, es, i, ppath, queue);
      r.Ok? && r.value.st == inst.st && Get(r.value.queue, key) == Some(Hash(inst.queue))
  {
    ChildrenHashEmits(e, st, es, i, ppath, queue);
    var inst := Instances(e, st, At(es[i].val.entries, KChildrenHash), ProvidedFor(st, es, i, ppath).entries, 0, ppath + [es[i].key], []).value;
    EmitWrites(es[i].val.entries, es[i].key, Hash(inst.queue), Nil, queue);
  }
}
