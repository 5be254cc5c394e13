/**
 * The 'debug' group of the WordPress module's `@supported` schema (the wp-config debug
 * switches of an instance), as data, and what the resolver makes of its defaults.
 */
module WordpressSchema {
  import opened Values
  import opened Strings
  import opened Outcome
  import opened Puppet
  import opened Schema
  import opened Validators
  import opened Resolver

  /** A boolean switch of wp-config: written under `target`, 'false' for the module, `byEnv` for DOA. */
  function Switch(name: string, target: string, byEnv: Value): Pair
  {
    Entry(name, [Opt("expect", Arr([Sym("boolean")])), Opt("maps_to", Str(target)),
                 Opt("mod_def", Str("false")), Opt("doa_def", byEnv)])
  }

  /** The `:children` of 'debug'. */
  function DebugChildren(): seq<Pair>
  {
    [Switch("enable", "wp_debug", StrByEnv("true", "true", "true")),
     Switch("log", "wp_debug_log", StrByEnv("true", "true", "true")),
     Switch("display", "wp_debug_display", StrByEnv("true", "true", "false"))]
  }

  /** The environments a DOA default is given for. */
  predicate KnownEnv(p: Platform)
  {
    p.env == "dev" || p.env == "test" || p.env == "prod"
  }

  /** A switch is a leaf without a post-processing callback. */
  lemma SwitchLeaf(name: string, target: string, byEnv: Value)
    ensures var cfg := Switch(name, target, byEnv).val.entries; IsLeaf(cfg) && !HasKey(cfg, KCbProcess)
  {
    var cfg := Switch(name, target, byEnv).val.entries;
    FindSpec(cfg, KChildren);
    FindSpec(cfg, KChildrenHash);
    FindSpec(cfg, KCbProcess);
  }

  /** The entry of a known environment in a `{ :dev, :test, :prod }` map of texts. */
  lemma ByEnvEntry(d: string, t: string, pr: string, p: Platform)
    requires KnownEnv(p)
    ensures var es := StrByEnv(d, t, pr).entries;
      HasKey(es, Sym(p.env)) && At(es, Sym(p.env)) == Str(if p.env == "dev" then d else if p.env == "test" then t else pr)
  {
    var es := StrByEnv(d, t, pr).entries;
    if p.env == "dev" {
      FindAt(es, Sym(p.env), 0);
    } else if p.env == "test" {
      FindAt(es, Sym(p.env), 1);
    } else {
      FindAt(es, Sym(p.env), 2);
    }
  }

  /** A switch's DOA default is its environment's text, its module default 'false'. */
  lemma SwitchShape(name: string, target: string, d: string, t: string, pr: string, p: Platform)
    requires KnownEnv(p)
    ensures var cfg := Switch(name, target, StrByEnv(d, t, pr)).val.entries;
      IsLeaf(cfg) && !HasKey(cfg, KCbProcess)
      && GetDefaultValue(cfg, DoaDef, p) == Ok(Str(if p.env == "dev" then d else if p.env == "test" then t else pr))
      && GetDefaultValue(cfg, ModDef, p) == Ok(Str("false"))
  {
    var cfg := Switch(name, target, StrByEnv(d, t, pr)).val.entries;
    SwitchLeaf(name, target, StrByEnv(d, t, pr));
    FindAt(cfg, DoaDef, 3);
    FindAt(cfg, ModDef, 2);
    ByEnvEntry(d, t, pr, p);
    EnvironmentEntry(cfg, DoaDef, p);
    PlainDefault(cfg, ModDef, p);
  }

  /** A boolean is no flag hash and is written without quotes, under the switch's target. */
  lemma SwitchWriting(name: string, target: string, byEnv: Value)
    requires |target| > 0 && !IsSpace(target[0])
    ensures var cfg := Switch(name, target, byEnv).val.entries;
      !FlagsExpected(cfg) && !Wrapped(cfg) && MapsTo(cfg, Str(name)) == Ok(Str(target))
  {
    var cfg := Switch(name, target, byEnv).val.entries;
    FindAt(cfg, KExpect, 0);
    FindAt(cfg, KMapsTo, 1);
    assert AsList(At(cfg, KExpect)) == [Sym("boolean")];
    assert TagNamed("boolean") == Some(TBoolean);
    assert !WrapSym(Sym("boolean"));
    MapsToNamed(cfg, Str(name), target);
  }

  /** An absent switch whose DOA default for the environment is not the module's 'false' is written with that default. */
  lemma SwitchAbsentWritten(e: Env, st: St, es: seq<Pair>, i: nat, ppath: seq<Value>, queue: seq<Pair>,
                            name: string, target: string, d: string, t: string, pr: string)
    requires i < |es| && es[i] == Switch(name, target, StrByEnv(d, t, pr))
    requires KnownEnv(e.c.platform) && |target| > 0 && !IsSpace(target[0])
    requires Lookup(st.provided, ppath + [Str(name)]) == Nil
    requires (if e.c.platform.env == "dev" then d else if e.c.platform.env == "test" then t else pr) != "false"
    ensures var r := EntryAt(e, st, es, i, ppath, queue);
      r.Ok? && r.value.st == st
      && Get(r.value.queue, Str(target)) == Some(Str(if e.c.platform.env == "dev" then d else if e.c.platform.env == "test" then t else pr))
  {
    var text := if e.c.platform.env == "dev" then d else if e.c.platform.env == "test" then t else pr;
    SwitchShape(name, target, d, t, pr, e.c.platform);
    SwitchWriting(name, target, StrByEnv(d, t, pr));
    assert ProvidedFor(st, es, i, ppath) == Nil;
    AbsentOverridesModDef(e, st, es, i, ppath, queue, Str(text), Str("false"), Str(target));
  }

  /** Lines 116-125 of wordpress.rb: in dev and test an absent debug.display is written as 'true'. */
  lemma DisplayAbsentShown(e: Env, st: St, ppath: seq<Value>, queue: seq<Pair>)
    requires e.c.platform.env == "dev" || e.c.platform.env == "test"
    requires Lookup(st.provided, ppath + [Str("display")]) == Nil
    ensures var r := EntryAt(e, st, DebugChildren(), 2, ppath, queue);
      r.Ok? && r.value.st == st && Get(r.value.queue, Str("wp_debug_display")) == Some(Str("true"))
  {
    var es := DebugChildren();
    assert es[2] == Switch("display", "wp_debug_display", StrByEnv("true", "true", "false"));
    SwitchAbsentWritten(e, st, es, 2, ppath, queue, "display", "wp_debug_display", "true", "true", "false");
  }

  /** Lines 116-125 of wordpress.rb: in prod the DOA default is the module's own 'false', and nothing is written. */
  lemma DisplayAbsentProdSilent(e: Env, st: St, ppath: seq<Value>, queue: seq<Pair>)
    requires e.c.platform.env == "prod"
    requires Lookup(st.provided, ppath + [Str("display")]) == Nil
    ensures EntryAt(e, st, DebugChildren(), 2, ppath, queue) == Ok(Resolved(queue, st))
  {
    var es := DebugChildren();
    assert es[2] == Switch("display", "wp_debug_display", StrByEnv("true", "true", "false"));
    assert ProvidedFor(st, es, 2, ppath) == Lookup(st.provided, ppath + [Str("display")]);
    SwitchShape("display", "wp_debug_display", "true", "true", "false", e.c.platform);
    AbsentSameAsModDef(e, st, es, 2, ppath, queue, Str("false"));
  }

  /** Lines 91-100 of wordpress.rb: an absent debug.enable is written as 'true' in every environment, prod included. */
  lemma EnableAbsentEverywhere(e: Env, st: St, ppath: seq<Value>, queue: seq<Pair>)
    requires KnownEnv(e.c.platform)
    requires Lookup(st.provided, ppath + [Str("enable")]) == Nil
    ensures var r := EntryAt(e, st, DebugChildren(), 0, ppath, queue);
      r.Ok? && r.value.st == st && Get(r.value.queue, Str("wp_debug")) == Some(Str("true"))
  {
    var es := DebugChildren();
    assert es[0] == Switch("enable", "wp_debug", StrByEnv("true", "true", "true"));
    SwitchAbsentWritten(e, st, es, 0, ppath, queue, "enable", "wp_debug", "true", "true", "true");
  }
}
