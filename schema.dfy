/**
 * Builders for the `@supported` schema literals of the module classes: a schema is a hash from
 * parameter names to option hashes keyed by symbols (`:expect`, `:maps_to`, `:mod_def`, ...).
 */
module Schema {
  import opened Values

  /** One option `:name => v` of a schema entry. */
  function Opt(name: string, v: Value): Pair { Pair(Sym(name), v) }

  /** A schema entry `'name' => { options }`. */
  function Entry(name: string, opts: seq<Pair>): Pair { Pair(Str(name), Hash(opts)) }

  /** `{ :dev => d, :test => t, :prod => p }`. */
  function ByEnv(d: Value, t: Value, p: Value): Value
  {
    Hash([Pair(Sym("dev"), d), Pair(Sym("test"), t), Pair(Sym("prod"), p)])
  }

  function StrByEnv(d: string, t: string, p: string): Value { ByEnv(Str(d), Str(t), Str(p)) }

  /** A list of symbols, as `:expect` holds them. */
  function SymList(names: seq<string>): (r: Value)
    ensures r.Arr? && |r.items| == |names|
    ensures forall i | 0 <= i < |names| :: r.items[i] == Sym(names[i])
  {
    if |names| == 0 then Arr([]) else Arr([Sym(names[0])] + SymList(names[1..]).items)
  }

  function StrList(ss: seq<string>): Value { Arr(Strs(ss)) }
}
