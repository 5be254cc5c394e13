/**
 * How a provisioning step ends: with a value, or with one of the aborts the provisioner
 * prints before `raise SystemExit`, or with a Ruby exception raised by the code as written.
 * Also the Ruby operations on values that can raise.
 */
module Outcome {
  import opened Strings
  import opened Values

  datatype Error =
    // Localised aborts (`L10n::print(..., true)` or `puts ...; raise SystemExit`).
    | ExclusiveParams(param: string, exclusive: string)
    | UnsupportedParamValue(param: string)
    | UnsupportedValue(subject: string, param: string)
    | NotSupportedBranch(branch: Value)
    | MariadbNoSupport(value: Value)
    | VersionIncomp
    | BranchIncomp
    | UnrecognizedSwParam(key: Value)
    | UnrecognizedVersion
    | MissingParam
    | WrongType
    | NoTypeSupport
    | FailError
    // Ruby exceptions raised by the code as written.
    | NoMethod(selector: string)
    | TypeErr(reason: string)
    | IndexErr
    | ArgumentErr(reason: string)
    | NameErr(constant: string)

  datatype Result<T> = Ok(value: T) | Err(error: Error)
  {
    predicate IsFailure() { this.Err? }

    function PropagateFailure<U>(): Result<U>
      requires IsFailure()
    {
      Err(this.error)
    }

    function Extract(): T
      requires !IsFailure()
    {
      this.value
    }
  }

  /** `String#[](other)`: the other string if it occurs, else nil. */
  function Substring(s: string, k: string): (r: Value)
    ensures r == Nil || r == Str(k)
    ensures r == Str(k) <==> Contains(s, k)
  {
    if Contains(s, k) then Str(k) else Nil
  }

  /** `v[k]` for a string key: hashes look it up, strings and symbols search for it, nil and booleans have no `[]`, arrays and integers refuse a string index. */
  function Index(v: Value, k: string): (r: Result<Value>)
    ensures v.Hash? ==> r == Ok(At(v.entries, Str(k)))
    ensures v.Nil? ==> r.Err?
  {
    match v
      case Hash(es) => Ok(At(es, Str(k)))
      case Str(s) => Ok(Substring(s, k))
      case Sym(n) => Ok(Substring(n, k))
      case Nil => Err(NoMethod("[]"))
      case Bool(_) => Err(NoMethod("[]"))
      case Arr(_) => Err(TypeErr("no implicit conversion of String into Integer"))
      case Int(_) => Err(TypeErr("no implicit conversion of String into Integer"))
  }

  /** `v.has_key?(k)`: only hashes answer. */
  function HasKeyOf(v: Value, k: Value): (r: Result<bool>)
    ensures r.Ok? <==> v.Hash?
    ensures v.Hash? ==> r.value == HasKey(v.entries, k)
  {
    if v.Hash? then Ok(HasKey(v.entries, k)) else Err(NoMethod("has_key?"))
  }

  /** The provisioner's `blank?`; symbols have none. */
  function BlankOf(v: Value): (r: Result<bool>)
    decreases v
  {
    match v
      case Nil => Ok(true)
      case Bool(b) => Ok(!b)
      case Int(_) => Ok(false)
      case Str(s) => Ok(Blank(s))
      case Sym(_) => Err(NoMethod("blank?"))
      case Hash(es) => Ok(es == [])
      case Arr(xs) => AllBlank(xs, 0)
  }

  /** `Array#blank?`: every element blank, asking them in order. */
  function AllBlank(xs: seq<Value>, i: nat): (r: Result<bool>)
    requires i <= |xs|
    decreases Value.Arr(xs), |xs| - i
  {
    if i == |xs| then Ok(true)
    else
      var b :- BlankOf(xs[i]);
      var rest :- AllBlank(xs, i + 1);
      Ok(b && rest)
  }

  /** The `|key, value|` pairs a block sees in `v.each`: a hash gives its entries, an array its elements destructured. */
  function EachPairs(v: Value): (r: Result<seq<Pair>>)
    ensures v.Hash? ==> r == Ok(v.entries)
    ensures v.Arr? ==> r.Ok? && |r.value| == |v.items|
    ensures !v.Hash? && !v.Arr? ==> r.Err?
  {
    match v
      case Hash(es) => Ok(es)
      case Arr(xs) => Ok(Destructure(xs))
      case _ => Err(NoMethod("each"))
  }

  function Destructure(xs: seq<Value>): (ps: seq<Pair>)
    ensures |ps| == |xs|
  {
    if |xs| == 0 then []
    else
      var x := xs[0];
      var p := match x
        case Arr(ys) => Pair(if |ys| > 0 then ys[0] else Nil, if |ys| > 1 then ys[1] else Nil)
        case _ => Pair(x, Nil);
      [p] + Destructure(xs[1..])
  }

  // ----- loops that stop at the first raise -----

  /** The values of the steps `rs[i..]`, or the error of the first step that fails: a loop that stops at its first raise. */
  function Collect<T>(rs: seq<Result<T>>, i: nat): (r: Result<seq<T>>)
    requires i <= |rs|
    ensures r.Ok? ==> (|r.value| == |rs| - i && forall j | 0 <= j < |r.value| :: rs[i + j] == Ok(r.value[j]))
    decreases |rs| - i
  {
    if i == |rs| then Ok([])
    else
      var w :- rs[i];
      var rest :- Collect(rs, i + 1);
      Ok([w] + rest)
  }

  /** When every step goes through, the loop yields exactly their values. */
  lemma {:induction false} CollectAllOk<T>(rs: seq<Result<T>>, i: nat, ws: seq<T>)
    requires i <= |rs| && |ws| == |rs| - i
    requires forall j | 0 <= j < |ws| :: rs[i + j] == Ok(ws[j])
    ensures Collect(rs, i) == Ok(ws)
    decreases |rs| - i
  {
    if i < |rs| {
      assert rs[i] == Ok(ws[0]);
      CollectAllOk(rs, i + 1, ws[1..]);
      assert [ws[0]] + ws[1..] == ws;
    }
  }

  /** The first step that fails stops the whole loop with its error. */
  lemma {:induction false} CollectFirstErr<T>(rs: seq<Result<T>>, i: nat, k: nat)
    requires i <= k < |rs| && rs[k].Err?
    requires forall j | i <= j < k :: rs[j].Ok?
    ensures Collect(rs, i) == Err(rs[k].error)
    decreases k - i
  {
    if i < k {
      CollectFirstErr(rs, i + 1, k);
    }
  }
  /** The lists the stages `rs[..k]` yield, joined in order, or the error of the first stage that fails. */
  function Chain<T>(rs: seq<Result<seq<T>>>, k: nat): (r: Result<seq<T>>)
    requires k <= |rs|
    ensures k == 0 ==> r == Ok([])
    decreases k
  {
    if k == 0 then Ok([])
    else
      var a :- Chain(rs, k - 1);
      var b :- rs[k - 1];
      Ok(a + b)
  }

  /** Once a stage has failed, no later stage changes the outcome. */
  lemma {:induction false} ChainErrStays<T>(rs: seq<Result<seq<T>>>, k: nat, n: nat)
    requires k <= n <= |rs| && Chain(rs, k).Err?
    ensures Chain(rs, n) == Chain(rs, k)
    decreases n - k
  {
    if k < n {
      ChainErrStays(rs, k, n - 1);
    }
  }

  /** A stage that goes through adds its list to the ones before it. */
  lemma ChainNext<T>(rs: seq<Result<seq<T>>>, k: nat, done: seq<T>)
    requires k < |rs| && Chain(rs, k) == Ok(done) && rs[k].Ok?
    ensures Chain(rs, k + 1) == Ok(done + rs[k].value)
  {
  }

  /** A stage that fails ends the whole chain with its error. */
  lemma ChainStops<T>(rs: seq<Result<seq<T>>>, k: nat, done: seq<T>)
    requires k < |rs| && Chain(rs, k) == Ok(done) && rs[k].Err?
    ensures Chain(rs, |rs|) == Err(rs[k].error)
  {
    ChainErrStays(rs, k + 1, |rs|);
  }
}
