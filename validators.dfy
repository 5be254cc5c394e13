/**
 * The validator library of the tools module: one predicate per `valid_*?` method, over the
 * provisioner's values. Validators that raise in Ruby (a regular expression matched against a
 * value that is neither a string nor a symbol, a method that does not exist) return an `Err`.
 */
module Validators {
  import opened Strings
  import opened Values
  import opened Outcome
  import opened Patterns

  /**
   * Checks the model takes as given: the IPv6 text forms (section 2.2 of RFC 4291), http and
   * https URLs, and the two Puppet interpolation patterns.
   */
  datatype Library = Library(
    ipv6: string -> bool,
    url: string -> bool,
    interpolableString: string -> bool,
    interpolableUri: string -> bool)

  /** The validator names a schema's `:expect` may list. */
  datatype Tag =
    | TArray | TArrayIps | TArrayIpv4 | TArrayIpv6 | TAuto | TBoolean | TChmod | TFloat | THash
    | THashFlags | THashValues | TInteger | TIp | TIpv4 | TIpv4Port | TIpv6 | TLevel
    | TLinuxPackageName | TPort | TPuppetInterpolableString | TPuppetInterpolableUri
    | TSemverBranch | TSemverVersion | TString | TUnixAbspath | TUnixPath | TUnixRelpath | TUrl
    | TFlag

  /** VALIDATORS: every tag but `:flag`, which the list leaves out although schemas use it. */
  predicate InValidators(t: Tag) { t != TFlag }

  /** VALIDATORS_TO_WRAP: the validators whose values are emitted between single quotes. */
  predicate ToWrap(t: Tag)
  {
    t in {TAuto, TChmod, TIpv4, TIpv4Port, TIpv6, TLevel, TLinuxPackageName,
          TPuppetInterpolableString, TPuppetInterpolableUri, TSemverBranch, TSemverVersion,
          TString, TUnixAbspath, TUnixPath, TUnixRelpath, TUrl}
  }

  /** The text a regular expression is matched against: strings and symbols have one. */
  predicate HasText(v: Value) { v.Str? || v.Sym? }

  function TextOf(v: Value): string
    requires HasText(v)
  {
    if v.Str? then v.s else v.name
  }

  /** `Regexp =~ v` with the pattern on the left: nil does not match, other non-text values raise. */
  function MatchLeft(v: Value, p: string -> bool): (r: Result<bool>)
    ensures r.Ok? <==> v.Nil? || HasText(v)
    ensures r.Ok? ==> (r.value <==> HasText(v) && p(TextOf(v)))
  {
    if v.Nil? then Ok(false)
    else if HasText(v) then Ok(p(TextOf(v)))
    else Err(TypeErr("no implicit conversion into String"))
  }

  /** `v =~ Regexp` with the value on the left: only text can match, nothing raises. */
  predicate MatchRight(v: Value, p: string -> bool)
  {
    HasText(v) && p(TextOf(v))
  }

  predicate ValidArray(v: Value) { v.Arr? && !IsEmpty(v) }

  predicate ValidAuto(v: Value) { v == Str("auto") }

  predicate ValidBoolean(v: Value) { v.Bool? || v == Str("false") || v == Str("true") }

  predicate ValidFlag(v: Value) { v == Str("on") || v == Str("off") }

  predicate ValidChmod(v: Value) { v.Str? && Chmod(v.s) }

  predicate ValidLevel(v: Value) { v.Str? && Level(v.s) }

  predicate ValidString(v: Value) { v.Str? }

  predicate ValidInteger(v: Value) { v.Int? || MatchRight(v, AllDigits) }

  predicate IsContainer(v: Value) { v.Hash? || v.Arr? }

  predicate ValidHashValues(v: Value)
  {
    v.Hash? && v.entries != [] && forall i | 0 <= i < |v.entries| :: !IsContainer(v.entries[i].val)
  }

  predicate ValidHashFlags(v: Value)
  {
    v.Hash? && v.entries != [] && forall i | 0 <= i < |v.entries| :: ValidFlag(v.entries[i].val) || ValidBoolean(v.entries[i].val)
  }

  /** `valid_port?`: an Integer or an all-digit String naming a number from MIN_PORT 0 to MAX_PORT 65535. */
  predicate ValidPort(v: Value)
  {
    (v.Int? && 0 <= v.i <= 65535) || (v.Str? && AllDigits(v.s) && 0 <= ToI(v.s) <= 65535)
  }

  /** RGX_IPV4 followed by the check that every capture is below 256. */
  predicate Ipv4Checked(s: string)
  {
    Ipv4(s) && forall i | 0 <= i < |SplitAll(s, ".")| :: ToI(SplitAll(s, ".")[i]) < 256
  }

  function ValidIpv4(v: Value): (r: Result<bool>)
  {
    if v.Nil? then Ok(false) else MatchLeft(v, Ipv4Checked)
  }

  /** `valid_ipv4_port?`, with the port alternative of RGX_IPV4_PORT as written. */
  function ValidIpv4Port(v: Value): (r: Result<bool>)
  {
    if v.Nil? then Ok(false) else MatchLeft(v, Ipv4PortAsWritten)
  }

  function ValidIpv6(lib: Library, v: Value): (r: Result<bool>)
  {
    if v.Nil? then Ok(false) else MatchLeft(v, lib.ipv6)
  }

  function ValidIp(lib: Library, v: Value): (r: Result<bool>)
  {
    var four :- ValidIpv4(v);
    if four then Ok(true) else ValidIpv6(lib, v)
  }

  function ValidLinuxPackageName(v: Value): (r: Result<bool>)
  {
    if v.Nil? then Ok(false) else MatchLeft(v, LinuxPackageName)
  }

  function ValidPuppetInterpolableString(lib: Library, v: Value): (r: Result<bool>)
  {
    if v.Nil? then Ok(false) else MatchLeft(v, lib.interpolableString)
  }

  function ValidPuppetInterpolableUri(lib: Library, v: Value): (r: Result<bool>)
  {
    if v.Nil? then Ok(false) else MatchLeft(v, lib.interpolableUri)
  }

  function ValidUnixPath(v: Value): (r: Result<bool>)
  {
    if v.Nil? then Ok(false) else MatchLeft(v, UnixPath)
  }

  /** `Pathname.new(v)` accepts only strings; `absolute?` means a leading '/'. */
  function ValidUnixAbspath(v: Value): (r: Result<bool>)
  {
    if v.Nil? then Ok(false)
    else
      var m :- MatchLeft(v, UnixAbsPath);
      if !m then Ok(false)
      else if v.Sym? then Err(TypeErr("no implicit conversion of Symbol into String"))
      else Ok(StartsWith(v.s, "/"))
  }

  function ValidUnixRelpath(v: Value): (r: Result<bool>)
  {
    if v.Nil? then Ok(false)
    else
      var m :- MatchLeft(v, UnixRelPath);
      if !m then Ok(false)
      else if v.Sym? then Err(TypeErr("no implicit conversion of Symbol into String"))
      else Ok(!StartsWith(v.s, "/"))
  }

  predicate ValidUrl(lib: Library, v: Value) { MatchRight(v, lib.url) }

  /** The validator an array validator applies to each of its items. */
  function ItemCheck(lib: Library, x: Value, item: Tag): Result<bool>
    requires item in {TIp, TIpv4, TIpv6}
  {
    if item == TIpv4 then ValidIpv4(x) else if item == TIpv6 then ValidIpv6(lib, x) else ValidIp(lib, x)
  }

  /** The answers of `ItemCheck` for the items from position `i` on. */
  function ItemChecks(lib: Library, xs: seq<Value>, i: nat, item: Tag): (rs: seq<Result<bool>>)
    requires i <= |xs|
    requires item in {TIp, TIpv4, TIpv6}
    ensures |rs| == |xs| - i
    decreases |xs| - i
  {
    if i == |xs| then [] else [ItemCheck(lib, xs[i], item)] + ItemChecks(lib, xs, i + 1, item)
  }

  /** The answer for one item. */
  lemma {:induction false} ItemChecksAt(lib: Library, xs: seq<Value>, i: nat, item: Tag, j: nat)
    requires i <= j < |xs|
    requires item in {TIp, TIpv4, TIpv6}
    ensures ItemChecks(lib, xs, i, item)[j - i] == ItemCheck(lib, xs[j], item)
    decreases j - i
  {
    var rest := ItemChecks(lib, xs, i + 1, item);
    assert ItemChecks(lib, xs, i, item) == [ItemCheck(lib, xs[i], item)] + rest;
    if j > i {
      ItemChecksAt(lib, xs, i + 1, item, j);
      assert ([ItemCheck(lib, xs[i], item)] + rest)[j - i] == rest[j - i - 1];
    }
  }

  /** The array validators: every item accepted, asking in order and stopping at the first refusal or error. */
  function AllAccepted(rs: seq<Result<bool>>): (r: Result<bool>)
  {
    if |rs| == 0 then Ok(true)
    else
      var ok :- rs[0];
      if !ok then Ok(false) else AllAccepted(rs[1..])
  }

  /** When no item raises, the array is accepted exactly when every item is. */
  lemma {:induction false} AllAcceptedAnswers(rs: seq<Result<bool>>)
    requires forall j | 0 <= j < |rs| :: rs[j].Ok?
    ensures AllAccepted(rs) == Ok(forall j | 0 <= j < |rs| :: rs[j].value)
  {
    if |rs| > 0 {
      var t := rs[1..];
      assert forall j | 0 <= j < |t| :: t[j] == rs[j + 1];
      AllAcceptedAnswers(t);
      assert (forall j | 0 <= j < |rs| :: rs[j].value) <==> rs[0].value && (forall j | 0 <= j < |t| :: t[j].value);
    }
  }

  function ValidArrayOf(lib: Library, v: Value, item: Tag): (r: Result<bool>)
    requires item in {TIp, TIpv4, TIpv6}
  {
    if !v.Arr? then Ok(false) else AllAccepted(ItemChecks(lib, v.items, 0, item))
  }

  /**
   * `valid_version?(check, allowed, keywords, semver, branch)`: a member of a non-empty allowed
   * list or keyword list (non-empty in the sense of the `Array#empty?` override), a branch or a
   * semantic version when those formats are enabled.
   */
  predicate ValidVersion(check: Value, allowed: seq<Value>, keywords: seq<Value>, semver: bool, branch: bool)
  {
    (!IsEmpty(Arr(allowed)) && check in allowed)
    || (!IsEmpty(Arr(keywords)) && check in keywords)
    || (branch && MatchRight(check, SemverBranch))
    || (semver && MatchRight(check, SemverVersion))
  }

  predicate ValidSemverVersion(v: Value) { ValidVersion(v, [], [], true, false) }

  predicate ValidSemverBranch(v: Value) { ValidVersion(v, [], [], false, true) }

  /** `DOA::Tools#valid_<tag>?` applied to a value; `valid_float?` and `valid_hash?` do not exist. */
  function Accepts(lib: Library, t: Tag, v: Value): (r: Result<bool>)
    ensures t == TFloat || t == THash ==> r.Err?
    ensures (t in {TArray, TAuto, TBoolean, TChmod, THashFlags, THashValues, TInteger, TLevel, TPort,
                   TSemverBranch, TSemverVersion, TString, TUrl, TFlag}) ==> r.Ok?
  {
    match t
      case TArray => Ok(ValidArray(v))
      case TArrayIps => ValidArrayOf(lib, v, TIp)
      case TArrayIpv4 => ValidArrayOf(lib, v, TIpv4)
      case TArrayIpv6 => ValidArrayOf(lib, v, TIpv6)
      case TAuto => Ok(ValidAuto(v))
      case TBoolean => Ok(ValidBoolean(v))
      case TChmod => Ok(ValidChmod(v))
      case TFloat => Err(NoMethod("valid_float?"))
      case THash => Err(NoMethod("valid_hash?"))
      case THashFlags => Ok(ValidHashFlags(v))
      case THashValues => Ok(ValidHashValues(v))
      case TInteger => Ok(ValidInteger(v))
      case TIp => ValidIp(lib, v)
      case TIpv4 => ValidIpv4(v)
      case TIpv4Port => ValidIpv4Port(v)
      case TIpv6 => ValidIpv6(lib, v)
      case TLevel => Ok(ValidLevel(v))
      case TLinuxPackageName => ValidLinuxPackageName(v)
      case TPort => Ok(ValidPort(v))
      case TPuppetInterpolableString => ValidPuppetInterpolableString(lib, v)
      case TPuppetInterpolableUri => ValidPuppetInterpolableUri(lib, v)
      case TSemverBranch => Ok(ValidSemverBranch(v))
      case TSemverVersion => Ok(ValidSemverVersion(v))
      case TString => Ok(ValidString(v))
      case TUnixAbspath => ValidUnixAbspath(v)
      case TUnixPath => ValidUnixPath(v)
      case TUnixRelpath => ValidUnixRelpath(v)
      case TUrl => Ok(ValidUrl(lib, v))
      case TFlag => Ok(ValidFlag(v))
  }

  // ----- Properties of the validators -----

  /** `valid_port?` holds exactly for the integers and the all-digit strings from 0 to 65535. */
  lemma ValidPortExactly(v: Value)
    ensures ValidPort(v) <==> (v.Int? && 0 <= v.i <= 65535) || (v.Str? && AllDigits(v.s) && DigitsValue(v.s) <= 65535)
  {
  }

  /** Every port number is accepted both as an integer and in its decimal spelling. */
  lemma ValidPortComplete(n: nat)
    requires n <= 65535
    ensures ValidPort(Int(n)) && ValidPort(Str(NatToString(n)))
  {
  }

  /** A negative integer, or any value other than an integer or a string, is never a port. */
  lemma ValidPortRejects(v: Value)
    requires (!v.Int? && !v.Str?) || (v.Int? && (v.i < 0 || v.i > 65535))
    ensures !ValidPort(v)
  {
  }

  lemma ValidBooleanExactly(v: Value)
    ensures ValidBoolean(v) <==> v == Bool(true) || v == Bool(false) || v == Str("true") || v == Str("false")
  {
  }

  lemma ValidFlagExactly(v: Value)
    ensures ValidFlag(v) <==> v == Str("on") || v == Str("off")
  {
  }

  /** A hash of flags has no container values, so it is also a valid hash of values. */
  lemma HashFlagsAreHashValues(v: Value)
    requires ValidHashFlags(v)
    ensures ValidHashValues(v)
  {
    forall i | 0 <= i < |v.entries|
      ensures !IsContainer(v.entries[i].val)
    {
      assert ValidFlag(v.entries[i].val) || ValidBoolean(v.entries[i].val);
    }
  }

  /** `valid_array?` is false for an array whose elements are all empty, e.g. `[""]` or `[nil, []]`. */
  lemma ValidArrayIgnoresEmptyElements(xs: seq<Value>)
    ensures ValidArray(Arr(xs)) <==> exists i | 0 <= i < |xs| :: !IsEmpty(xs[i])
  {
  }

  lemma ValidArrayOfBlankString()
    ensures !ValidArray(Arr([Str("")])) && !ValidArray(Arr([Nil, Arr([])]))
    ensures ValidArray(Arr([Str("a")]))
  {
    assert !IsEmpty(Arr([Str("a")])) by { assert !IsEmpty([Str("a")][0]); }
  }

  /** `valid_chmod?`: a '0' followed by three octal digits, so the mode is below 0o1000. */
  lemma ValidChmodExactly(v: Value)
    ensures ValidChmod(v) <==> v.Str? && |v.s| == 4 && v.s[0] == '0' && forall i | 1 <= i < 4 :: '0' <= v.s[i] <= '7'
  {
    if v.Str? && |v.s| == 4 && v.s[0] == '0' && (forall i | 1 <= i < 4 :: '0' <= v.s[i] <= '7') {
      assert '0' <= v.s[1] <= '7' && '0' <= v.s[2] <= '7' && '0' <= v.s[3] <= '7';
    }
  }

  /** `valid_level?`: an odd-length string with '1' or '2' at even positions and ':' at odd ones. */
  lemma ValidLevelExactly(v: Value)
    ensures ValidLevel(v) <==> v.Str? && |v.s| % 2 == 1 && forall i | 0 <= i < |v.s| :: LevelCharAt(v.s, i)
  {
    if v.Str? && |v.s| > 0 {
      var s := v.s;
      var t := s[1..];
      LevelTailExactly(t);
      assert forall i | 1 <= i < |s| :: (LevelCharAt(s, i) <==> TailCharAt(t, i - 1));
      if Level(s) {
        forall i | 0 <= i < |s|
          ensures LevelCharAt(s, i)
        {
          if i > 0 {
            assert TailCharAt(t, i - 1);
          }
        }
      }
      if |s| % 2 == 1 && forall i | 0 <= i < |s| :: LevelCharAt(s, i) {
        assert LevelCharAt(s, 0);
        forall j | 0 <= j < |t|
          ensures TailCharAt(t, j)
        {
          assert LevelCharAt(s, j + 1);
        }
      }
    }
  }

  predicate LevelCharAt(s: string, i: nat)
    requires i < |s|
  {
    if i % 2 == 0 then IsOneOrTwo(s[i]) else s[i] == ':'
  }

  predicate TailCharAt(t: string, i: nat)
    requires i < |t|
  {
    if i % 2 == 0 then t[i] == ':' else IsOneOrTwo(t[i])
  }

  lemma {:induction false} LevelTailExactly(t: string)
    ensures LevelTail(t) <==> |t| % 2 == 0 && forall i | 0 <= i < |t| :: TailCharAt(t, i)
    decreases |t|
  {
    if |t| >= 2 {
      var u := t[2..];
      LevelTailExactly(u);
      assert forall i | 2 <= i < |t| :: (TailCharAt(t, i) <==> TailCharAt(u, i - 2));
      if LevelTail(t) {
        forall i | 0 <= i < |t|
          ensures TailCharAt(t, i)
        {
          if i >= 2 {
            assert TailCharAt(u, i - 2);
          }
        }
      }
      if |t| % 2 == 0 && forall i | 0 <= i < |t| :: TailCharAt(t, i) {
        assert TailCharAt(t, 0) && TailCharAt(t, 1);
        forall j | 0 <= j < |u|
          ensures TailCharAt(u, j)
        {
          assert TailCharAt(t, j + 2);
        }
      }
    } else if |t| == 1 {
      assert !(|t| % 2 == 0);
    }
  }

  /** The capture check of `valid_ipv4?` never rejects an address RGX_IPV4 matched. */
  lemma Ipv4CaptureCheckRedundant(s: string)
    ensures Ipv4Checked(s) <==> Ipv4(s)
  {
    if Ipv4(s) {
      var parts := SplitAll(s, ".");
      forall i | 0 <= i < |parts|
        ensures ToI(parts[i]) < 256
      {
        OctetBelow256(parts[i]);
      }
    }
  }

  /** `valid_semver_version?` and `valid_semver_branch?` each enable exactly one format. */
  lemma SemverValidatorsExactly(s: string)
    ensures ValidSemverVersion(Str(s)) <==> SemverVersion(s)
    ensures ValidSemverBranch(Str(s)) <==> SemverBranch(s)
  {
    assert IsEmpty(Arr([]));
  }

  /** A value of neither string nor symbol type passes `valid_version?` only through the lists. */
  lemma ValidVersionNonText(check: Value, allowed: seq<Value>, keywords: seq<Value>, semver: bool, branch: bool)
    requires !HasText(check)
    ensures ValidVersion(check, allowed, keywords, semver, branch) <==> (!IsEmpty(Arr(allowed)) && check in allowed) || (!IsEmpty(Arr(keywords)) && check in keywords)
  {
  }

  /** An array of strings holds IPv4 addresses exactly when `valid_array_ipv4?` accepts it; it never raises. */
  lemma ArrayIpv4OfStrings(lib: Library, ss: seq<string>)
    ensures ValidArrayOf(lib, Arr(Strs(ss)), TIpv4) == Ok(forall i | 0 <= i < |ss| :: Ipv4(ss[i]))
  {
    forall j | 0 <= j < |ss|
      ensures ItemChecks(lib, Strs(ss), 0, TIpv4)[j] == Ok(Ipv4(ss[j]))
    {
      Ipv4StringAnswer(lib, ss, j);
    }
    StringAnswers(lib, ss, TIpv4, Ipv4);
  }

  /** When each string's answer is `p` of it, an array validator accepts exactly the arrays whose strings all satisfy `p`. */
  lemma StringAnswers(lib: Library, ss: seq<string>, item: Tag, p: string -> bool)
    requires item in {TIp, TIpv4, TIpv6}
    requires forall j | 0 <= j < |ss| :: ItemChecks(lib, Strs(ss), 0, item)[j] == Ok(p(ss[j]))
    ensures ValidArrayOf(lib, Arr(Strs(ss)), item) == Ok(forall i | 0 <= i < |ss| :: p(ss[i]))
  {
    var rs := ItemChecks(lib, Strs(ss), 0, item);
    AllAcceptedAnswers(rs);
    assert forall j | 0 <= j < |rs| :: rs[j].value == p(ss[j]);
  }

  /** `valid_ipv4?` on the string at position `j` answers whether it is an address. */
  lemma Ipv4StringAnswer(lib: Library, ss: seq<string>, j: nat)
    requires j < |ss|
    ensures ItemChecks(lib, Strs(ss), 0, TIpv4)[j] == Ok(Ipv4(ss[j]))
  {
    ItemChecksAt(lib, Strs(ss), 0, TIpv4, j);
    assert Strs(ss)[j] == Str(ss[j]);
    Ipv4OfString(Str(ss[j]));
    Ipv4CaptureCheckRedundant(ss[j]);
  }


  lemma Ipv4OfString(x: Value)
    requires x.Str?
    ensures ValidIpv4(x) == Ok(Ipv4Checked(x.s))
  {
  }
}
