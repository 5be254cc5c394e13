/**
 * The MariaDB module class: its schema, the `process_param` callback that reconciles versions
 * and branches across the server and cluster nodes, `include_hieraclass` and the low-memory
 * `custom_setup`.
 */
module Mariadb {
  import opened Strings
  import opened Values
  import opened Outcome
  import opened Hashes
  import opened Patterns
  import opened Validators
  import opened Puppet
  import opened Schema

  const ClassName := "DOA::Provisioner::Puppet::MariaDB"

  /** NODE_CHILDREN: the nodes a group parameter is copied into. */
  function NodeChildren(parent: string): (r: Option<seq<string>>)
    ensures r.Some? <==> parent == "server" || parent == "cluster"
  {
    if parent == "server" then Some(["client", "server"])
    else if parent == "cluster" then Some(["client", "server", "galera"])
    else None
  }

  /** ALLOWED_BRANCHES. */
  function AllowedBranches(parent: string): Option<seq<Value>>
  {
    if parent == "server" then Some(Strs(["5.5", "10.0", "10.1"]))
    else if parent == "cluster" then Some(Strs(["5.5", "10.0"]))
    else None
  }

  // ----- copying a group value into its children -----

  /** A node that `[]=` stores a key into: missing (it becomes `{}` first) or a hash. */
  predicate TakesKeys(node: Option<Value>)
  {
    node.None? || node.value.Hash?
  }

  /**
   * `@provided[parent][child] = {} if missing; @provided[parent][child][param] = value`. The
   * nodes are not type-checked: on a String node `[]=` replaces the first occurrence of the
   * parameter's name (IndexError when there is none, TypeError for a value that is not a
   * String), on an Array node the String index raises TypeError, and other values have no `[]=`.
   */
  function CopyToChild(group: seq<Pair>, child: string, param: string, value: Value): (r: Result<seq<Pair>>)
  {
    var g := if HasKey(group, Str(child)) then group else Put(group, Str(child), Hash([]));
    match At(g, Str(child))
      case Hash(es) => Ok(Put(g, Str(child), Hash(Put(es, Str(param), value))))
      case Str(s) =>
        if !Contains(s, param) then Err(IndexErr)
        else if !value.Str? then Err(TypeErr("no implicit conversion into String"))
        else Ok(Put(g, Str(child), Str(ReplaceFirst(s, param, value.s))))
      case Arr(_) => Err(TypeErr("no implicit conversion of String into Integer"))
      case _ => Err(NoMethod("[]="))
  }

  function CopyToChildren(group: seq<Pair>, children: seq<string>, param: string, value: Value): Result<seq<Pair>>
    decreases |children|
  {
    if |children| == 0 then Ok(group)
    else
      var g :- CopyToChild(group, children[0], param, value);
      CopyToChildren(g, children[1..], param, value)
  }

  /** The group hash `@provided[parent]`, which must answer `has_key?`. */
  function GroupOf(provided: Value, parent: string): Result<seq<Pair>>
  {
    var g :- Index(provided, parent);
    if g.Hash? then Ok(g.entries) else Err(NoMethod("has_key?"))
  }

  function WithGroup(provided: Value, parent: string, group: seq<Pair>): Result<Value>
  {
    if provided.Hash? then Ok(Hash(Put(provided.entries, Str(parent), Hash(group)))) else Err(NoMethod("[]="))
  }

  function CopyIntoGroup(provided: Value, parent: string, children: seq<string>, param: string, value: Value): Result<Value>
  {
    var g :- GroupOf(provided, parent);
    var g' :- CopyToChildren(g, children, param, value);
    WithGroup(provided, parent, g')
  }

  // ----- branch and version -----

  /** A '.x' branch with the '.x' dropped, mapped onto the branches MariaDB supports. */
  function DotXBranch(value: Value): (r: Result<Value>)
    ensures r.Ok? ==> r.value in Strs(["5.5", "10.0", "10.1"])
    ensures r.Err? ==> r.error == NoMethod("gsub") || r.error == MariadbNoSupport(value)
    ensures value.Str? && DropX(value.s) in ["5.5", "10.0", "10.1"] ==> r == Ok(Str(DropX(value.s)))
  {
    if !value.Str? then Err(NoMethod("gsub"))
    else
      var b := DropX(value.s);
      if b == "5.5" || b == "10.0" || b == "10.1" then Ok(Str(b))
      else if b == "10" then Ok(Str("10.0"))
      else if b == "5" then Ok(Str("5.5"))
      else Err(MariadbNoSupport(value))
  }

  /** `parent_cfg = parent_cfg[key]` for every key. */
  function IndexPath(v: Value, keys: seq<string>): Result<Value>
    decreases |keys|
  {
    if |keys| == 0 then Ok(v)
    else
      var next :- Index(v, keys[0]);
      IndexPath(next, keys[1..])
  }

  /** A specific version needs `ensure` in the parent's settings: 'present' when absent, and never 'latest'. */
  function EnsureForVersion(provided: Value, parent: string): Result<Value>
  {
    var keys := Split(parent, "->");
    var cfg :- IndexPath(provided, keys);
    var has :- HasKeyOf(cfg, Str("ensure"));
    if !has then
      if !provided.Hash? then Err(NoMethod("recursive_set!"))
      else
        var es :- RecursiveSet(provided.entries, Strs(keys) + [Str("ensure")], Str("present"));
        Ok(Hash(es))
    else if At(cfg.entries, Str("ensure")) == Str("latest") then Err(VersionIncomp)
    else Ok(provided)
  }

  /** A line of `s` starts with `p` (the `^` of a Ruby pattern). */
  predicate LineStartsWith(s: string, p: string)
  {
    StartsWith(s, p) || exists i | 0 <= i < |s| && s[i] == '\n' :: StartsWith(s[i + 1..], p)
  }

  /** The main class a parent belongs to. */
  function MainClass(parent: string): (r: Option<string>)
    ensures StartsWith(parent, "server") ==> r == Some("server")
    ensures r.Some? ==> (r.value == "server" || r.value == "cluster") && LineStartsWith(parent, r.value)
    ensures r.None? <==> !LineStartsWith(parent, "server") && !LineStartsWith(parent, "cluster")
  {
    if LineStartsWith(parent, "server") then Some("server")
    else if LineStartsWith(parent, "cluster") then Some("cluster")
    else None
  }

  /** The branch the value asks for, with `@branch` (which may carry over) as the fallback. */
  function RequestedBranch(st: St, value: Value, parent: string): (r: Result<St>)
    ensures r.Ok? ==> r.value.reqBranches == st.reqBranches && r.value.calls == st.calls
  {
    if ValidSemverBranch(value) then
      var b :- DotXBranch(value);
      Ok(st.(branch := b))
    else if ValidSemverVersion(value) then
      match SemverMinor(TextOf(value))
        case None => Err(NoMethod("captures"))
        case Some(minor) =>
          if !SemverAsWritten(TextOf(value)) then Err(NoMethod("captures"))
          else
            var provided :- EnsureForVersion(st.provided, parent);
            Ok(st.(branch := Str(minor), version := Str(TextOf(value)), provided := provided))
    else if value != Nil && AllowedBranches(parent).Some? && value in AllowedBranches(parent).value then
      Ok(st.(branch := value))
    else Ok(st)
  }

  /**
   * The 'version' part of `process_param`: settle the branch (default '10.0'), require every
   * call to agree on it, and enqueue the repository branch of the main class.
   */
  function VersionStep(c: Ctx, st: St, value: Value, parent: string): Result<St>
  {
    var st1 :- RequestedBranch(st, value, parent);
    var branch := if st1.branch == Nil then Str("10.0") else st1.branch;
    var req :- if |st1.reqBranches| == 0 then Ok(st1.reqBranches + [branch])
      else if branch !in st1.reqBranches then Err(BranchIncomp)
      else Ok(st1.reqBranches);
    var calls := match MainClass(parent)
      case None => st1.calls
      case Some(m) => st1.calls + [HieraParams(c.name, [Pair(Str("mariadb::" + m + "::repo_version"), Str(Quoted(ToS(branch))))])];
    Ok(st1.(branch := branch, reqBranches := req, calls := calls))
  }

  /** `@provided[parent].except!(param)`. */
  function DropFromGroup(provided: Value, parent: string, param: string): Result<Value>
  {
    var g :- GroupOf(provided, parent);
    WithGroup(provided, parent, Delete(g, Str(param)))
  }

  /**
   * `process_param(value, param, parent)`: a group parent ('server', 'cluster') first hands the
   * value to each of its nodes; a 'version' settles branch and version; a group parent finally
   * drops the parameter and returns nil, any other parent returns the value.
   */
  function ProcessParam(c: Ctx, st: St, value: Value, param: string, parent: string): (r: Result<Step>)
    ensures r.Ok? && NodeChildren(parent).Some? ==> r.value.value == Nil
    ensures r.Ok? && NodeChildren(parent).None? ==> r.value.value == value
    ensures r.Ok? && param != "version" ==> r.value.st.calls == st.calls
  {
    var children := NodeChildren(parent);
    var provided :- if children.Some? then CopyIntoGroup(st.provided, parent, children.value, param, value) else Ok(st.provided);
    var st1 := st.(provided := provided);
    var st2 :- if param == "version" then VersionStep(c, st1, value, parent) else Ok(st1);
    if children.Some? then
      var provided' :- DropFromGroup(st2.provided, parent, param);
      Ok(Step(Nil, st2.(provided := provided')))
    else Ok(Step(value, st2))
  }

  /** `include_hieraclass(value, node)`: enqueue the node's class and return nil. */
  function IncludeHieraclass(st: St, node: string): (r: Step)
    ensures r.value == Nil
    ensures r.st == st.(calls := st.calls + [HieraClasses(Str("mariadb::" + node))])
  {
    Step(Nil, st.(calls := st.calls + [HieraClasses(Str("mariadb::" + node))]))
  }

  const SwapFileContent := "\n# Swap file (required to install & run MariaDB on machines with less than 1GB memory)\n"
    + "swap_file::files { 'mariadb_swapfile':\n  ensure        => 'present',\n  swapfile      => '/mnt/mariadb_swapfile',\n"
    + "  swapfilesize  => '256000000',\n}"

  /**
   * `custom_setup`: below 1024 MB of guest memory, add the swap-file module, order it before
   * the main class and add its site content. PF_MOD_MAIN_CLASS is not defined in this class,
   * so its value is a parameter here.
   */
  function CustomSetup(calls: seq<Call>, guestMem: int, mainClass: string): (r: seq<Call>)
    ensures guestMem >= 1024 ==> r == calls
    ensures guestMem < 1024 ==> r == calls + [
      PuppetfileMods(["petems/swap_file"]),
      Relationship("Swap_file::Files['mariadb_swapfile']", [Pair(Str("before"), Str("Class['" + mainClass + "']"))]),
      SiteContent(SwapFileContent)]
  {
    if guestMem < 1024 then
      calls + [PuppetfileMods(["petems/swap_file"]),
               Relationship("Swap_file::Files['mariadb_swapfile']", [Pair(Str("before"), Str("Class['" + mainClass + "']"))]),
               SiteContent(SwapFileContent)]
    else calls
  }

  // ----- properties -----

  /** The '.x' branch table: '10.x' maps to '10.0', '5.x' to '5.5', a supported branch to itself. */
  lemma DotXBranchTable()
    ensures DotXBranch(Str("10.x")) == Ok(Str("10.0"))
    ensures DotXBranch(Str("5.x")) == Ok(Str("5.5"))
    ensures DotXBranch(Str("10.1.x")) == Ok(Str("10.1"))
  {
    DropXTen();
    DropXFive();
    DropXTenOne();
  }

  /** `gsub(/\.[xX]/, '')` on the branches of the table, one literal at a time. */
  lemma DropXTen()
    ensures DropX("10.x") == "10"
  {
    assert DropX(".x") == "";
    assert DropX("0.x") == "0";
  }

  lemma DropXFive()
    ensures DropX("5.x") == "5"
  {
    assert DropX(".x") == "";
  }

  lemma DropXTenOne()
    ensures DropX("10.1.x") == "10.1"
  {
    assert DropX(".x") == "";
    assert DropX("1.x") == "1";
    assert DropX(".1.x") == ".1";
    assert DropX("0.1.x") == "0.1";
  }

  /** Any other branch has no MariaDB support. */
  lemma UnsupportedBranchAborts()
    ensures DotXBranch(Str("10.2.X")) == Err(MariadbNoSupport(Str("10.2.X")))
  {
    assert DropX(".X") == "";
    assert DropX("2.X") == "2";
    assert DropX(".2.X") == ".2";
    assert DropX("0.2.X") == "0.2";
    assert DropX("10.2.X") == "10.2";
  }

  /** With no version, no branch and no earlier branch, the branch falls back to '10.0'. */
  lemma BranchDefaultsTo100(c: Ctx, st: St, parent: string)
    requires st.branch == Nil && st.reqBranches == []
    ensures var r := VersionStep(c, st, Nil, parent);
      r.Ok? && r.value.branch == Str("10.0") && r.value.reqBranches == [Str("10.0")]
  {
  }

  /** An earlier call's branch carries over when the value names none. */
  lemma BranchCarriesOver(c: Ctx, st: St, parent: string)
    requires st.branch != Nil && st.reqBranches == [st.branch]
    ensures var r := VersionStep(c, st, Nil, parent);
      r.Ok? && r.value.branch == st.branch && r.value.reqBranches == st.reqBranches
  {
  }

  /** A branch that differs from the one recorded first aborts with BRANCH_INCOMP. */
  lemma DifferentBranchAborts(c: Ctx, st: St, value: Value, parent: string)
    requires RequestedBranch(st, value, parent).Ok?
    requires var b := RequestedBranch(st, value, parent).value.branch;
      |st.reqBranches| > 0 && (if b == Nil then Str("10.0") else b) !in st.reqBranches
    ensures VersionStep(c, st, value, parent) == Err(BranchIncomp)
  {
  }

  /** The first branch is recorded; the repository branch of the main class is enqueued. */
  lemma FirstBranchRecorded(c: Ctx, st: St, value: Value, parent: string)
    requires st.reqBranches == [] && RequestedBranch(st, value, parent).Ok?
    requires MainClass(parent).Some?
    ensures var st1 := RequestedBranch(st, value, parent).value;
      var b := if st1.branch == Nil then Str("10.0") else st1.branch;
      VersionStep(c, st, value, parent) == Ok(st1.(branch := b, reqBranches := [b],
        calls := st1.calls + [HieraParams(c.name, [Pair(Str("mariadb::" + MainClass(parent).value + "::repo_version"), Str(Quoted(ToS(b))))])]))
  {
    var st1 := RequestedBranch(st, value, parent).value;
    assert |st1.reqBranches| == 0;
    var b := if st1.branch == Nil then Str("10.0") else st1.branch;
    var r := VersionStep(c, st, value, parent);
    assert r.Ok?;
    assert r.value.branch == b;
    assert r.value.reqBranches == [b];
    assert r.value.version == st1.version;
    assert r.value.provided == st1.provided;
    assert r.value.calls == st1.calls + [HieraParams(c.name, [Pair(Str("mariadb::" + MainClass(parent).value + "::repo_version"), Str(Quoted(ToS(b))))])];
  }

  /** An allowed branch given as such becomes the branch. */
  lemma AllowedBranchKept(st: St, b: string, parent: string)
    requires AllowedBranches(parent).Some? && Str(b) in AllowedBranches(parent).value
    requires !SemverBranch(b) && !SemverVersion(b)
    ensures RequestedBranch(st, Str(b), parent) == Ok(st.(branch := Str(b)))
  {
  }

  /** A specific version sets the branch to its MAJOR.MINOR and the version to itself. */
  lemma SpecificVersionBranch(st: St, s: string, parent: string)
    requires SemverVersion(s) && !SemverBranch(s) && SemverMinor(s).Some? && SemverAsWritten(s)
    requires EnsureForVersion(st.provided, parent).Ok?
    ensures RequestedBranch(st, Str(s), parent)
      == Ok(st.(branch := Str(SemverMinor(s).value), version := Str(s), provided := EnsureForVersion(st.provided, parent).value))
  {
  }

  /**
   * Line 301 as written: a semantic version RGX_SEMVER does not match (a pre-release without
   * build metadata, such as '1.2.3-rc') raises on `captures` before 'ensure' is looked at.
   */
  lemma UncapturedVersionRaises(st: St, s: string, parent: string)
    requires SemverVersion(s) && !SemverAsWritten(s)
    ensures RequestedBranch(st, Str(s), parent) == Err(NoMethod("captures"))
  {
  }

  /** An 'ensure' of 'latest' next to a specific version aborts with VERSION_INCOMP. */
  lemma LatestWithVersionAborts(provided: Value, parent: string)
    requires IndexPath(provided, Split(parent, "->")).Ok?
    requires var cfg := IndexPath(provided, Split(parent, "->")).value;
      cfg.Hash? && HasKey(cfg.entries, Str("ensure")) && At(cfg.entries, Str("ensure")) == Str("latest")
    ensures EnsureForVersion(provided, parent) == Err(VersionIncomp)
  {
  }

  /** A group without 'ensure' gets 'present' next to a specific version, and nothing else changes. */
  lemma EnsurePresentWhenAbsent(es: seq<Pair>, parent: string)
    requires parent == "server" || parent == "cluster"
    requires HasKey(es, Str(parent)) && At(es, Str(parent)).Hash?
    requires !HasKey(At(es, Str(parent)).entries, Str("ensure"))
    ensures EnsureForVersion(Hash(es), parent)
      == Ok(Hash(Put(es, Str(parent), Hash(Put(At(es, Str(parent)).entries, Str("ensure"), Str("present"))))))
  {
    assert !Contains(parent, "->") by {
      NoDashNoArrow(parent);
    }
    SplitSingle(parent, "->");
    assert IndexPath(Hash(es), [parent]) == Ok(At(es, Str(parent)));
    var path := [Str(parent), Str("ensure")];
    assert Strs([parent]) + [Str("ensure")] == path;
    assert path[1..] == [Str("ensure")];
    assert !IsEmpty(Arr(path[1..])) by { assert path[1..][0] == Str("ensure"); }
    assert path[1..][1..] == [];
    assert RecursiveSet(es, path, Str("present"))
      == Ok(Put(es, Str(parent), Hash(Put(At(es, Str(parent)).entries, Str("ensure"), Str("present")))));
  }

  lemma {:induction false} NoDashNoArrow(s: string)
    requires forall i | 0 <= i < |s| :: s[i] != '-'
    ensures !Contains(s, "->")
    decreases |s|
  {
    if |s| > 0 {
      NoDashNoArrow(s[1..]);
      if |s| >= 2 {
        assert s[..2][0] == s[0];
      }
    }
  }

  /**
   * For a group, every node that was missing or a hash ends up a hash holding the value under
   * the parameter, and every other key of the group is as it was.
   */
  lemma {:induction false} CopyToChildrenSets(group: seq<Pair>, children: seq<string>, param: string, value: Value)
    requires CopyToChildren(group, children, param, value).Ok?
    ensures var g := CopyToChildren(group, children, param, value).value;
      forall i | 0 <= i < |children| && TakesKeys(Get(group, Str(children[i]))) ::
        TakesKeys(Get(g, Str(children[i]))) && Lookup(Hash(g), [Str(children[i]), Str(param)]) == value
    ensures var g := CopyToChildren(group, children, param, value).value;
      forall k | Str(k) !in Strs(children) :: Get(g, Str(k)) == Get(group, Str(k))
    decreases |children|
  {
    if |children| > 0 {
      var g1 := CopyToChild(group, children[0], param, value).value;
      CopyToChildSets(group, children[0], param, value);
      CopyToChildrenSets(g1, children[1..], param, value);
      var g := CopyToChildren(g1, children[1..], param, value).value;
      forall i | 0 <= i < |children| && TakesKeys(Get(group, Str(children[i])))
        ensures TakesKeys(Get(g, Str(children[i]))) && Lookup(Hash(g), [Str(children[i]), Str(param)]) == value
      {
        if i > 0 {
          assert children[1..][i - 1] == children[i];
          if children[i] != children[0] {
            assert Get(g1, Str(children[i])) == Get(group, Str(children[i]));
          }
        } else if children[0] in children[1..] {
          var j :| 0 <= j < |children[1..]| && children[1..][j] == children[0];
        } else {
          assert Str(children[0]) !in Strs(children[1..]);
          assert Get(g, Str(children[0])) == Get(g1, Str(children[0]));
        }
      }
      forall k | Str(k) !in Strs(children)
        ensures Get(g, Str(k)) == Get(group, Str(k))
      {
        assert Str(k) != Str(children[0]);
      }
    }
  }

  /**
   * One node: a missing or hash node becomes a hash holding the value under the parameter, a
   * String node has the first occurrence of the parameter's name replaced; nothing else changes.
   */
  lemma CopyToChildSets(group: seq<Pair>, child: string, param: string, value: Value)
    requires CopyToChild(group, child, param, value).Ok?
    ensures var g := CopyToChild(group, child, param, value).value;
      TakesKeys(Get(group, Str(child))) ==>
        TakesKeys(Get(g, Str(child))) && Lookup(Hash(g), [Str(child), Str(param)]) == value
    ensures Get(group, Str(child)).Some? && Get(group, Str(child)).value.Str? ==>
      value.Str? && Contains(Get(group, Str(child)).value.s, param) &&
      Get(CopyToChild(group, child, param, value).value, Str(child))
        == Some(Str(ReplaceFirst(Get(group, Str(child)).value.s, param, value.s)))
    ensures forall k | k != Str(child) :: Get(CopyToChild(group, child, param, value).value, k) == Get(group, k)
  {
    var g := if HasKey(group, Str(child)) then group else Put(group, Str(child), Hash([]));
    if !HasKey(group, Str(child)) {
      PutGetSame(group, Str(child), Hash([]));
    }
    var cur := At(g, Str(child));
    var node := if cur.Hash? then Hash(Put(cur.entries, Str(param), value)) else Str(ReplaceFirst(cur.s, param, value.s));
    assert CopyToChild(group, child, param, value) == Ok(Put(g, Str(child), node));
    PutGetSame(g, Str(child), node);
    if cur.Hash? {
      PutGetSame(cur.entries, Str(param), value);
    }
    forall k | k != Str(child)
      ensures Get(Put(g, Str(child), node), k) == Get(group, k)
    {
      PutGetOther(g, Str(child), node, k);
      if !HasKey(group, Str(child)) {
        PutGetOther(group, Str(child), Hash([]), k);
      }
    }
  }

  /**
   * What `[]=` does to each kind of node: a missing or hash node takes the key, a String node
   * raises IndexError unless the parameter's name occurs in it and TypeError unless the value is
   * a String, an Array node raises TypeError, and any other value raises NoMethodError.
   */
  lemma CopyToChildCases(group: seq<Pair>, child: string, param: string, value: Value)
    ensures var node := Get(group, Str(child)); var r := CopyToChild(group, child, param, value);
      (TakesKeys(node) ==> r.Ok?)
      && (node.Some? && node.value.Str? && !Contains(node.value.s, param) ==> r == Err(IndexErr))
      && (node.Some? && node.value.Str? && Contains(node.value.s, param) ==>
            (r.Ok? <==> value.Str?))
      && (node.Some? && node.value.Str? && Contains(node.value.s, param) && !value.Str? ==>
            r == Err(TypeErr("no implicit conversion into String")))
      && (node.Some? && node.value.Arr? ==> r == Err(TypeErr("no implicit conversion of String into Integer")))
      && (node.Some? && !node.value.Hash? && !node.value.Str? && !node.value.Arr? ==> r == Err(NoMethod("[]=")))
  {
    if !HasKey(group, Str(child)) {
      PutGetSame(group, Str(child), Hash([]));
    }
  }

  /**
   * A String node whose text does not hold the parameter's name raises IndexError, and one that
   * does has that text replaced by the value.
   */
  lemma StringNodeExamples()
    ensures CopyToChildren([Pair(Str("client"), Str("x"))], ["client", "server"], "version", Str("10.1.x"))
      == Err(IndexErr)
    ensures CopyToChildren([Pair(Str("client"), Str("version"))], ["client", "server"], "version", Str("10.1.x"))
      == Ok([Pair(Str("client"), Str("10.1.x")), Pair(Str("server"), Hash([Pair(Str("version"), Str("10.1.x"))]))])
  {
    var g := [Pair(Str("client"), Str("x"))];
    assert Find(g, Str("client")) == Some(0);
    assert !Contains("x", "version");
    var h := [Pair(Str("client"), Str("version"))];
    assert Find(h, Str("client")) == Some(0);
    assert StartsWith("version", "version");
    assert OffsetOf("version", "version") == 0;
    assert ReplaceFirst("version", "version", "10.1.x") == "10.1.x";
    var h1 := [Pair(Str("client"), Str("10.1.x"))];
    assert HasKey(h, Str("client")) && At(h, Str("client")) == Str("version");
    assert Put(h, Str("client"), Str("10.1.x")) == h1;
    assert CopyToChild(h, "client", "version", Str("10.1.x")) == Ok(h1);
    assert Find(h1, Str("server")) == None;
    var h2 := h1 + [Pair(Str("server"), Hash([]))];
    assert !HasKey(h1, Str("server")) && Put(h1, Str("server"), Hash([])) == h2;
    assert Find(h2, Str("server")) == Some(1);
    assert At(h2, Str("server")) == Hash([]);
    assert Find([], Str("version")) == None;
    var inner := [Pair(Str("version"), Str("10.1.x"))];
    assert Put([], Str("version"), Str("10.1.x")) == inner;
    assert Put(h2, Str("server"), Hash(inner)) == [Pair(Str("client"), Str("10.1.x")), Pair(Str("server"), Hash(inner))];
    assert CopyToChild(h1, "server", "version", Str("10.1.x"))
      == Ok([Pair(Str("client"), Str("10.1.x")), Pair(Str("server"), Hash(inner))]);
  }

  lemma LookupSameEntry(a: seq<Pair>, b: seq<Pair>, k: Value, rest: seq<Value>)
    requires Get(a, k) == Get(b, k)
    ensures Lookup(Hash(a), [k] + rest) == Lookup(Hash(b), [k] + rest)
  {
    assert ([k] + rest)[1..] == rest;
  }

  lemma LookupInGroup(es: seq<Pair>, k: Value, g: seq<Pair>, rest: seq<Value>)
    ensures Lookup(Hash(Put(es, k, Hash(g))), [k] + rest) == Lookup(Hash(g), rest)
  {
    PutGetSame(es, k, Hash(g));
    assert ([k] + rest)[1..] == rest;
  }

  /** The group as `process_param` leaves it: the copied nodes, without the parameter. */
  lemma CopyThenDropShape(provided: Value, parent: string, children: seq<string>, param: string, value: Value)
    requires CopyIntoGroup(provided, parent, children, param, value).Ok?
    ensures var g' := CopyToChildren(GroupOf(provided, parent).value, children, param, value).value;
      var p1 := Put(provided.entries, Str(parent), Hash(g'));
      DropFromGroup(CopyIntoGroup(provided, parent, children, param, value).value, parent, param)
        == Ok(Hash(Put(p1, Str(parent), Hash(Delete(g', Str(param))))))
  {
    var g' := CopyToChildren(GroupOf(provided, parent).value, children, param, value).value;
    var p1 := Put(provided.entries, Str(parent), Hash(g'));
    PutGetSame(provided.entries, Str(parent), Hash(g'));
    assert GroupOf(Hash(p1), parent) == Ok(g');
  }

  /** Dropping the parameter from the group leaves a node's value in place. */
  lemma NodeKeepsValue(p1: seq<Pair>, parent: Value, g': seq<Pair>, child: Value, param: Value)
    requires child != param
    ensures Lookup(Hash(Put(p1, parent, Hash(Delete(g', param)))), [parent, child, param])
      == Lookup(Hash(g'), [child, param])
  {
    var g2 := Delete(g', param);
    DeleteGetOther(g', param, child);
    LookupSameEntry(g2, g', child, [param]);
    LookupInGroup(p1, parent, g2, [child, param]);
    assert [child] + [param] == [child, param];
    assert [parent] + [child, param] == [parent, child, param];
  }

  lemma NodesKeepValue(p1: seq<Pair>, parent: string, g: seq<Pair>, g': seq<Pair>, children: seq<string>, param: string, value: Value)
    requires Str(param) !in Strs(children)
    requires forall i | 0 <= i < |children| && TakesKeys(Get(g, Str(children[i]))) ::
      Lookup(Hash(g'), [Str(children[i]), Str(param)]) == value
    ensures var p := Hash(Put(p1, Str(parent), Hash(Delete(g', Str(param)))));
      forall i | 0 <= i < |children| && TakesKeys(Get(g, Str(children[i]))) ::
        Lookup(p, [Str(parent), Str(children[i]), Str(param)]) == value
  {
    forall i | 0 <= i < |children| && TakesKeys(Get(g, Str(children[i])))
      ensures Lookup(Hash(Put(p1, Str(parent), Hash(Delete(g', Str(param))))), [Str(parent), Str(children[i]), Str(param)]) == value
    {
      assert Str(children[i]) in Strs(children);
      NodeKeepsValue(p1, Str(parent), g', Str(children[i]), Str(param));
    }
  }

  /**
   * Copying into the nodes and then dropping the parameter from the group: every node that was
   * missing or a hash holds the value, and the group does not.
   */
  lemma CopyThenDrop(provided: Value, parent: string, children: seq<string>, param: string, value: Value)
    requires Str(param) !in Strs(children)
    requires CopyIntoGroup(provided, parent, children, param, value).Ok?
    ensures GroupOf(provided, parent).Ok?
    ensures var p1 := CopyIntoGroup(provided, parent, children, param, value).value;
      DropFromGroup(p1, parent, param).Ok? &&
      var p := DropFromGroup(p1, parent, param).value;
      (forall i | 0 <= i < |children| && TakesKeys(Get(GroupOf(provided, parent).value, Str(children[i]))) ::
         Lookup(p, [Str(parent), Str(children[i]), Str(param)]) == value)
      && Lookup(p, [Str(parent)]).Hash? && !HasKey(Lookup(p, [Str(parent)]).entries, Str(param))
  {
    var g := GroupOf(provided, parent).value;
    var g' := CopyToChildren(g, children, param, value).value;
    CopyToChildrenSets(g, children, param, value);
    CopyThenDropShape(provided, parent, children, param, value);
    var p1 := Put(provided.entries, Str(parent), Hash(g'));
    var g2 := Delete(g', Str(param));
    NodesKeepValue(p1, parent, g, g', children, param, value);
    DeleteGet(g', Str(param), Str(param));
    LookupInGroup(p1, Str(parent), g2, []);
    assert [Str(parent)] + [] == [Str(parent)];
  }

  /**
   * A group parent hands a value for a parameter other than 'version' to every node (every node
   * that was missing or a hash then holds it), drops the parameter from the group and returns nil.
   */
  lemma GroupValueCopiedToNodes(c: Ctx, st: St, value: Value, param: string, parent: string)
    requires NodeChildren(parent).Some? && param != "version"
    requires Str(param) !in Strs(NodeChildren(parent).value)
    requires ProcessParam(c, st, value, param, parent).Ok?
    ensures GroupOf(st.provided, parent).Ok?
    ensures var r := ProcessParam(c, st, value, param, parent).value;
      r.value == Nil
      && (forall i | 0 <= i < |NodeChildren(parent).value|
            && TakesKeys(Get(GroupOf(st.provided, parent).value, Str(NodeChildren(parent).value[i]))) ::
            Lookup(r.st.provided, [Str(parent), Str(NodeChildren(parent).value[i]), Str(param)]) == value)
      && Lookup(r.st.provided, [Str(parent)]).Hash?
      && !HasKey(Lookup(r.st.provided, [Str(parent)]).entries, Str(param))
  {
    var children := NodeChildren(parent).value;
    var p1 := CopyIntoGroup(st.provided, parent, children, param, value);
    CopyThenDrop(st.provided, parent, children, param, value);
    assert ProcessParam(c, st, value, param, parent)
      == Ok(Step(Nil, st.(provided := DropFromGroup(p1.value, parent, param).value)));
  }

  // ----- the schema -----

  const EnsureValues: seq<string> := ["absent", "purged", "present", "installed", "latest", "held"]

  /** A 'version' entry whose callback is `process_param@version,<target>`. */
  function VersionParam(exclude: seq<string>, mapsTo: string, target: string, dev: string, test: string, prod: string): Pair
  {
    Entry("version",
      (if |exclude| > 0 then [Opt("exclude", StrList(exclude))] else [])
      + [Opt("expect", SymList(["semver_version", "semver_branch"]))]
      + (if mapsTo != "" then [Opt("maps_to", Str(mapsTo))] else [])
      + [Opt("cb_process", Str(ClassName + "#process_param@version," + target)),
         Opt("mod_def", Str("")),
         Opt("doa_def", StrByEnv(dev, test, prod))])
  }

  /** An 'ensure' entry whose callback is `process_param@ensure,<target>`. */
  function EnsureParam(exclude: seq<string>, mapsTo: string, target: string): Pair
  {
    Entry("ensure",
      (if |exclude| > 0 then [Opt("exclude", StrList(exclude))] else [])
      + [Opt("expect", SymList(["string"]))]
      + (if mapsTo != "" then [Opt("maps_to", Str(mapsTo))] else [])
      + [Opt("allow", StrList(EnsureValues)),
         Opt("cb_process", Str(ClassName + "#process_param@ensure," + target)),
         Opt("mod_def", Str("present")),
         Opt("doa_def", StrByEnv("latest", "latest", "present"))])
  }

  /** A node of a group: its own version and ensure, mapped onto the Puppet module's keys. */
  function Node(group: string, node: string, prefix: string, versionKey: string, ensureKey: string): Pair
  {
    Entry(node, [Opt("children", Hash([
      VersionParam([group + "->version"], prefix + versionKey, group + "->" + node, "10.1", "10.1", "10.0"),
      EnsureParam([group + "->ensure"], prefix + ensureKey, group + "->" + node)]))])
  }

  const Mirror := "http://ftp.osuosl.org/pub/mariadb"

  function MirrorEntry(): Pair
  {
    Entry("mirror", [Opt("expect", Sym("url")), Opt("maps_to", Str("mariadb::mirror")), Opt("mod_def", Str(Mirror)),
                     Opt("doa_def", StrByEnv(Mirror, Mirror, Mirror))])
  }

  function ServerChildren(): Value
  {
    Hash([
      VersionParam(["server->client->version", "server->server->version"], "", "server", "10.1", "10.1", "10.0"),
      EnsureParam([], "", "server"),
      Node("server", "client", "mariadb::server::", "client_package_version", "client_package_ensure"),
      Node("server", "server", "mariadb::server::", "package_version", "package_ensure")])
  }

  function ClusterChildren(): Value
  {
    Hash([
      VersionParam([], "", "cluster", "10.0", "10.0", "10.0"),
      EnsureParam([], "", "cluster"),
      Node("cluster", "client", "mariadb::galera::", "client_package_version", "client_package_ensure"),
      Node("cluster", "server", "mariadb::galera::", "package_version", "package_ensure"),
      Node("cluster", "galera", "mariadb::galera::", "galera_version", "galera_ensure")])
  }

  function ServerEntry(): Pair
  {
    Entry("server", [Opt("exclude", Arr([Str("cluster")])),
                     Opt("cb_process", Str(ClassName + "#include_hieraclass@server")),
                     Opt("children", ServerChildren())])
  }

  function ClusterEntry(): Pair
  {
    Entry("cluster", [Opt("exclude", Arr([Str("server")])), Opt("children", ClusterChildren())])
  }

  /** The `@supported` schema. */
  function Supported(): seq<Pair>
  {
    [MirrorEntry(), ServerEntry(), ClusterEntry()]
  }

  /** 'server' and 'cluster' exclude each other. */
  lemma ServerAndClusterExclusive()
    ensures At(Supported(), Str("server")).Hash? && At(Supported(), Str("cluster")).Hash?
    ensures At(At(Supported(), Str("server")).entries, Sym("exclude")) == Arr([Str("cluster")])
    ensures At(At(Supported(), Str("cluster")).entries, Sym("exclude")) == Arr([Str("server")])
  {
    ServerInSupported();
    ClusterInSupported();
  }

  lemma ServerInSupported()
    ensures At(Supported(), Str("server")) == ServerEntry().val
    ensures At(ServerEntry().val.entries, Sym("exclude")) == Arr([Str("cluster")])
  {
  }

  lemma ClusterInSupported()
    ensures At(Supported(), Str("cluster")) == ClusterEntry().val
    ensures At(ClusterEntry().val.entries, Sym("exclude")) == Arr([Str("server")])
  {
  }

  // ----- process_param on the module's state -----

  /**
   * `process_param` as the class method runs it: the nodes are filled one by one in the group
   * hash, then branch and version are settled and the parameter is dropped from the group.
   */
  method ProcessParamIn(m: ModuleState, c: Ctx, value: Value, param: string, parent: string) returns (r: Result<Value>)
    modifies m
    ensures var f := ProcessParam(c, old(m.State()), value, param, parent);
      r == (if f.Ok? then Ok(f.value.value) else Err(f.error))
    ensures var f := ProcessParam(c, old(m.State()), value, param, parent);
      f.Ok? ==> m.State() == f.value.st
  {
    var children := NodeChildren(parent);
    if children.Some? {
      var ch := children.value;
      var gr := GroupOf(m.provided, parent);
      if gr.Err? {
        return Err(gr.error);
      }
      var g := gr.value;
      var i := 0;
      while i < |ch|
        invariant 0 <= i <= |ch|
        invariant CopyToChildren(gr.value, ch, param, value) == CopyToChildren(g, ch[i..], param, value)
        invariant m.State() == old(m.State())
        decreases |ch| - i
      {
        assert ch[i..][1..] == ch[i + 1..];
        var next := CopyToChild(g, ch[i], param, value);
        if next.Err? {
          return Err(next.error);
        }
        g := next.value;
        i := i + 1;
      }
      assert ch[i..] == [];
      var p := WithGroup(m.provided, parent, g);
      if p.Err? {
        return Err(p.error);
      }
      m.provided := p.value;
    }
    if param == "version" {
      var st2 := VersionStep(c, m.State(), value, parent);
      if st2.Err? {
        return Err(st2.error);
      }
      m.Load(st2.value);
    }
    if children.Some? {
      var p2 := DropFromGroup(m.provided, parent, param);
      if p2.Err? {
        return Err(p2.error);
      }
      m.provided := p2.value;
      return Ok(Nil);
    }
    return Ok(value);
  }
}
