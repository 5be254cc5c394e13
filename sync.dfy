/**
 * `DOA::Sync`: the rsync link from one machine to another, and the listener bookkeeping that
 * `create_listener` builds for the WordPress assets of every project: the paths to watch, the
 * rsync exclusions, the patterns the watcher ignores, and one rsync command per watched path.
 * Writing the listener script and running the watcher are not part of this model.
 */
module Sync {
  import opened Values
  import opened Outcome
  import opened Strings
  import opened CheckGet
  import Ssh

  const WwwRoot := "/var/www"
  const DefaultExclude: seq<Value> := [Str(".git")]
  const RegexMeta: seq<char> := ['(', ')', '[', ']', '{', '}', '.', '?', '+', '*', '/']

  /** `DOA::Guest::USER`. */
  const GuestUser := "vagrant"

  // The `DOA::Setting` names the listener reads.
  const AssetTypes: seq<string> := ["plugins", "themes"]
  const ModeKey := "sync_mode"
  const PathKey := "path"
  const ExcludeKey := "exclude"
  const SyncBrsync := "brsync"
  const MachineRootKey := "www_root"
  const SwWp := "wordpress"

  /** The class of a machine's `instance`. */
  datatype Role = GuestRole | HostRole | OtherRole

  /** What the sync object reads of a machine; `ppk` is the private key of its session. */
  datatype Machine = Machine(role: Role, os: string, userName: string, userDomain: string, hostname: string, ppk: string)

  /** `Pathname#absolute?` and `File.expand_path`, which depend on the file system and the working directory. */
  datatype Files = Files(absolute: string -> bool, expand: string -> string)

  /** The keys of the project settings that `create_listener` reads: the projects, a project's stack and its web root. */
  datatype ProjectKeys = ProjectKeys(projects: string, stack: string, wwwRoot: string)

  // ----- reload_to -----

  /** The ssh user for a host target: on Windows, the domain-qualified name between escaped double quotes. */
  function HostSshUser(t: Machine): (u: string)
    ensures t.os == Ssh.Windows ==> StartsWith(u, "\\\"" + t.userDomain + "\\\\") && EndsWith(u, t.userName + "\\\"")
    ensures t.os != Ssh.Windows ==> u == t.userName
  {
    if t.os == Ssh.Windows then
      var head := "\\\"" + t.userDomain + "\\\\";
      var tail := t.userName + "\\\"";
      Concatenated(head, tail);
      head + tail
    else t.userName
  }

  /** interpolation of a possibly nil string. */
  function OrEmpty(s: Option<string>): string
  {
    if s.Some? then s.value else ""
  }

  // ----- the ignore patterns -----

  /**
   * `s.gsub(/(?<!g)t/, rep)` for characters `t` and `g`: every `t` that does not follow a `g`
   * becomes `rep`. The lookbehind reads the string being scanned; `prev` is the character before `s`.
   */
  function Gsub(s: string, t: char, g: char, rep: string, prev: Option<char>): (u: string)
    decreases |s|
  {
    if |s| == 0 then ""
    else (if s[0] == t && prev != Some(g) then rep else [s[0]]) + Gsub(s[1..], t, g, rep, Some(s[0]))
  }

  /** A text without the target character comes through unchanged. */
  lemma {:induction false} GsubAbsent(s: string, t: char, g: char, rep: string, prev: Option<char>)
    requires t !in s
    ensures Gsub(s, t, g, rep, prev) == s
    decreases |s|
  {
    if |s| > 0 {
      assert t !in s[1..] by {
        assert forall x | x in s[1..] :: x in s;
      }
      GsubAbsent(s[1..], t, g, rep, Some(s[0]));
    }
  }

  /**
   * What the replacement text `"\\" + m` inserts: a backslash and `m`; but `\+` stands for the
   * last group of the match, and the pattern captures none, so a '+' is replaced by nothing.
   */
  function Replacement(m: char): (r: string)
    ensures m != '+' ==> r == ['\\', m]
    ensures m == '+' ==> r == ""
  {
    if m == '+' then "" else ['\\', m]
  }

  /** The path after the substitutions for the first `k` metacharacters of `REGEX_META`. */
  function EscapedUpTo(s: string, k: nat): string
    requires k <= |RegexMeta|
  {
    if k == 0 then s
    else Gsub(EscapedUpTo(s, k - 1), RegexMeta[k - 1], '\\', Replacement(RegexMeta[k - 1]), None)
  }

  /** Lines 62-67: the ignore pattern of a path, as the code computes it. */
  function IgnorePattern(s: string): string
  {
    Gsub(EscapedUpTo(s, |RegexMeta|), '*', '.', ".*", None)
  }

  /** Lines 62-67: the loop over `REGEX_META` that reassigns `path`, then the wildcard substitution. */
  method EscapeIgnore(path: string) returns (p: string)
    ensures p == IgnorePattern(path)
  {
    p := path;
    var k := 0;
    while k < |RegexMeta|
      invariant k <= |RegexMeta| && p == EscapedUpTo(path, k)
    {
      p := Gsub(p, RegexMeta[k], '\\', Replacement(RegexMeta[k]), None);
      k := k + 1;
    }
    p := Gsub(p, '*', '.', ".*", None);
  }

  /** What a character of a backslash-free path has become once the first `k` metacharacters are done. */
  function ChunkUpTo(c: char, k: nat): string
    requires k <= |RegexMeta|
  {
    if c in RegexMeta[..k] then Replacement(c) else [c]
  }

  function EscapedChars(s: string, k: nat): string
    requires k <= |RegexMeta|
    decreases |s|
  {
    if |s| == 0 then "" else ChunkUpTo(s[0], k) + EscapedChars(s[1..], k)
  }

  /** What one character of a backslash-free path becomes in its ignore pattern. */
  function IgnoreChunk(c: char): (r: string)
    ensures c == '*' ==> r == "\\.*"
    ensures c == '+' ==> r == ""
    ensures c != '*' && c != '+' && c in RegexMeta ==> r == ['\\', c]
    ensures c !in RegexMeta ==> r == [c]
  {
    if c == '*' then "\\.*" else if c in RegexMeta then Replacement(c) else [c]
  }

  /** The ignore pattern of a backslash-free path, character by character. */
  function IgnoreChars(s: string): string
    decreases |s|
  {
    if |s| == 0 then "" else IgnoreChunk(s[0]) + IgnoreChars(s[1..])
  }

  /** The character before the text that follows `a`. */
  function LastOf(a: string, prev: Option<char>): Option<char>
  {
    if |a| == 0 then prev else Some(a[|a| - 1])
  }

  /** The substitution scans a concatenation piece by piece. */
  lemma {:induction false} GsubAppend(a: string, b: string, t: char, g: char, rep: string, prev: Option<char>)
    ensures Gsub(a + b, t, g, rep, prev) == Gsub(a, t, g, rep, prev) + Gsub(b, t, g, rep, LastOf(a, prev))
    decreases |a|
  {
    if |a| == 0 {
      assert a + b == b;
    } else {
      var h := if a[0] == t && prev != Some(g) then rep else [a[0]];
      var x := Gsub(a[1..], t, g, rep, Some(a[0]));
      var y := Gsub(b, t, g, rep, LastOf(a, prev));
      assert LastOf(a[1..], Some(a[0])) == LastOf(a, prev) by {
        if |a| > 1 {
          assert a[1..][|a[1..]| - 1] == a[|a| - 1];
        }
      }
      assert Gsub(a[1..] + b, t, g, rep, Some(a[0])) == x + y by {
        GsubAppend(a[1..], b, t, g, rep, Some(a[0]));
      }
      assert Gsub(a + b, t, g, rep, prev) == h + (x + y) by {
        assert (a + b)[0] == a[0] && (a + b)[1..] == a[1..] + b;
      }
      assert Gsub(a, t, g, rep, prev) == h + x;
      assert h + (x + y) == (h + x) + y;
    }
  }

  lemma RegexMetaFacts()
    ensures forall i, j | 0 <= i < j < |RegexMeta| :: RegexMeta[i] != RegexMeta[j]
    ensures '\\' !in RegexMeta && '.' in RegexMeta && '*' in RegexMeta && '+' in RegexMeta
    ensures RegexMeta[..|RegexMeta|] == RegexMeta
  {
  }

  /** The substitution for the next metacharacter turns one character's piece into the next. */
  lemma ChunkStep(c: char, k: nat, prev: Option<char>)
    requires k < |RegexMeta| && c != '\\' && prev != Some('\\')
    ensures Gsub(ChunkUpTo(c, k), RegexMeta[k], '\\', Replacement(RegexMeta[k]), prev) == ChunkUpTo(c, k + 1)
    ensures LastOf(ChunkUpTo(c, k), prev) != Some('\\')
  {
    RegexMetaFacts();
    var m := RegexMeta[k];
    var rep := Replacement(m);
    assert RegexMeta[..k + 1] == RegexMeta[..k] + [m];
    if c in RegexMeta[..k] {
      assert c != m by {
        var i :| 0 <= i < k && RegexMeta[..k][i] == c;
        assert RegexMeta[i] != RegexMeta[k];
      }
      assert m !in Replacement(c) by {
        assert m != '\\';
      }
      GsubAbsent(Replacement(c), m, '\\', rep, prev);
    } else if c == m {
      assert Gsub([c], m, '\\', rep, prev) == rep + Gsub([c][1..], m, '\\', rep, Some(c));
      assert [c][1..] == "";
    } else {
      GsubAbsent([c], m, '\\', rep, prev);
    }
  }

  /** One more substitution on a backslash-free path works character by character. */
  lemma {:induction false} EscapeStep(s: string, k: nat, prev: Option<char>)
    requires k < |RegexMeta| && '\\' !in s && prev != Some('\\')
    ensures Gsub(EscapedChars(s, k), RegexMeta[k], '\\', Replacement(RegexMeta[k]), prev) == EscapedChars(s, k + 1)
    decreases |s|
  {
    if |s| > 0 {
      var m := RegexMeta[k];
      ChunkStep(s[0], k, prev);
      GsubAppend(ChunkUpTo(s[0], k), EscapedChars(s[1..], k), m, '\\', Replacement(m), prev);
      assert '\\' !in s[1..] by {
        assert forall x | x in s[1..] :: x in s;
      }
      EscapeStep(s[1..], k, LastOf(ChunkUpTo(s[0], k), prev));
    }
  }

  lemma {:induction false} EscapedCharsNone(s: string)
    ensures EscapedChars(s, 0) == s
    decreases |s|
  {
    if |s| > 0 {
      EscapedCharsNone(s[1..]);
    }
  }

  lemma {:induction false} EscapedUpToChars(s: string, k: nat)
    requires k <= |RegexMeta| && '\\' !in s
    ensures EscapedUpTo(s, k) == EscapedChars(s, k)
    decreases k
  {
    if k == 0 {
      EscapedCharsNone(s);
    } else {
      EscapedUpToChars(s, k - 1);
      EscapeStep(s, k - 1, None);
    }
  }

  /** The wildcard substitution on the escaped pieces: a '*' now follows its backslash. */
  lemma {:induction false} StarStep(s: string, prev: Option<char>)
    requires '\\' !in s
    ensures Gsub(EscapedChars(s, |RegexMeta|), '*', '.', ".*", prev) == IgnoreChars(s)
    decreases |s|
  {
    if |s| > 0 {
      var c := s[0];
      var piece := ChunkUpTo(c, |RegexMeta|);
      var rest := EscapedChars(s[1..], |RegexMeta|);
      assert EscapedChars(s, |RegexMeta|) == piece + rest;
      assert '\\' !in s[1..] by {
        assert forall x | x in s[1..] :: x in s;
      }
      assert Gsub(piece + rest, '*', '.', ".*", prev)
        == Gsub(piece, '*', '.', ".*", prev) + Gsub(rest, '*', '.', ".*", LastOf(piece, prev)) by {
        GsubAppend(piece, rest, '*', '.', ".*", prev);
      }
      assert Gsub(rest, '*', '.', ".*", LastOf(piece, prev)) == IgnoreChars(s[1..]) by {
        StarStep(s[1..], LastOf(piece, prev));
      }
      assert Gsub(piece, '*', '.', ".*", prev) == IgnoreChunk(c) by {
        RegexMetaFacts();
        if c == '*' {
          assert piece == ['\\', '*'];
          assert Gsub(piece, '*', '.', ".*", prev) == ['\\'] + Gsub(['*'], '*', '.', ".*", Some('\\'));
        } else if c in RegexMeta {
          assert '*' !in piece;
          GsubAbsent(piece, '*', '.', ".*", prev);
        } else {
          assert piece == [c];
        }
      }
    }
  }

  /**
   * Lines 62-67 on a path without backslashes: each metacharacter is escaped, except that a '+'
   * disappears and a '*' becomes `\.*`.
   */
  lemma IgnoreAsWritten(s: string)
    requires '\\' !in s
    ensures IgnorePattern(s) == IgnoreChars(s)
  {
    EscapedUpToChars(s, |RegexMeta|);
    StarStep(s, None);
  }

  // ----- what the patterns mean -----

  /**
   * The glob a regular expression of this shape stands for: `\c` is the character c, and `.*`
   * (any run of characters) is the glob wildcard '*'.
   */
  function Unglob(p: string): string
    decreases |p|
  {
    if |p| == 0 then ""
    else if p[0] == '\\' && |p| >= 2 then [p[1]] + Unglob(p[2..])
    else if p[0] == '.' && |p| >= 2 && p[1] == '*' then "*" + Unglob(p[2..])
    else [p[0]] + Unglob(p[1..])
  }

  /** What one glob character should become: the wildcard '.*', an escaped metacharacter, or itself. */
  function GlobChunk(c: char): (r: string)
    ensures c == '*' ==> r == ".*"
    ensures c != '*' && c in RegexMeta ==> r == ['\\', c]
    ensures c !in RegexMeta ==> r == [c]
  {
    if c == '*' then ".*" else if c in RegexMeta then ['\\', c] else [c]
  }

  /** The ignore pattern as evidently intended: a glob turned into the regular expression it stands for. */
  function GlobPattern(s: string): string
    decreases |s|
  {
    if |s| == 0 then "" else GlobChunk(s[0]) + GlobPattern(s[1..])
  }

  /** The intended pattern reads back as the glob it came from. */
  lemma {:induction false} GlobRoundTrip(s: string)
    requires '\\' !in s
    ensures Unglob(GlobPattern(s)) == s
    decreases |s|
  {
    if |s| > 0 {
      RegexMetaFacts();
      var c := s[0];
      var rest := GlobPattern(s[1..]);
      assert '\\' !in s[1..] by {
        assert forall x | x in s[1..] :: x in s;
      }
      GlobRoundTrip(s[1..]);
      var p := GlobChunk(c) + rest;
      if c == '*' {
        assert p[0] == '.' && p[1] == '*' && p[2..] == rest;
      } else if c in RegexMeta {
        assert p[0] == '\\' && p[1] == c && p[2..] == rest;
      } else {
        assert c != '.' && p[0] == c && p[1..] == rest;
      }
      assert Unglob(p) == [c] + s[1..];
    }
  }

  /** As written, the glob '*' turns into `\.*`, which reads back as a run of dots. */
  lemma StarAsWritten()
    ensures IgnorePattern("*") == "\\.*"
    ensures Unglob(IgnorePattern("*")) == ".*"
  {
    IgnoreAsWritten("*");
    assert IgnoreChars("*") == IgnoreChunk('*') + IgnoreChars("");
    var p := "\\.*";
    assert p[0] == '\\' && p[1] == '.' && p[2..] == "*";
    assert Unglob("*") == "*";
  }

  /** As written, a '+' of the path is dropped from its ignore pattern. */
  lemma PlusAsWritten()
    ensures IgnorePattern("a+b") == "ab"
  {
    IgnoreAsWritten("a+b");
    assert "a+b"[1..] == "+b" && "+b"[1..] == "b" && "b"[1..] == "";
    assert IgnoreChars("b") == "b" by {
      assert 'b' !in RegexMeta;
    }
    assert IgnoreChars("+b") == "b" by {
      assert IgnoreChunk('+') == "";
    }
    assert IgnoreChars("a+b") == "ab" by {
      assert 'a' !in RegexMeta;
    }
  }

  /** The pattern the listener ignores for a path: as written, or as evidently intended. */
  function Pattern(s: string, corrected: bool): string
  {
    if corrected then GlobPattern(s) else IgnorePattern(s)
  }

  // ----- Array#| -----

  /** The elements of `xs`, each kept where it first appears. */
  function Dedup(xs: seq<Value>): seq<Value>
    decreases |xs|
  {
    if |xs| == 0 then []
    else
      var d := Dedup(xs[..|xs| - 1]);
      if xs[|xs| - 1] in d then d else d + [xs[|xs| - 1]]
  }

  /** No element twice, no element lost or added, and the first one stays first. */
  lemma {:induction false} DedupFacts(xs: seq<Value>)
    ensures var u := Dedup(xs);
      (forall i, j | 0 <= i < j < |u| :: u[i] != u[j])
      && (forall x :: x in u <==> x in xs)
      && (|xs| > 0 ==> |u| > 0 && u[0] == xs[0])
    decreases |xs|
  {
    if |xs| > 0 {
      var init := xs[..|xs| - 1];
      DedupFacts(init);
      assert xs == init + [xs[|xs| - 1]];
      assert |init| > 0 ==> init[0] == xs[0];
    }
  }

  /** `a | b`: the elements of both arrays, without duplicates, in the order they first appear. */
  function Union(a: seq<Value>, b: seq<Value>): seq<Value>
  {
    Dedup(a + b)
  }

  lemma UnionFacts(a: seq<Value>, b: seq<Value>)
    ensures var u := Union(a, b);
      (forall i, j | 0 <= i < j < |u| :: u[i] != u[j])
      && (forall x :: x in u <==> x in a || x in b)
      && (|a| > 0 ==> |u| > 0 && u[0] == a[0])
  {
    DedupFacts(a + b);
    assert |a| > 0 ==> (a + b)[0] == a[0];
  }

  // ----- one asset -----

  /** Lines 42-45: the asset's `sync_mode` when it is a non-empty string, else 'brsync'. */
  function SyncMode(params: Value): Result<string>
  {
    var has :- HasKeyOf(params, Str(ModeKey));
    var m := At(params.entries, Str(ModeKey));
    if has && m.Str? && m.s != "" then Ok(m.s) else Ok(SyncBrsync)
  }

  /** Only a hash has a mode; a missing, empty or non-string mode is 'brsync'. */
  lemma SyncModeCases(params: Value)
    ensures SyncMode(params).Ok? <==> params.Hash?
    ensures params.Hash? ==> var m := At(params.entries, Str(ModeKey));
      SyncMode(params).value == if m.Str? && m.s != "" then m.s else SyncBrsync
  {
  }

  /** Line 46: the asset's path, '' when absent. */
  function AssetPath(params: Value): Result<Value>
  {
    CheckGetOf(params, CString, 5, Str(PathKey), Str(""), false, None, None)
  }

  /** Line 57: the asset's exclusions, [] when absent. */
  function AssetExcludes(params: Value): Result<Value>
  {
    CheckGetOf(params, CArray, 5, Str(ExcludeKey), Arr([]), false, None, None)
  }

  /** Line 51: a relative path of the host is expanded. */
  function SourcePath(files: Files, path: string): string
  {
    if files.absolute(path) then path else files.expand(path)
  }

  /** Line 52: where the asset lives on the machine that serves the site. */
  function TargetPath(root: string, typ: string, asset: Value): string
  {
    root + "/wp-content/" + typ + "/" + ToS(asset)
  }

  /** The target lies in the site's `wp-content` directory and ends with the asset's name. */
  lemma TargetPathShape(root: string, typ: string, asset: Value)
    ensures StartsWith(TargetPath(root, typ, asset), root + "/wp-content/")
    ensures EndsWith(TargetPath(root, typ, asset), "/" + ToS(asset))
  {
    var p := TargetPath(root, typ, asset);
    assert p == (root + "/wp-content/") + (typ + "/" + ToS(asset));
    Concatenated(root + "/wp-content/", typ + "/" + ToS(asset));
    JoinedPath(root + "/wp-content/" + typ, ToS(asset));
  }

  /** A watched asset: its (possibly swapped) source and target paths and all its exclusions. */
  datatype Reg = Reg(from: string, to: string, all: seq<Value>)

  /**
   * Lines 42-60 for one asset: nothing for an asset that is not synced by rsync or has no path,
   * else its paths, swapped when the sync starts at the guest, and `DEFAULT_EXCLUDE | exclude`.
   */
  function AssetStep(root: string, typ: string, asset: Value, params: Value, fromGuest: bool, files: Files): Result<seq<Reg>>
  {
    var mode :- SyncMode(params);
    var path :- AssetPath(params);
    if mode != SyncBrsync || IsEmpty(path) then Ok([])
    else if !path.Str? then Err(TypeErr("no implicit conversion into String"))
    else
      var src := SourcePath(files, path.s);
      var dst := TargetPath(root, typ, asset);
      var ex :- AssetExcludes(params);
      if !ex.Arr? then Err(TypeErr("no implicit conversion into Array"))
      else Ok([Reg(if fromGuest then dst else src, if fromGuest then src else dst, Union(DefaultExclude, ex.items))])
  }

  /** Lines 42-60: what one asset registers. */
  lemma AssetStepCases(root: string, typ: string, asset: Value, params: Value, fromGuest: bool, files: Files)
    ensures var r := AssetStep(root, typ, asset, params, fromGuest, files);
      (r.Ok? ==> |r.value| <= 1)
      && ((SyncMode(params).Ok? && AssetPath(params).Ok?
           && (SyncMode(params).value != SyncBrsync || IsEmpty(AssetPath(params).value))) ==> r == Ok([]))
      && (r.Ok? && |r.value| == 1 ==>
        SyncMode(params) == Ok(SyncBrsync) && AssetPath(params).Ok? && AssetPath(params).value.Str?
        && AssetPath(params).value.s != ""
        && AssetExcludes(params).Ok? && AssetExcludes(params).value.Arr?
        && var src := SourcePath(files, AssetPath(params).value.s);
           var dst := TargetPath(root, typ, asset);
           r.value[0] == Reg(if fromGuest then dst else src, if fromGuest then src else dst,
                             Union(DefaultExclude, AssetExcludes(params).value.items)))
  {
  }

  function AssetSteps(root: string, typ: string, ps: seq<Pair>, fromGuest: bool, files: Files): (rs: seq<Result<seq<Reg>>>)
    ensures |rs| == |ps|
    ensures forall i | 0 <= i < |ps| :: rs[i] == AssetStep(root, typ, ps[i].key, ps[i].val, fromGuest, files)
  {
    seq(|ps|, i requires 0 <= i < |ps| => AssetStep(root, typ, ps[i].key, ps[i].val, fromGuest, files))
  }

  /** Lines 40-41: the assets of one type, when the setup lists that type. */
  function TypeStep(root: string, setup: Value, typ: string, fromGuest: bool, files: Files): Result<seq<Reg>>
  {
    var has :- HasKeyOf(setup, Str(typ));
    if !has then Ok([])
    else
      var ps :- EachPairs(At(setup.entries, Str(typ)));
      Chain(AssetSteps(root, typ, ps, fromGuest, files), |ps|)
  }

  function TypeSteps(root: string, setup: Value, fromGuest: bool, files: Files): (rs: seq<Result<seq<Reg>>>)
    ensures |rs| == |AssetTypes|
    ensures forall i | 0 <= i < |AssetTypes| :: rs[i] == TypeStep(root, setup, AssetTypes[i], fromGuest, files)
  {
    seq(|AssetTypes|, i requires 0 <= i < |AssetTypes| => TypeStep(root, setup, AssetTypes[i], fromGuest, files))
  }

  /** Lines 38-78: the plugins, then the themes, of one WordPress site. */
  function SiteRegs(root: string, setup: Value, fromGuest: bool, files: Files): Result<seq<Reg>>
  {
    Chain(TypeSteps(root, setup, fromGuest, files), |AssetTypes|)
  }

  // ----- create_listener -----

  /** Lines 85-91: the project's own web root, else the machine's followed by the project, else '/var/www/<project>'. */
  function RootOf(site: Value, vm: Value, project: Value): string
  {
    if !IsEmpty(site) then ToS(site)
    else
      var base := if !IsEmpty(vm) then ToS(vm) else WwwRoot;
      base + "/" + ToS(project)
  }

  /** The project's own root wins; otherwise the project's directory under the machine's root or '/var/www'. */
  lemma RootShape(site: Value, vm: Value, project: Value)
    ensures !IsEmpty(site) ==> RootOf(site, vm, project) == ToS(site)
    ensures IsEmpty(site) ==> EndsWith(RootOf(site, vm, project), "/" + ToS(project))
    ensures IsEmpty(site) && !IsEmpty(vm) ==> StartsWith(RootOf(site, vm, project), ToS(vm) + "/")
    ensures IsEmpty(site) && IsEmpty(vm) ==> StartsWith(RootOf(site, vm, project), WwwRoot + "/")
  {
    if IsEmpty(site) {
      JoinedPath(if !IsEmpty(vm) then ToS(vm) else WwwRoot, ToS(project));
    }
  }

  /** Lines 96-100: only the 'wordpress' entries of a stack are listened to. */
  function StackSteps(root: string, es: seq<Pair>, fromGuest: bool, files: Files): (rs: seq<Result<seq<Reg>>>)
    ensures |rs| == |es|
    ensures forall i | 0 <= i < |es| :: rs[i] == if es[i].key == Str(SwWp) then SiteRegs(root, es[i].val, fromGuest, files) else Ok([])
  {
    seq(|es|, i requires 0 <= i < |es| => if es[i].key == Str(SwWp) then SiteRegs(root, es[i].val, fromGuest, files) else Ok([]))
  }

  /** A project to listen to: its root and the entries of its stack. */
  datatype Site = Site(root: string, stack: seq<Pair>)

  /** Lines 81-92: the root and the stack of a project whose stack is a hash; none for any other project. */
  function ProjectSite(settings: Value, keys: ProjectKeys, project: Value, config: Value): Result<Option<Site>>
  {
    var has :- HasKeyOf(config, Str(keys.stack));
    var stack := At(config.entries, Str(keys.stack));
    if !has || !stack.Hash? then Ok(None)
    else
      var vm :- CheckGetOf(settings, CString, 2, Str(MachineRootKey), Str(""), false, None, None);
      var site :- CheckGetOf(config, CString, 3, Str(keys.wwwRoot), Str(""), false, None, None);
      Ok(Some(Site(RootOf(site, vm, project), stack.entries)))
  }

  /** Lines 81-101: a project with a stack hash listens to its WordPress sites under its root. */
  function ProjectStep(settings: Value, keys: ProjectKeys, project: Value, config: Value, fromGuest: bool, files: Files): Result<seq<Reg>>
  {
    var site :- ProjectSite(settings, keys, project, config);
    if site.None? then Ok([])
    else Chain(StackSteps(site.value.root, site.value.stack, fromGuest, files), |site.value.stack|)
  }

  function ProjectSteps(settings: Value, keys: ProjectKeys, ps: seq<Pair>, fromGuest: bool, files: Files): (rs: seq<Result<seq<Reg>>>)
    ensures |rs| == |ps|
    ensures forall i | 0 <= i < |ps| :: rs[i] == ProjectStep(settings, keys, ps[i].key, ps[i].val, fromGuest, files)
  {
    seq(|ps|, i requires 0 <= i < |ps| => ProjectStep(settings, keys, ps[i].key, ps[i].val, fromGuest, files))
  }

  /** Lines 40-41: a setup that is not a hash aborts; a type it does not list adds nothing. */
  lemma TypeStepCases(root: string, setup: Value, typ: string, fromGuest: bool, files: Files)
    ensures TypeStep(root, setup, typ, fromGuest, files).Ok? ==> setup.Hash?
    ensures setup.Hash? && !HasKey(setup.entries, Str(typ)) ==> TypeStep(root, setup, typ, fromGuest, files) == Ok([])
  {
  }

  /**
   * Lines 81-92: a project whose configuration is not a hash aborts, one whose stack is no hash is
   * skipped, and any other is listened to at its root with the entries of its stack.
   */
  lemma ProjectSiteCases(settings: Value, keys: ProjectKeys, project: Value, config: Value, fromGuest: bool, files: Files)
    ensures var r := ProjectSite(settings, keys, project, config);
      (r.Ok? ==> config.Hash?)
      && (config.Hash? && !At(config.entries, Str(keys.stack)).Hash? ==> r == Ok(None))
      && (r.Ok? && r.value.Some? ==> r.value.value.stack == At(config.entries, Str(keys.stack)).entries)
    ensures ProjectStep(settings, keys, project, config, fromGuest, files).Ok? ==> config.Hash?
    ensures config.Hash? && !At(config.entries, Str(keys.stack)).Hash? ==> ProjectStep(settings, keys, project, config, fromGuest, files) == Ok([])
  {
  }

  /** Lines 79-101: every project of the settings, in order. */
  function ListenerRegs(settings: Value, keys: ProjectKeys, fromGuest: bool, files: Files): Result<seq<Reg>>
  {
    var projects :- Index(settings, keys.projects);
    var ps :- EachPairs(projects);
    Chain(ProjectSteps(settings, keys, ps, fromGuest, files), |ps|)
  }

  // ----- the listener's lists -----

  /** `@listen_to`, `@excludes`, `@ignores` and `@conditions`. */
  datatype Listener = Listener(listenTo: seq<string>, excludes: seq<string>, ignores: seq<string>, conditions: map<string, string>)

  /** What an rsync command reads of the link: both systems, the target's host name and the rsync user. */
  datatype Link = Link(fromOs: string, toOs: string, toHost: string, rsyncUser: string)

  /** Line 59: every exclusion under the watched path. */
  function Prefixed(from: string, all: seq<Value>): (r: seq<string>)
    ensures |r| == |all|
  {
    seq(|all|, i requires 0 <= i < |all| => from + "/" + ToS(all[i]))
  }

  /** Every exclusion lies under the watched path. */
  lemma PrefixedUnder(from: string, all: seq<Value>)
    ensures forall i | 0 <= i < |all| ::
      StartsWith(Prefixed(from, all)[i], from + "/") && EndsWith(Prefixed(from, all)[i], ToS(all[i]))
  {
    forall i | 0 <= i < |all|
      ensures StartsWith(Prefixed(from, all)[i], from + "/") && EndsWith(Prefixed(from, all)[i], ToS(all[i]))
    {
      Concatenated(from + "/", ToS(all[i]));
    }
  }

  /** Lines 69-73: the rsync command of a watched path, with the source ending in '/' and the target not. */
  function Condition(link: Link, reg: Reg): string
  {
    "`#{ cmd_partial_rsync } " + Ssh.Escape(link.fromOs, reg.from, true) + " "
      + link.rsyncUser + "@" + link.toHost + ":" + Ssh.Escape(link.toOs, reg.to, false) + "`"
  }

  /** The command copies the escaped source path to the escaped target path of the rsync user at the target host. */
  lemma ConditionCommand(link: Link, reg: Reg)
    ensures StartsWith(Condition(link, reg), "`#{ cmd_partial_rsync } " + Ssh.Escape(link.fromOs, reg.from, true) + " ")
    ensures EndsWith(Condition(link, reg), link.rsyncUser + "@" + link.toHost + ":" + Ssh.Escape(link.toOs, reg.to, false) + "`")
  {
    var head := "`#{ cmd_partial_rsync } " + Ssh.Escape(link.fromOs, reg.from, true) + " ";
    var tail := link.rsyncUser + "@" + link.toHost + ":" + Ssh.Escape(link.toOs, reg.to, false) + "`";
    assert Condition(link, reg) == head + tail;
    Concatenated(head, tail);
  }

  /** Lines 61-67: the ignore patterns of the exclusions, in order. */
  function Patterns(ex: seq<string>, corrected: bool): (ps: seq<string>)
    ensures |ps| == |ex|
    ensures forall i | 0 <= i < |ex| :: ps[i] == Pattern(ex[i], corrected)
    decreases |ex|
  {
    if |ex| == 0 then []
    else
      var init := ex[..|ex| - 1];
      assert forall i | 0 <= i < |init| :: init[i] == ex[i];
      Patterns(init, corrected) + [Pattern(ex[|ex| - 1], corrected)]
  }

  /** Lines 56-73: what one watched asset adds to the lists. */
  function Apply(l: Listener, link: Link, corrected: bool, reg: Reg): Listener
  {
    var ex := Prefixed(reg.from, reg.all);
    Listener(l.listenTo + [reg.from], l.excludes + ex, l.ignores + Patterns(ex, corrected),
             l.conditions[reg.from := Condition(link, reg)])
  }

  /** The lists after the watched assets, in order. */
  function Registered(l: Listener, link: Link, corrected: bool, regs: seq<Reg>): Listener
    decreases |regs|
  {
    if |regs| == 0 then l
    else Apply(Registered(l, link, corrected, regs[..|regs| - 1]), link, corrected, regs[|regs| - 1])
  }

  /** One more asset of the list is registered on top of those before it. */
  lemma RegisteredStep(l: Listener, link: Link, corrected: bool, regs: seq<Reg>, j: nat)
    requires j < |regs|
    ensures Registered(l, link, corrected, regs[..j + 1]) == Apply(Registered(l, link, corrected, regs[..j]), link, corrected, regs[j])
  {
    assert regs[..j + 1][..j] == regs[..j];
  }

  lemma {:induction false} RegisteredAppend(l: Listener, link: Link, corrected: bool, a: seq<Reg>, b: seq<Reg>)
    ensures Registered(l, link, corrected, a + b) == Registered(Registered(l, link, corrected, a), link, corrected, b)
    decreases |b|
  {
    if |b| == 0 {
      assert a + b == a;
    } else {
      assert (a + b)[..|a + b| - 1] == a + b[..|b| - 1];
      RegisteredAppend(l, link, corrected, a, b[..|b| - 1]);
    }
  }

  function Froms(regs: seq<Reg>): (fs: seq<string>)
    ensures |fs| == |regs| && forall i | 0 <= i < |regs| :: fs[i] == regs[i].from
  {
    seq(|regs|, i requires 0 <= i < |regs| => regs[i].from)
  }

  /** Line 56: each watched asset appends its source path to `listen_to`, in order, and nothing else does. */
  lemma {:induction false} RegisteredListenTo(l: Listener, link: Link, corrected: bool, regs: seq<Reg>)
    ensures Registered(l, link, corrected, regs).listenTo == l.listenTo + Froms(regs)
    decreases |regs|
  {
    if |regs| > 0 {
      RegisteredListenTo(l, link, corrected, regs[..|regs| - 1]);
      assert Froms(regs) == Froms(regs[..|regs| - 1]) + [regs[|regs| - 1].from];
    }
  }

  /** The ignore patterns are those of the exclusions, one for one. */
  ghost predicate Mirrored(l: Listener, corrected: bool)
  {
    |l.ignores| == |l.excludes| && forall i | 0 <= i < |l.excludes| :: l.ignores[i] == Pattern(l.excludes[i], corrected)
  }

  /** Every watched path has its rsync command. */
  ghost predicate Commanded(l: Listener)
  {
    forall p | p in l.listenTo :: p in l.conditions
  }

  /** Lines 56-73 keep both: each exclusion gets its own ignore pattern, and each watched path a command. */
  lemma {:induction false} RegisteredKeeps(l: Listener, link: Link, corrected: bool, regs: seq<Reg>)
    requires Mirrored(l, corrected) && Commanded(l)
    ensures Mirrored(Registered(l, link, corrected, regs), corrected)
    ensures Commanded(Registered(l, link, corrected, regs))
    decreases |regs|
  {
    if |regs| > 0 {
      var m := Registered(l, link, corrected, regs[..|regs| - 1]);
      RegisteredKeeps(l, link, corrected, regs[..|regs| - 1]);
      var n := Apply(m, link, corrected, regs[|regs| - 1]);
      assert n == Registered(l, link, corrected, regs);
      forall i | 0 <= i < |n.excludes| ensures n.ignores[i] == Pattern(n.excludes[i], corrected) {
        if i >= |m.excludes| {
          assert n.excludes[i] == Prefixed(regs[|regs| - 1].from, regs[|regs| - 1].all)[i - |m.excludes|];
        }
      }
    }
  }

  /** The object holding one rsync link and its listener lists. */
  class Syncer {
    const from: Machine
    var to: Machine
    var excludes: seq<string>
    var listenTo: seq<string>
    var ignores: seq<string>
    var conditions: map<string, string>
    var sshUser: Option<string>
    var sshKey: Option<string>
    var rsyncUser: Option<string>
    const quotes: string

    function Watching(): Listener
      reads this
    {
      Listener(listenTo, excludes, ignores, conditions)
    }

    function LinkOf(): Link
      reads this
    {
      Link(from.os, to.os, to.hostname, OrEmpty(rsyncUser))
    }

    /** The target and the logins, which the listener methods leave alone. */
    function Logins(): (Machine, Option<string>, Option<string>, Option<string>)
      reads this
    {
      (to, sshUser, sshKey, rsyncUser)
    }

    /** Lines 17-23: empty lists, quotes for a Windows source, and the logins of the target. */
    constructor(from0: Machine, to0: Machine, guestKey: string)
      ensures from == from0 && to == to0
      ensures Watching() == Listener([], [], [], map[])
      ensures quotes == if from0.os == Ssh.Windows then "'" else ""
      ensures to0.role == GuestRole ==> sshUser == Some(GuestUser) && sshKey == Some(guestKey) && rsyncUser == Some(GuestUser)
      ensures to0.role == HostRole ==> sshUser == Some(HostSshUser(to0)) && sshKey == Some(from0.ppk) && rsyncUser == Some(to0.userName)
      ensures to0.role == OtherRole ==> sshUser == None && sshKey == None && rsyncUser == None
    {
      from := from0;
      to := to0;
      excludes, listenTo, ignores, conditions := [], [], [], map[];
      sshUser, sshKey, rsyncUser := None, None, None;
      quotes := if from0.os == Ssh.Windows then "'" else "";
      new;
      ReloadTo(to0, guestKey);
    }

    /** Lines 25-36: the logins for a guest or a host target; any other target keeps the old ones. */
    method ReloadTo(t: Machine, guestKey: string)
      modifies this
      ensures to == t && Watching() == old(Watching())
      ensures t.role == GuestRole ==> sshUser == Some(GuestUser) && sshKey == Some(guestKey) && rsyncUser == Some(GuestUser)
      ensures t.role == HostRole ==> sshUser == Some(HostSshUser(t)) && sshKey == Some(from.ppk) && rsyncUser == Some(t.userName)
      ensures t.role == OtherRole ==> sshUser == old(sshUser) && sshKey == old(sshKey) && rsyncUser == old(rsyncUser)
    {
      to := t;
      if t.role == GuestRole {
        sshUser := Some(GuestUser);
        sshKey := Some(guestKey);
        rsyncUser := sshUser;
      } else if t.role == HostRole {
        sshUser := Some(HostSshUser(t));
        sshKey := Some(from.ppk);
        rsyncUser := Some(t.userName);
      }
    }

    /** Lines 61-68: the ignore patterns of the exclusions, computed one at a time. */
    method AddIgnores(ex: seq<string>, corrected: bool)
      modifies this
      ensures Logins() == old(Logins())
      ensures listenTo == old(listenTo) && excludes == old(excludes) && conditions == old(conditions)
      ensures ignores == old(ignores) + Patterns(ex, corrected)
    {
      var i := 0;
      while i < |ex|
        invariant i <= |ex| && Logins() == old(Logins())
        invariant listenTo == old(listenTo) && excludes == old(excludes) && conditions == old(conditions)
        invariant ignores == old(ignores) + Patterns(ex[..i], corrected)
      {
        assert ex[..i + 1][..i] == ex[..i];
        var p;
        if corrected {
          p := GlobPattern(ex[i]);
        } else {
          p := EscapeIgnore(ex[i]);
        }
        assert Patterns(ex[..i + 1], corrected) == Patterns(ex[..i], corrected) + [Pattern(ex[i], corrected)];
        ignores := ignores + [p];
        i := i + 1;
      }
      assert ex[..|ex|] == ex;
    }

    /** Lines 56-73 for one watched asset. */
    method Register(reg: Reg, corrected: bool)
      modifies this
      ensures Logins() == old(Logins())
      ensures Watching() == Apply(old(Watching()), LinkOf(), corrected, reg)
    {
      ghost var w0 := Watching();
      listenTo := listenTo + [reg.from];
      var ex := Prefixed(reg.from, reg.all);
      excludes := excludes + ex;
      AddIgnores(ex, corrected);
      conditions := conditions[reg.from := Condition(LinkOf(), reg)];
    }

    /** Lines 56-73 for several watched assets, one after the other. */
    method RegisterAll(regs: seq<Reg>, corrected: bool)
      modifies this
      ensures Logins() == old(Logins())
      ensures Watching() == Registered(old(Watching()), LinkOf(), corrected, regs)
    {
      ghost var w0 := Watching();
      ghost var link := LinkOf();
      var j := 0;
      while j < |regs|
        invariant j <= |regs| && Logins() == old(Logins()) && LinkOf() == link
        invariant Watching() == Registered(w0, link, corrected, regs[..j])
      {
        ghost var before := Watching();
        Register(regs[j], corrected);
        assert Watching() == Apply(before, link, corrected, regs[j]);
        RegisteredStep(w0, link, corrected, regs, j);
        j := j + 1;
      }
      assert regs[..|regs|] == regs;
    }

    /** The watched assets of a list of steps, in order; the first step that aborts ends the loop. */
    method RunSteps(rs: seq<Result<seq<Reg>>>, corrected: bool) returns (r: Result<bool>)
      modifies this
      ensures Logins() == old(Logins())
      ensures var want := Chain(rs, |rs|);
        (r.Ok? <==> want.Ok?) && (r.Err? ==> r.error == want.error)
        && (want.Ok? ==> Watching() == Registered(old(Watching()), LinkOf(), corrected, want.value))
    {
      ghost var done: seq<Reg> := [];
      var i := 0;
      while i < |rs|
        invariant i <= |rs| && Chain(rs, i) == Ok(done) && Logins() == old(Logins())
        invariant Watching() == Registered(old(Watching()), LinkOf(), corrected, done)
      {
        if rs[i].Err? {
          ChainStops(rs, i, done);
          return Err(rs[i].error);
        }
        ChainNext(rs, i, done);
        var regs := rs[i].value;
        RegisteredAppend(old(Watching()), LinkOf(), corrected, done, regs);
        RegisterAll(regs, corrected);
        done := done + regs;
        i := i + 1;
      }
      return Ok(true);
    }

    /** Lines 41-75: the assets of one type, in order; the first abort ends the loop. */
    method ListenAssets(root: string, typ: string, ps: seq<Pair>, files: Files, corrected: bool) returns (r: Result<bool>)
      modifies this
      ensures Logins() == old(Logins())
      ensures var want := Chain(AssetSteps(root, typ, ps, from.role == GuestRole, files), |ps|);
        (r.Ok? <==> want.Ok?) && (r.Err? ==> r.error == want.error)
        && (want.Ok? ==> Watching() == Registered(old(Watching()), LinkOf(), corrected, want.value))
    {
      r := RunSteps(AssetSteps(root, typ, ps, from.role == GuestRole, files), corrected);
    }

    /** Lines 40-41 and 54-76 for the asset type at index `k`, as one more round of the loop over the types. */
    method ListenType(root: string, setup: Value, k: nat, files: Files, corrected: bool,
                      ghost w0: Listener, ghost done: seq<Reg>)
      returns (r: Result<bool>, ghost next: seq<Reg>)
      requires k < |AssetTypes| && Chain(TypeSteps(root, setup, from.role == GuestRole, files), k) == Ok(done)
      requires Watching() == Registered(w0, LinkOf(), corrected, done)
      modifies this
      ensures Logins() == old(Logins())
      ensures r.Err? ==> Chain(TypeSteps(root, setup, from.role == GuestRole, files), |AssetTypes|) == Err(r.error)
      ensures r.Ok? ==> Chain(TypeSteps(root, setup, from.role == GuestRole, files), k + 1) == Ok(next)
                        && Watching() == Registered(w0, LinkOf(), corrected, next)
    {
      ghost var link := LinkOf();
      ghost var rs := TypeSteps(root, setup, from.role == GuestRole, files);
      var typ := AssetTypes[k];
      assert rs[k] == TypeStep(root, setup, typ, from.role == GuestRole, files);
      var has := HasKeyOf(setup, Str(typ));
      if has.Err? {
        ChainStops(rs, k, done);
        return Err(has.error), done;
      }
      if !has.value {
        ChainNext(rs, k, done);
        assert done + rs[k].value == done;
        return Ok(true), done;
      }
      var ps := EachPairs(At(setup.entries, Str(typ)));
      if ps.Err? {
        ChainStops(rs, k, done);
        return Err(ps.error), done;
      }
      r := ListenAssets(root, typ, ps.value, files, corrected);
      if r.Err? {
        ChainStops(rs, k, done);
        return r, done;
      }
      ChainNext(rs, k, done);
      RegisteredAppend(w0, link, corrected, done, rs[k].value);
      next := done + rs[k].value;
    }

    /** Lines 38-78: the plugins, then the themes, of one WordPress site. */
    method ListenWordPressSite(root: string, setup: Value, files: Files, corrected: bool) returns (r: Result<bool>)
      modifies this
      ensures Logins() == old(Logins())
      ensures var want := SiteRegs(root, setup, from.role == GuestRole, files);
        (r.Ok? <==> want.Ok?) && (r.Err? ==> r.error == want.error)
        && (want.Ok? ==> Watching() == Registered(old(Watching()), LinkOf(), corrected, want.value))
    {
      ghost var w0 := Watching();
      ghost var link := LinkOf();
      ghost var done: seq<Reg> := [];
      var k := 0;
      while k < |AssetTypes|
        invariant k <= |AssetTypes| && Chain(TypeSteps(root, setup, from.role == GuestRole, files), k) == Ok(done)
        invariant Logins() == old(Logins()) && LinkOf() == link
        invariant Watching() == Registered(w0, link, corrected, done)
      {
        var inner;
        inner, done := ListenType(root, setup, k, files, corrected, w0, done);
        if inner.Err? {
          return inner;
        }
        k := k + 1;
      }
      return Ok(true);
    }

    /** Lines 79-101: the listener lists for every project of the settings. */
    method CreateListener(settings: Value, keys: ProjectKeys, files: Files, corrected: bool) returns (r: Result<bool>)
      modifies this
      ensures Logins() == old(Logins())
      ensures var want := ListenerRegs(settings, keys, from.role == GuestRole, files);
        (r.Ok? <==> want.Ok?) && (r.Err? ==> r.error == want.error)
        && (want.Ok? ==> Watching() == Registered(old(Watching()), LinkOf(), corrected, want.value))
    {
      var projects :- Index(settings, keys.projects);
      var ps :- EachPairs(projects);
      r := RunSteps(ProjectSteps(settings, keys, ps, from.role == GuestRole, files), corrected);
    }
  }

  /**
   * A listener built from a new sync object watches the source paths of the registered assets,
   * in order; each exclusion has its ignore pattern and each watched path its rsync command.
   */
  lemma ListenerLists(settings: Value, keys: ProjectKeys, fromGuest: bool, files: Files, link: Link, corrected: bool)
    requires ListenerRegs(settings, keys, fromGuest, files).Ok?
    ensures var regs := ListenerRegs(settings, keys, fromGuest, files).value;
      var l := Registered(Listener([], [], [], map[]), link, corrected, regs);
      l.listenTo == Froms(regs) && Mirrored(l, corrected) && Commanded(l)
  {
    var regs := ListenerRegs(settings, keys, fromGuest, files).value;
    RegisteredListenTo(Listener([], [], [], map[]), link, corrected, regs);
    RegisteredKeeps(Listener([], [], [], map[]), link, corrected, regs);
  }
}
