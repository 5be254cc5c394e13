/**
 * The regular expressions of the tools library (RGX_LEVEL, RGX_CHMOD, RGX_INTEGER,
 * RGX_LINUX_PKG_NAME, the Unix path patterns, RGX_IPV4, RGX_IPV4_PORT, RGX_PORT and the
 * semantic-version patterns) written out as recognisers of the strings they match in full.
 * The semantic-version patterns follow Semantic Versioning 2.0.0, items 2, 9 and 10
 * (MAJOR.MINOR.PATCH, pre-release, build metadata), except that leading zeros are accepted.
 */
module Patterns {
  import opened Strings
  import opened Values

  /** The first position of `c` in `s`. */
  function IndexOf(s: string, c: char): (r: Option<nat>)
    ensures r.Some? ==> r.value < |s| && s[r.value] == c && c !in s[..r.value]
    ensures r.None? ==> c !in s
  {
    if |s| == 0 then None
    else if s[0] == c then Some(0)
    else match IndexOf(s[1..], c)
      case None => None
      case Some(j) => assert s[..j + 1] == [s[0]] + s[1..][..j]; Some(j + 1)
  }

  predicate IsOneOrTwo(c: char) { c == '1' || c == '2' }

  /** RGX_LEVEL, `\A[12](:[12])*\z`. */
  predicate Level(s: string)
  {
    |s| > 0 && IsOneOrTwo(s[0]) && LevelTail(s[1..])
  }

  predicate LevelTail(t: string)
    decreases |t|
  {
    |t| == 0 || (|t| >= 2 && t[0] == ':' && IsOneOrTwo(t[1]) && LevelTail(t[2..]))
  }

  /** RGX_CHMOD, `\A0[0-7]{3}\z`. */
  predicate Chmod(s: string)
  {
    |s| == 4 && s[0] == '0' && IsOctalDigit(s[1]) && IsOctalDigit(s[2]) && IsOctalDigit(s[3])
  }

  predicate PackageChar(c: char) { c == '.' || c == '+' || c == '@' || c == '-' || IsWord(c) }

  /** RGX_LINUX_PKG_NAME, `\A[a-zA-Z0-9][.+@\-\w]+\z`. */
  predicate LinuxPackageName(s: string)
  {
    |s| >= 2 && IsAlnum(s[0]) && forall i | 1 <= i < |s| :: PackageChar(s[i])
  }

  /** `[.\w-]`, a character of a path segment. */
  predicate PathChar(c: char) { c == '.' || c == '-' || IsWord(c) }

  /** RGX_UNIX_ABSPATH, `\A(?:\/[.\w-]+)+\z`: states 0 (need '/'), 1 (need a segment character), 2 (inside a segment, accepting). */
  predicate AbsPathFrom(s: string, q: nat)
    decreases |s|
  {
    if |s| == 0 then q == 2
    else if q == 0 then s[0] == '/' && AbsPathFrom(s[1..], 1)
    else if q == 1 then PathChar(s[0]) && AbsPathFrom(s[1..], 2)
    else (PathChar(s[0]) && AbsPathFrom(s[1..], 2)) || (s[0] == '/' && AbsPathFrom(s[1..], 1))
  }

  predicate UnixAbsPath(s: string) { AbsPathFrom(s, 0) }

  /** RGX_UNIX_RELPATH, `\A(?:[.\w-]+\/?)+\z`: states 0 (start), 2 (inside a segment), 3 (just after a '/'); 2 and 3 accept. */
  predicate RelPathFrom(s: string, q: nat)
    decreases |s|
  {
    if |s| == 0 then q == 2 || q == 3
    else if q == 0 || q == 3 then PathChar(s[0]) && RelPathFrom(s[1..], 2)
    else (PathChar(s[0]) && RelPathFrom(s[1..], 2)) || (s[0] == '/' && RelPathFrom(s[1..], 3))
  }

  predicate UnixRelPath(s: string) { RelPathFrom(s, 0) }

  /**
   * RGX_UNIX_PATH, `\A(?:\/?[.\w-]+\/?)+\z`: states 0 (start), 1 (after a leading '/', need a
   * segment character), 2 (inside a segment), 3 (after a trailing '/'); 2 and 3 accept.
   */
  predicate PathFrom(s: string, q: nat)
    decreases |s|
  {
    if |s| == 0 then q == 2 || q == 3
    else if q == 0 then (s[0] == '/' && PathFrom(s[1..], 1)) || (PathChar(s[0]) && PathFrom(s[1..], 2))
    else if q == 1 then PathChar(s[0]) && PathFrom(s[1..], 2)
    else if q == 2 then (PathChar(s[0]) && PathFrom(s[1..], 2)) || (s[0] == '/' && PathFrom(s[1..], 3))
    else (PathChar(s[0]) && PathFrom(s[1..], 2)) || (s[0] == '/' && PathFrom(s[1..], 1))
  }

  predicate UnixPath(s: string) { PathFrom(s, 0) }

  /** One octet of RGX_IPV4: `25[0-5]|(2[0-4]|1{0,1}[0-9]){0,1}[0-9]`, alternative by alternative. */
  predicate Octet(t: string)
  {
    (|t| == 3 && t[0] == '2' && t[1] == '5' && '0' <= t[2] <= '5')
    || (|t| == 1 && IsDigit(t[0]))
    || (|t| == 2 && IsDigit(t[0]) && IsDigit(t[1]))
    || (|t| == 3 && t[0] == '1' && IsDigit(t[1]) && IsDigit(t[2]))
    || (|t| == 3 && t[0] == '2' && '0' <= t[1] <= '4' && IsDigit(t[2]))
  }

  /** RGX_IPV4: four octets joined by dots. */
  predicate Ipv4(s: string)
  {
    var parts := SplitAll(s, ".");
    |parts| == 4 && Octet(parts[0]) && Octet(parts[1]) && Octet(parts[2]) && Octet(parts[3])
  }

  /** An octet is one to three digits, and a three-digit octet is a number from 100 to 255. */
  lemma OctetIsByte(t: string)
    ensures Octet(t) <==> AllDigits(t) && |t| <= 3 && (|t| < 3 || (t[0] != '0' && DigitsValue(t) <= 255))
  {
    if |t| == 3 && AllDigits(t) {
      var d0, d1, d2 := t[0] as int - '0' as int, t[1] as int - '0' as int, t[2] as int - '0' as int;
      assert t[..2][..1] == t[..1];
      assert DigitsValue(t[..1]) == d0 by { assert t[..1][..0] == []; }
      assert DigitsValue(t[..2]) == d0 * 10 + d1;
      assert DigitsValue(t) == d0 * 100 + d1 * 10 + d2;
    }
  }

  /** So the capture check of valid_ipv4? (every captured number below 256) can never fail. */
  lemma OctetBelow256(t: string)
    requires Octet(t)
    ensures AllDigits(t) && DigitsValue(t) < 256
  {
    OctetIsByte(t);
    if |t| == 1 {
      assert t[..0] == [];
    } else if |t| == 2 {
      assert t[..1][..0] == [];
    }
  }

  /**
   * The port alternative inside RGX_IPV4_PORT (and RGX_PORT) as written:
   * `6553[0-5]|654[0-9]{2}|65[0-4][0-9]{3}|6[0-4][0-9]{3}|[0-5]?[0-9]{1,4}`.
   */
  predicate PortTokenAsWritten(t: string)
  {
    (|t| == 5 && t[..4] == "6553" && '0' <= t[4] <= '5')
    || (|t| == 5 && t[..3] == "654" && IsDigit(t[3]) && IsDigit(t[4]))
    || (|t| == 6 && t[..2] == "65" && '0' <= t[2] <= '4' && IsDigit(t[3]) && IsDigit(t[4]) && IsDigit(t[5]))
    || (|t| == 5 && t[0] == '6' && '0' <= t[1] <= '4' && IsDigit(t[2]) && IsDigit(t[3]) && IsDigit(t[4]))
    || (1 <= |t| <= 4 && AllDigits(t))
    || (|t| == 5 && '0' <= t[0] <= '5' && AllDigits(t))
  }

  /** The port token the pattern evidently means: at most five digits naming a number up to 65535. */
  predicate PortToken(t: string)
  {
    AllDigits(t) && |t| <= 5 && DigitsValue(t) <= 65535
  }

  /** RGX_IPV4_PORT with a given port token: an IPv4 address, optionally followed by ':' and a port. */
  predicate Ipv4PortWith(s: string, corrected: bool)
  {
    var parts := SplitAll(s, ":");
    (|parts| == 1 && Ipv4(parts[0]))
    || (|parts| == 2 && Ipv4(parts[0]) && (if corrected then PortToken(parts[1]) else PortTokenAsWritten(parts[1])))
  }

  predicate Ipv4PortAsWritten(s: string) { Ipv4PortWith(s, false) }

  predicate Ipv4Port(s: string) { Ipv4PortWith(s, true) }

  /** The written port alternative rejects 65000 and accepts the six-digit 650000. */
  lemma PortTokenAsWrittenMisses()
    ensures !PortTokenAsWritten("65000") && PortToken("65000")
    ensures PortTokenAsWritten("650000") && !PortToken("650000")
  {
    var t := "65000";
    assert t[..4][3] != "6553"[3];
    assert t[..3][2] != "654"[2];
    assert DigitsValue("65000") == 65000 by {
      assert "65000"[..4] == "6500";
      assert "6500"[..3] == "650";
      assert "650"[..2] == "65";
      assert "65"[..1] == "6";
      assert "6"[..0] == "";
    }
    assert "650000"[..2] == "65";
  }

  lemma {:induction false} NatToStringLength(n: nat)
    ensures n < 100000 ==> |NatToString(n)| <= 5
    ensures n < 10 ==> |NatToString(n)| == 1
    decreases n
  {
    if n >= 10 {
      NatToStringLength(n / 10);
      if n < 100000 {
        assert n / 10 < 10000;
        NatToStringLength4(n / 10);
      }
    }
  }

  lemma {:induction false} NatToStringLength4(n: nat)
    requires n < 10000
    ensures |NatToString(n)| <= 4
    decreases n
  {
    if n >= 10 {
      NatToStringLength3(n / 10);
    }
  }

  lemma {:induction false} NatToStringLength3(n: nat)
    requires n < 1000
    ensures |NatToString(n)| <= 3
    decreases n
  {
    if n >= 10 {
      NatToStringLength2(n / 10);
    }
  }

  lemma {:induction false} NatToStringLength2(n: nat)
    requires n < 100
    ensures |NatToString(n)| <= 2
    decreases n
  {
    if n >= 10 {
      assert n / 10 < 10;
    }
  }

  /** Every port number 0..65535, written in decimal, is a port token. */
  lemma PortTokenComplete(n: nat)
    requires n <= 65535
    ensures PortToken(NatToString(n))
  {
    NatToStringLength(n);
  }

  predicate IdentChar(c: char) { IsAlnum(c) || c == '-' }

  predicate Identifier(p: string) { |p| > 0 && forall i | 0 <= i < |p| :: IdentChar(p[i]) }

  /** Dot-separated identifiers, `[0-9A-Za-z-]+(?:\.[0-9A-Za-z-]+)*`. */
  predicate Identifiers(t: string)
  {
    var parts := SplitAll(t, ".");
    forall i | 0 <= i < |parts| :: Identifier(parts[i])
  }

  /** `\d+\.\d+\.\d+`. */
  predicate VersionCore(c: string)
  {
    var parts := SplitAll(c, ".");
    |parts| == 3 && AllDigits(parts[0]) && AllDigits(parts[1]) && AllDigits(parts[2])
  }

  /** A version core optionally followed by '-' and pre-release identifiers. */
  predicate CoreAndPreRelease(left: string)
  {
    match IndexOf(left, '-')
      case None => VersionCore(left)
      case Some(i) => VersionCore(left[..i]) && Identifiers(left[i + 1..])
  }

  /** RGX_SEMVER_VERSION: core, optional pre-release, optional '+' build metadata. */
  predicate SemverVersion(s: string)
  {
    match IndexOf(s, '+')
      case None => CoreAndPreRelease(s)
      case Some(i) => CoreAndPreRelease(s[..i]) && Identifiers(s[i + 1..])
  }

  predicate IsX(t: string) { t == "x" || t == "X" }

  /** RGX_SEMVER_BRANCH, `\A(\d+\.[xX]|\d+\.\d+\.[xX])\z`. */
  predicate SemverBranch(s: string)
  {
    var parts := SplitAll(s, ".");
    (|parts| == 2 && AllDigits(parts[0]) && IsX(parts[1]))
    || (|parts| == 3 && AllDigits(parts[0]) && AllDigits(parts[1]) && IsX(parts[2]))
  }

  /**
   * RGX_SEMVER as written: the empty string, a version that carries build metadata, a bare
   * core, or a branch. A version with a pre-release but no build metadata is not matched.
   */
  predicate SemverAsWritten(s: string)
  {
    s == "" || (SemverVersion(s) && '+' in s) || VersionCore(s) || SemverBranch(s)
  }

  /** RGX_SEMVER as evidently meant: build metadata optional after a pre-release. */
  predicate Semver(s: string)
  {
    s == "" || SemverVersion(s) || SemverBranch(s)
  }

  lemma VersionCoreIsSemverVersion(s: string)
    requires VersionCore(s)
    ensures SemverVersion(s)
  {
    var parts := SplitAll(s, ".");
    assert '+' !in s && '-' !in s by { CoreSymbols(s); }
  }

  lemma CoreSymbols(s: string)
    requires VersionCore(s)
    ensures '+' !in s && '-' !in s
  {
    var parts := SplitAll(s, ".");
    JoinOfSplit(s, '.');
    assert forall i | 0 <= i < |parts| :: '+' !in parts[i] && '-' !in parts[i];
    NoCharInJoin(parts, '.', '+');
    NoCharInJoin(parts, '.', '-');
  }

  /** Splitting on a one-character separator and joining back gives the string again. */
  lemma {:induction false} JoinOfSplit(s: string, c: char)
    ensures Join(SplitAll(s, [c]), [c]) == s
    decreases |s|
  {
    if |s| >= 1 {
      JoinOfSplit(s[1..], c);
      var rest := SplitAll(s[1..], [c]);
      if s[..1] == [c] {
        assert SplitAll(s, [c]) == [""] + rest;
        assert s == [c] + s[1..];
      } else {
        assert SplitAll(s, [c]) == [[s[0]] + rest[0]] + rest[1..];
        if |rest| == 1 {
          assert s == [s[0]] + s[1..];
        } else {
          assert Join(rest, [c]) == rest[0] + [c] + Join(rest[1..], [c]);
          assert s == [s[0]] + s[1..];
        }
      }
    }
  }

  lemma {:induction false} NoCharInJoin(parts: seq<string>, sep: char, d: char)
    requires sep != d
    requires forall i | 0 <= i < |parts| :: d !in parts[i]
    ensures d !in Join(parts, [sep])
    decreases |parts|
  {
    if |parts| > 1 {
      NoCharInJoin(parts[1..], sep, d);
    }
  }

  /** A string without the separator character is a single piece. */
  lemma {:induction false} SplitAllWithout(s: string, c: char)
    requires c !in s
    ensures SplitAll(s, [c]) == [s]
    decreases |s|
  {
    if |s| >= 1 {
      assert s[..1] != [c] by { assert s[..1][0] == s[0]; }
      SplitAllWithout(s[1..], c);
      assert [s[0]] + s[1..] == s;
    }
  }

  /** Splitting at the first occurrence of the separator character. */
  lemma {:induction false} SplitAllAt(s: string, c: char, i: nat)
    requires i < |s| && s[i] == c && c !in s[..i]
    ensures SplitAll(s, [c]) == [s[..i]] + SplitAll(s[i + 1..], [c])
    decreases i
  {
    if i == 0 {
      assert s[..1] == [c];
    } else {
      assert s[..1] != [c] by { assert s[..1][0] == s[0] == s[..i][0]; }
      assert s[1..][..i - 1] == s[..i][1..];
      SplitAllAt(s[1..], c, i - 1);
      assert s[1..][i..] == s[i + 1..];
      assert [s[0]] + s[1..][..i - 1] == s[..i];
    }
  }

  /** The first piece ends at the first separator. */
  lemma SplitAllJoin(head: string, c: char, tail: string)
    requires c !in head
    ensures SplitAll(head + [c] + tail, [c]) == [head] + SplitAll(tail, [c])
  {
    var s := head + [c] + tail;
    assert s[..|head|] == head;
    assert s[|head| + 1..] == tail;
    SplitAllAt(s, c, |head|);
  }

  lemma SplitCore()
    ensures SplitAll("1.2.3", ".") == ["1", "2", "3"]
  {
    SplitAllWithout("3", '.');
    SplitAllJoin("2", '.', "3");
    assert "2" + ['.'] + "3" == "2.3";
    SplitAllJoin("1", '.', "2.3");
    assert "1" + ['.'] + "2.3" == "1.2.3";
  }

  lemma SplitPreReleaseTail()
    ensures SplitAll("2.3-rc", ".") == ["2", "3-rc"]
  {
    SplitAllWithout("3-rc", '.');
    SplitAllJoin("2", '.', "3-rc");
    assert "2" + ['.'] + "3-rc" == "2.3-rc";
  }

  lemma SplitPreRelease()
    ensures SplitAll("1.2.3-rc", ".") == ["1", "2", "3-rc"]
  {
    var tail := "2.3-rc";
    SplitPreReleaseTail();
    SplitAllJoin("1", '.', tail);
    assert "1" + ['.'] + tail == "1.2.3-rc" by {
      assert "1" + ['.'] + tail == ['1', '.'] + tail;
    }
    assert ["1"] + ["2", "3-rc"] == ["1", "2", "3-rc"];
  }

  lemma {:induction false} IndexOfAt(s: string, c: char, i: nat)
    requires i < |s| && s[i] == c && c !in s[..i]
    ensures IndexOf(s, c) == Some(i)
    decreases i
  {
    if i > 0 {
      assert s[0] == s[..i][0];
      assert s[1..][..i - 1] == s[..i][1..];
      IndexOfAt(s[1..], c, i - 1);
    }
  }

  lemma PreReleaseParts()
    ensures IndexOf("1.2.3-rc", '+').None?
    ensures IndexOf("1.2.3-rc", '-') == Some(5)
  {
    var s := "1.2.3-rc";
    assert '+' !in s;
    assert s[..5] == "1.2.3" && '-' !in s[..5];
    IndexOfAt(s, '-', 5);
  }

  /** A core, '-' at its first occurrence, and identifiers. */
  lemma CoreAndPreReleaseAt(s: string, i: nat)
    requires i < |s| && IndexOf(s, '-') == Some(i)
    requires VersionCore(s[..i]) && Identifiers(s[i + 1..])
    ensures CoreAndPreRelease(s)
  {
  }

  lemma PreReleaseCore(s: string)
    requires s == "1.2.3-rc"
    ensures CoreAndPreRelease(s)
  {
    PreReleaseParts();
    CoreIsVersionCore();
    RcIsIdentifiers();
    assert s[..5] == "1.2.3";
    assert s[6..] == "rc";
    CoreAndPreReleaseAt(s, 5);
  }

  lemma CoreIsVersionCore()
    ensures VersionCore("1.2.3")
  {
    SplitCore();
  }

  lemma RcIsIdentifiers()
    ensures Identifiers("rc")
  {
    SplitAllWithout("rc", '.');
  }

  lemma PreReleaseIsVersion(s: string)
    requires s == "1.2.3-rc"
    ensures SemverVersion(s)
  {
    PreReleaseParts();
    PreReleaseCore(s);
  }

  /** A version with a pre-release and no build metadata is a semantic version that RGX_SEMVER does not match. */
  lemma SemverAsWrittenMissesPreRelease(s: string)
    requires s == "1.2.3-rc"
    ensures SemverVersion(s) && Semver(s)
    ensures !SemverAsWritten(s)
  {
    PreReleaseIsVersion(s);
    assert '+' !in s;
    PreReleaseNotCoreNorBranch(s);
  }

  /** Its third dot-separated part, '3-rc', is neither digits nor a wildcard. */
  lemma PreReleaseNotCoreNorBranch(s: string)
    requires s == "1.2.3-rc"
    ensures !VersionCore(s) && !SemverBranch(s)
  {
    SplitPreRelease();
    var last := "3-rc";
    assert !AllDigits(last) by { assert !IsDigit(last[1]); }
    assert !IsX(last);
  }

  /** '.' followed by 'x' or 'X' at the head of `s`. */
  predicate XSuffixAt(s: string) { |s| >= 2 && s[0] == '.' && (s[1] == 'x' || s[1] == 'X') }

  /** `gsub(/\.[xX]/, '')`. */
  function DropX(s: string): (r: string)
    ensures |r| <= |s|
    decreases |s|
  {
    if |s| == 0 then ""
    else if XSuffixAt(s) then DropX(s[2..])
    else [s[0]] + DropX(s[1..])
  }

  /** `gsub('X', 'x')`. */
  function LowerX(s: string): (r: string)
    ensures |r| == |s|
  {
    ReplaceChar(s, 'X', "x")
  }

  /**
   * The capture of RGX_SEMVER_MINOR, `\A(\d+\.\d+)(?:\..*)\z`: the leading MAJOR.MINOR, when a
   * third dot-separated part follows and the rest holds no line break.
   */
  function SemverMinor(s: string): (r: Option<string>)
    ensures r.Some? ==> |r.value| < |s| && r.value == s[..|r.value|] && s[|r.value|] == '.' && '.' in r.value
  {
    match IndexOf(s, '.')
      case None => None
      case Some(i) =>
        match IndexOf(s[i + 1..], '.')
          case None => None
          case Some(j) =>
            var k := i + 1 + j;
            if AllDigits(s[..i]) && AllDigits(s[i + 1..k]) && '\n' !in s[k + 1..]
            then assert s[k] == s[i + 1..][j] && s[..k][i] == '.'; Some(s[..k])
            else None
  }

  /** A non-empty first piece of a split starts where the text starts. */
  lemma SplitAllFirstChar(s: string, c: char)
    requires |s| > 0 && s[0] != c
    ensures |SplitAll(s, [c])[0]| > 0 && SplitAll(s, [c])[0][0] == s[0]
  {
  }

  /** RGX_SEMVER_VERSION anchors a digit first: a version written with a leading letter ('v0.29.0') never matches. */
  lemma SemverStartsWithDigit(s: string)
    requires |s| > 0 && !IsDigit(s[0])
    ensures !SemverVersion(s)
  {
    if SemverVersion(s) {
      var left := match IndexOf(s, '+') case None => s case Some(i) => s[..i];
      assert CoreAndPreRelease(left);
      var core := match IndexOf(left, '-') case None => left case Some(i) => left[..i];
      assert VersionCore(core);
      var first := SplitAll(core, ".")[0];
      assert AllDigits(first);
      if |core| > 0 && core[0] != '.' {
        assert core[0] == s[0];
        SplitAllFirstChar(core, '.');
      }
    }
  }
}
