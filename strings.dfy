/** Character and string helpers with the meanings Ruby gives them in the provisioner. */
module Strings {

  predicate IsDigit(c: char) { '0' <= c <= '9' }

  predicate IsOctalDigit(c: char) { '0' <= c <= '7' }

  predicate IsAlpha(c: char) { 'a' <= c <= 'z' || 'A' <= c <= 'Z' }

  predicate IsAlnum(c: char) { IsDigit(c) || IsAlpha(c) }

  /** Ruby's `\w` on a plain string: ASCII letters, digits and the underscore. */
  predicate IsWord(c: char) { IsAlnum(c) || c == '_' }

  /** `\A\d+\z`: a non-empty run of ASCII digits. */
  predicate AllDigits(s: string) { |s| > 0 && forall i | 0 <= i < |s| :: IsDigit(s[i]) }

  /** The number spelled by a string of digits, most significant first. */
  function DigitsValue(s: string): (n: nat)
    requires forall i | 0 <= i < |s| :: IsDigit(s[i])
    ensures |s| == 0 ==> n == 0
    decreases |s|
  {
    if |s| == 0 then 0
    else
      assert IsDigit(s[|s| - 1]);
      DigitsValue(s[..|s| - 1]) * 10 + (s[|s| - 1] as int - '0' as int)
  }

  function LeadingDigitsLength(s: string): (k: nat)
    ensures k <= |s|
    ensures forall i | 0 <= i < k :: IsDigit(s[i])
    ensures k == |s| || !IsDigit(s[k])
  {
    if |s| == 0 || !IsDigit(s[0]) then 0 else 1 + LeadingDigitsLength(s[1..])
  }

  /**
   * `String#to_i` on the strings that reach it here: the value of the leading run of digits,
   * 0 when there is none. Signs and leading blanks are not interpreted.
   */
  function ToI(s: string): (n: nat)
    ensures AllDigits(s) ==> n == DigitsValue(s)
  {
    var k := LeadingDigitsLength(s);
    assert AllDigits(s) ==> k == |s| && s[..k] == s;
    DigitsValue(s[..k])
  }

  function DigitChar(d: nat): (c: char)
    requires d < 10
    ensures IsDigit(c) && c as int - '0' as int == d
  {
    ('0' as int + d) as char
  }

  function NatToString(n: nat): (s: string)
    ensures AllDigits(s)
    ensures DigitsValue(s) == n
    decreases n
  {
    if n < 10 then [DigitChar(n)]
    else
      var prefix := NatToString(n / 10);
      var s := prefix + [DigitChar(n % 10)];
      assert s[..|s| - 1] == prefix;
      s
  }

  /** `Integer#to_s`. */
  function IntToString(i: int): (s: string)
    ensures i >= 0 ==> AllDigits(s) && DigitsValue(s) == i
    ensures i < 0 ==> |s| > 1 && s[0] == '-' && AllDigits(s[1..]) && DigitsValue(s[1..]) == -i
  {
    if i >= 0 then NatToString(i) else "-" + NatToString(-i)
  }

  predicate StartsWith(s: string, prefix: string) { |prefix| <= |s| && s[..|prefix|] == prefix }

  predicate EndsWith(s: string, suffix: string) { |suffix| <= |s| && s[|s| - |suffix|..] == suffix }

  /** `a + b` starts with `a` and ends with `b`. */
  lemma Concatenated(a: string, b: string)
    ensures StartsWith(a + b, a) && EndsWith(a + b, b)
  {
    assert (a + b)[..|a|] == a;
    assert (a + b)[|a + b| - |b|..] == b;
  }

  /** `a + "/" + b` starts with `a + "/"` and ends with `"/" + b`. */
  lemma JoinedPath(a: string, b: string)
    ensures StartsWith(a + "/" + b, a + "/") && EndsWith(a + "/" + b, "/" + b)
  {
    var s := a + "/" + b;
    assert s[..|a| + 1] == a + "/";
    assert s[|s| - |b| - 1..] == "/" + b;
  }

  /** `part` occurs in `s` at some offset. */
  predicate Contains(s: string, part: string)
    decreases |s|
  {
    StartsWith(s, part) || (|s| > 0 && Contains(s[1..], part))
  }

  /** `String#index(part)` where `part` occurs: the first offset at which it does. */
  function OffsetOf(s: string, part: string): (k: nat)
    requires Contains(s, part)
    ensures k + |part| <= |s| && s[k..k + |part|] == part
    ensures forall j | 0 <= j < k :: !StartsWith(s[j..], part)
    decreases |s|
  {
    if StartsWith(s, part) then 0
    else
      var k := OffsetOf(s[1..], part);
      assert s[k + 1..k + 1 + |part|] == s[1..][k..k + |part|];
      assert forall j | 1 <= j < k + 1 :: s[j..] == s[1..][j - 1..];
      k + 1
  }

  /** `s[part] = rep` where `part` occurs: its first occurrence replaced by `rep`. */
  function ReplaceFirst(s: string, part: string, rep: string): (t: string)
    requires Contains(s, part)
    ensures |t| == |s| - |part| + |rep|
    ensures t[..OffsetOf(s, part)] == s[..OffsetOf(s, part)]
    ensures t[OffsetOf(s, part)..OffsetOf(s, part) + |rep|] == rep
    ensures t[OffsetOf(s, part) + |rep|..] == s[OffsetOf(s, part) + |part|..]
  {
    var k := OffsetOf(s, part);
    s[..k] + rep + s[k + |part|..]
  }

  /** `Array#join(sep)` on strings. */
  function Join(parts: seq<string>, sep: string): string
  {
    if |parts| == 0 then ""
    else if |parts| == 1 then parts[0]
    else parts[0] + sep + Join(parts[1..], sep)
  }

  /** `gsub(c, r)` for a one-character pattern `c`: every `c` becomes `r`. */
  function ReplaceChar(s: string, c: char, r: string): (t: string)
    ensures |r| == 1 ==> |t| == |s|
    ensures c !in s ==> t == s
  {
    if |s| == 0 then ""
    else (if s[0] == c then r else [s[0]]) + ReplaceChar(s[1..], c, r)
  }

  /** Whitespace as `String#strip` removes it (and the NUL character). */
  predicate IsSpace(c: char) { c == ' ' || c == '\t' || c == '\n' || c == '\r' || c == '\U{C}' || c == '\U{B}' || c == '\0' }

  /** `String#blank?` as overridden by the provisioner: `strip.empty?`. */
  predicate Blank(s: string) { forall i | 0 <= i < |s| :: IsSpace(s[i]) }

  /** The pieces of `s` between occurrences of the separator `sep` (all of them, empty ones included). */
  function SplitAll(s: string, sep: string): (parts: seq<string>)
    requires |sep| > 0
    ensures |parts| >= 1
    decreases |s|
  {
    if |s| < |sep| then [s]
    else if s[..|sep|] == sep then [""] + SplitAll(s[|sep|..], sep)
    else
      var rest := SplitAll(s[1..], sep);
      [[s[0]] + rest[0]] + rest[1..]
  }

  function DropTrailingEmpty(parts: seq<string>): (r: seq<string>)
    ensures |r| <= |parts| && r == parts[..|r|]
    ensures |r| == 0 || r[|r| - 1] != ""
    ensures forall i | |r| <= i < |parts| :: parts[i] == ""
  {
    if |parts| == 0 then []
    else if parts[|parts| - 1] == "" then DropTrailingEmpty(parts[..|parts| - 1])
    else parts
  }

  /** `String#split(sep)` with a string separator: trailing empty fields are dropped. */
  function Split(s: string, sep: string): seq<string>
    requires |sep| > 0
  {
    DropTrailingEmpty(SplitAll(s, sep))
  }

  lemma {:induction false} SplitAllNoSeparator(s: string, sep: string)
    requires |sep| > 0
    requires !Contains(s, sep)
    ensures SplitAll(s, sep) == [s]
    decreases |s|
  {
    if |s| >= |sep| {
      SplitAllNoSeparator(s[1..], sep);
      assert [s[0]] + s[1..] == s;
    }
  }

  /** A single key without the separator splits to itself. */
  lemma SplitSingle(s: string, sep: string)
    requires |sep| > 0 && s != ""
    requires !Contains(s, sep)
    ensures Split(s, sep) == [s]
  {
    SplitAllNoSeparator(s, sep);
  }
  /**
   * The last piece of a split is a suffix of the string; when there is more than one piece,
   * the separator stands right before it, and a single piece is the whole string.
   */
  lemma {:induction false} SplitAllLast(s: string, sep: string)
    requires |sep| > 0
    ensures LastPieceFacts(s, sep)
    decreases |s|
  {
    if |s| >= |sep| {
      if s[..|sep|] == sep {
        SplitAllLast(s[|sep|..], sep);
        LastPieceAfterSeparator(s, sep);
      } else {
        SplitAllLast(s[1..], sep);
        LastPieceAfterChar(s, sep);
      }
    }
  }

  predicate LastPieceFacts(s: string, sep: string)
    requires |sep| > 0
  {
    var ps := SplitAll(s, sep);
    var l := ps[|ps| - 1];
    EndsWith(s, l)
    && (|ps| == 1 ==> l == s)
    && (|ps| > 1 ==> |l| + |sep| <= |s| && s[|s| - |l| - |sep|..|s| - |l|] == sep)
  }

  lemma LastPieceAfterSeparator(s: string, sep: string)
    requires |sep| > 0 && |s| >= |sep| && s[..|sep|] == sep
    requires LastPieceFacts(s[|sep|..], sep)
    ensures LastPieceFacts(s, sep)
  {
    var t := s[|sep|..];
    var rs := SplitAll(t, sep);
    var l := rs[|rs| - 1];
    assert SplitAll(s, sep) == [""] + rs;
    assert s[|s| - |l|..] == t[|t| - |l|..];
    if |rs| > 1 {
      assert s[|s| - |l| - |sep|..|s| - |l|] == t[|t| - |l| - |sep|..|t| - |l|];
    } else {
      assert s[|s| - |l| - |sep|..|s| - |l|] == s[..|sep|];
    }
  }

  lemma LastPieceAfterChar(s: string, sep: string)
    requires |sep| > 0 && |s| >= |sep| && s[..|sep|] != sep
    requires LastPieceFacts(s[1..], sep)
    ensures LastPieceFacts(s, sep)
  {
    var t := s[1..];
    var rs := SplitAll(t, sep);
    var l := rs[|rs| - 1];
    assert SplitAll(s, sep) == [[s[0]] + rs[0]] + rs[1..];
    if |rs| > 1 {
      assert s[|s| - |l|..] == t[|t| - |l|..];
      assert s[|s| - |l| - |sep|..|s| - |l|] == t[|t| - |l| - |sep|..|t| - |l|];
    } else {
      assert [s[0]] + t == s;
    }
  }
}
