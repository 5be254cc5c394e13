/**
 * `DOA::SSH`: path escaping for the command line of a given operating system, and the command
 * lines of `ssh`, `ssh_capture` and `scp`. Running a command is not part of this model: its exit
 * status is an input.
 */
module Ssh {
  import opened Strings
  import opened Outcome

  const Linux := "Linux"
  const Unix := "Unix"
  const Windows := "Windows"
  const Mac := "Mac"

  const OptCommon := "-o Compression=yes -o CompressionLevel=9 -o IdentitiesOnly=yes "
    + "-o StrictHostKeyChecking=no -o PasswordAuthentication=no"
  const OptScp := "-pqC " + OptCommon
  const OptSsh := OptCommon + " -o DSAAuthentication=yes"

  /** `gsub(':', '')`. */
  function RemoveColons(s: string): (r: string)
    ensures |r| <= |s|
    ensures ':' !in r
    ensures ':' !in s ==> r == s
  {
    if |s| == 0 then ""
    else (if s[0] == ':' then "" else [s[0]]) + RemoveColons(s[1..])
  }

  /**
   * `escape(os, path, trailing_backslash)`: a Windows path gets a leading '/' and loses its
   * colons; with `trailing_backslash` the result ends in a single added '/' unless it already
   * ends in one.
   */
  function Escape(os: string, path: string, trailing: bool): (r: string)
    ensures os == Windows ==> |r| > 0 && r[0] == '/' && ':' !in r
    ensures trailing ==> EndsWith(r, "/")
    ensures os != Windows && !trailing ==> r == path
    ensures os != Windows && trailing ==> r == (if EndsWith(path, "/") then path else path + "/")
    ensures os == Windows && !trailing ==> r == "/" + RemoveColons(path)
  {
    var p := if os == Windows then RemoveColons("/" + path) else path;
    assert os == Windows ==> p == "/" + RemoveColons(path) by {
      assert ("/" + path)[1..] == path;
    }
    if trailing && !EndsWith(p, "/") then
      var q := p + "/";
      assert q[|q| - 1..] == "/";
      q
    else p
  }

  /** Escaping twice with `trailing_backslash` on a non-Windows system changes nothing more. */
  lemma EscapeTrailingIdempotent(os: string, path: string)
    requires os != Windows
    ensures Escape(os, Escape(os, path, true), true) == Escape(os, path, true)
  {
  }

  /** The quote around the key: single quotes when the source system is Windows. */
  function KeyQuote(fromOs: string): (q: string)
    ensures fromOs == Windows <==> q == "'"
  {
    if fromOs == Windows then "'" else ""
  }

  /** The separator of the remote commands: ' & ' for a Windows target, ' ; ' otherwise. */
  function Separator(toOs: string): (sep: string)
    ensures toOs == Windows <==> sep == " & "
  {
    if toOs == Windows then " & " else " ; "
  }

  /** The command line `ssh` runs. */
  function SshCommand(key: string, user: string, fromOs: string, toAddress: string, toOs: string,
                      cmd: seq<string>, cmdQuotes: string): (line: string)
    ensures EndsWith(line, " " + cmdQuotes + Join(cmd, Separator(toOs)) + cmdQuotes)
    ensures StartsWith(line, "ssh -l " + user + " " + OptSsh + " -i " + KeyQuote(fromOs) + key + KeyQuote(fromOs) + " ")
    ensures var head := "ssh -l " + user + " " + OptSsh + " -i " + KeyQuote(fromOs) + key + KeyQuote(fromOs) + " ";
      |line| == |head| + |toAddress| + |" " + cmdQuotes + Join(cmd, Separator(toOs)) + cmdQuotes|
      && line[|head|..|head| + |toAddress|] == toAddress
  {
    var head := "ssh -l " + user + " " + OptSsh + " -i " + KeyQuote(fromOs) + key + KeyQuote(fromOs) + " ";
    var tail := " " + cmdQuotes + Join(cmd, Separator(toOs)) + cmdQuotes;
    var line := head + toAddress + tail;
    assert line[..|head|] == head;
    assert line[|line| - |tail|..] == tail;
    line
  }

  /** `ssh_capture` runs the same line with the commands between double quotes. */
  function SshCaptureCommand(key: string, user: string, fromOs: string, toAddress: string, toOs: string,
                             cmd: seq<string>): (line: string)
    ensures line == SshCommand(key, user, fromOs, toAddress, toOs, cmd, "\"")
  {
    "ssh -l " + user + " " + OptSsh + " -i " + KeyQuote(fromOs) + key + KeyQuote(fromOs) + " " + toAddress
      + " \"" + Join(cmd, Separator(toOs)) + "\""
  }

  /** The command line `scp` runs: the source path escaped for the source system, the target for the target. */
  function ScpCommand(key: string, fromOs: string, fromPath: string, toAddress: string, toOs: string,
                      toPath: string): (line: string)
    ensures EndsWith(line, " " + Escape(fromOs, fromPath, false) + " " + toAddress + ":" + Escape(toOs, toPath, false))
    ensures StartsWith(line, "scp " + OptScp + " -i " + KeyQuote(fromOs) + key + KeyQuote(fromOs))
    ensures |line| == |"scp " + OptScp + " -i " + KeyQuote(fromOs) + key + KeyQuote(fromOs)|
      + |" " + Escape(fromOs, fromPath, false) + " " + toAddress + ":" + Escape(toOs, toPath, false)|
  {
    var head := "scp " + OptScp + " -i " + KeyQuote(fromOs) + key + KeyQuote(fromOs);
    var tail := " " + Escape(fromOs, fromPath, false) + " " + toAddress + ":" + Escape(toOs, toPath, false);
    var line := head + tail;
    assert line[..|head|] == head;
    assert line[|line| - |tail|..] == tail;
    line
  }

  /** A non-zero exit status prints FAIL_ERROR and stops; otherwise the status (or the output) comes back. */
  function Checked<T>(exitStatus: int, out: T): (r: Result<T>)
    ensures r.Ok? <==> exitStatus == 0
    ensures r.Ok? ==> r.value == out
    ensures r.Err? ==> r.error == FailError
  {
    if exitStatus != 0 then Err(FailError) else Ok(out)
  }

  /** Two remote commands for a Windows target are joined with ' & '. */
  lemma WindowsTargetJoin(a: string, b: string)
    ensures Join([a, b], Separator(Windows)) == a + " & " + b
  {
    assert [a, b][1..] == [b];
  }

  /** Two remote commands for any other target are joined with ' ; '. */
  lemma OtherTargetJoin(toOs: string, a: string, b: string)
    requires toOs != Windows
    ensures Join([a, b], Separator(toOs)) == a + " ; " + b
  {
    assert [a, b][1..] == [b];
  }
}
