/** The command-line launcher: the mode word, the `--configuration` option,
    the arguments handed on to the server process, and the choice of server
    script. The argument list is `process.argv` without the interpreter and the
    launcher's own path. */
module Cli {
  import opened Wrappers
  import opened Strings

  const ConfigurationFlag := "--configuration"
  const DefaultMode := "local"

  /** The exit status for a mode the launcher does not know. */
  const InvalidModeExit := 1

  function Min(a: int, b: int): int
  {
    if a <= b then a else b
  }

  /** `args[0] || 'local'`: the first argument unless it is absent or empty. */
  function Mode(args: seq<string>): (mode: string)
    ensures mode == DefaultMode <==> |args| == 0 || args[0] == "" || args[0] == DefaultMode
    ensures mode != DefaultMode ==> |args| > 0 && mode == args[0]
  {
    if |args| > 0 && args[0] != "" then args[0] else DefaultMode
  }

  /** `args.indexOf(x)`: the first position holding `x`, or -1. */
  function IndexOf(args: seq<string>, x: string): (i: int)
    ensures -1 <= i < |args|
    ensures i == -1 <==> x !in args
    ensures i >= 0 ==> args[i] == x && x !in args[..i]
  {
    if |args| == 0 then -1
    else if args[0] == x then 0
    else
      var j := IndexOf(args[1..], x);
      assert x in args ==> x in args[1..] by {
        if x in args {
          var k :| 0 <= k < |args| && args[k] == x;
          assert k > 0 && args[1..][k - 1] == x;
        }
      }
      if j == -1 then -1
      else
        assert args[..j + 1] == [args[0]] + args[1..][..j];
        j + 1
  }

  /** The argument after the first `--configuration`, or `null` when the flag
      is absent or is the last argument. */
  function ConfigPath(args: seq<string>): (p: Option<string>)
    ensures p.Some? <==> exists i :: 0 <= i < |args| - 1 && args[i] == ConfigurationFlag && ConfigurationFlag !in args[..i]
    ensures forall i :: 0 <= i < |args| && args[i] == ConfigurationFlag && ConfigurationFlag !in args[..i] ==>
      p == if i + 1 < |args| then Some(args[i + 1]) else None
  {
    var ci := IndexOf(args, ConfigurationFlag);
    FirstIsUnique(args, ConfigurationFlag, ci);
    if ci != -1 && ci + 1 < |args| then Some(args[ci + 1]) else None
  }

  /** Only one position can hold the first occurrence of `x`. */
  lemma FirstIsUnique(args: seq<string>, x: string, ci: int)
    requires ci == IndexOf(args, x)
    ensures forall i :: 0 <= i < |args| && args[i] == x && x !in args[..i] ==> i == ci
  {
    forall i | 0 <= i < |args| && args[i] == x && x !in args[..i]
      ensures i == ci
    {
      assert ci != -1 by {
        assert x in args;
      }
    }
  }

  /** `process.env.FIELD_CONFIG_PATH` after the launcher ran: set to the
      configuration path when that is a non-empty string, untouched otherwise. */
  function FieldConfigPath(args: seq<string>, inherited: Option<string>): (r: Option<string>)
    ensures forall i :: 0 <= i < |args| - 1 && args[i] == ConfigurationFlag && ConfigurationFlag !in args[..i] ==>
      r == if args[i + 1] != "" then Some(args[i + 1]) else inherited
    ensures |args| == 0 || ConfigurationFlag !in args[..|args| - 1] ==> r == inherited
  {
    var p := ConfigPath(args);
    assert p.Some? ==> ConfigurationFlag in args[..|args| - 1] by {
      if p.Some? {
        var i :| 0 <= i < |args| - 1 && args[i] == ConfigurationFlag && ConfigurationFlag !in args[..i];
        assert args[..|args| - 1][i] == ConfigurationFlag;
      }
    }
    if TruthyString(p) then p else inherited
  }

  /** `argsWithoutMode.filter((_, index) => index !== configIndex - 1 && index !== configIndex)`,
      from position `j` on. */
  function KeepIndices(rest: seq<string>, ci: int, j: nat): seq<string>
    requires j <= |rest|
    decreases |rest| - j
  {
    if j == |rest| then []
    else (if j == ci - 1 || j == ci then [] else [rest[j]]) + KeepIndices(rest, ci, j + 1)
  }

  /** Between `j` and `k` nothing is dropped, so that stretch is kept as it is. */
  lemma {:induction false} KeepStretch(rest: seq<string>, ci: int, j: nat, k: nat)
    requires j <= k <= |rest|
    requires ci < j || ci - 1 >= k
    ensures KeepIndices(rest, ci, j) == rest[j..k] + KeepIndices(rest, ci, k)
    decreases k - j
  {
    if j < k {
      KeepStretch(rest, ci, j + 1, k);
      assert rest[j..k] == [rest[j]] + rest[j + 1..k];
    }
  }

  /** After both dropped positions the rest is kept. */
  lemma KeepTail(rest: seq<string>, ci: int, j: nat)
    requires j <= |rest| && ci < j
    ensures KeepIndices(rest, ci, j) == rest[j..]
  {
    KeepStretch(rest, ci, j, |rest|);
  }

  /** The arguments handed to the server: everything after the mode word,
      without the `--configuration` flag and the argument after it. The filter
      positions count from the mode word's removal, so a flag in the mode
      position removes only the argument after it. */
  function ChildArgs(args: seq<string>): (r: seq<string>)
    ensures |args| == 0 ==> r == []
    ensures |args| > 0 && ConfigurationFlag !in args ==> r == args[1..]
    ensures forall i :: 1 <= i < |args| && args[i] == ConfigurationFlag && ConfigurationFlag !in args[..i] ==>
      r == args[1..i] + args[Min(i + 2, |args|)..]
    ensures |args| > 0 && args[0] == ConfigurationFlag ==> r == args[Min(2, |args|)..]
  {
    if |args| == 0 then []
    else
      var rest := args[1..];
      var ci := IndexOf(args, ConfigurationFlag);
      FirstIsUnique(args, ConfigurationFlag, ci);
      ChildArgsShape(rest, ci);
      KeepIndices(rest, ci, 0)
  }

  /** The filter keeps everything when the flag is absent, drops the flag and
      its value when the flag is at `ci` >= 1 of the full list, and drops one
      argument when it is in the mode position. */
  lemma ChildArgsShape(rest: seq<string>, ci: int)
    requires -1 <= ci <= |rest|
    ensures ci == -1 ==> KeepIndices(rest, ci, 0) == rest
    ensures ci == 0 ==> KeepIndices(rest, ci, 0) == rest[Min(1, |rest|)..]
    ensures ci >= 1 ==> KeepIndices(rest, ci, 0) == rest[..ci - 1] + rest[Min(ci + 1, |rest|)..]
  {
    if ci == -1 {
      KeepTail(rest, ci, 0);
    } else if ci == 0 {
      if |rest| > 0 {
        KeepTail(rest, ci, 1);
      }
    } else {
      DropFlagAndValue(rest, ci);
    }
  }

  /** The flag at position `ci - 1` of the list without the mode word, and the
      value after it, are the two arguments dropped. */
  lemma DropFlagAndValue(rest: seq<string>, ci: int)
    requires 1 <= ci <= |rest|
    ensures KeepIndices(rest, ci, 0) == rest[..ci - 1] + rest[Min(ci + 1, |rest|)..]
  {
    KeepStretch(rest, ci, 0, ci - 1);
    assert rest[0..ci - 1] == rest[..ci - 1];
    assert KeepIndices(rest, ci, ci - 1) == KeepIndices(rest, ci, ci);
    if ci < |rest| {
      assert KeepIndices(rest, ci, ci) == KeepIndices(rest, ci, ci + 1);
      KeepTail(rest, ci, ci + 1);
    } else {
      assert rest[Min(ci + 1, |rest|)..] == [];
    }
  }

  /** What the launcher does once the arguments are read. */
  datatype Launch =
    | Spawn(script: string, childArgs: seq<string>)  // `node <dir>/script ...childArgs`
    | Exit(status: int)

  /** The server script each mode starts. */
  function ScriptFor(mode: string): Option<string>
  {
    if mode == "http" then Some("index-http.js")
    else if mode == "sse" then Some("index-sse-http.js")
    else if mode == "local" then Some("index.js")
    else None
  }

  /** The whole launcher run. */
  datatype Invocation = Invocation(mode: string, configPath: Option<string>, fieldConfigPath: Option<string>, launch: Launch)

  function Launcher(args: seq<string>, inheritedConfig: Option<string>): (r: Invocation)
    ensures r.launch.Exit? <==> r.mode !in {"http", "sse", "local"}
    ensures r.launch.Exit? ==> r.launch.status == InvalidModeExit
    ensures r.launch.Spawn? ==> r.launch.childArgs == ChildArgs(args)
    ensures r.mode == "http" ==> r.launch.script == "index-http.js"
    ensures r.mode == "sse" ==> r.launch.script == "index-sse-http.js"
    ensures r.mode == "local" ==> r.launch.script == "index.js"
  {
    var mode := Mode(args);
    var child := ChildArgs(args);
    var launch := match ScriptFor(mode)
      case Some(script) => Spawn(script, child)
      case None => Exit(InvalidModeExit);
    Invocation(mode, ConfigPath(args), FieldConfigPath(args, inheritedConfig), launch)
  }

  /** The mode word is never handed on. */
  lemma ChildArgsShorter(args: seq<string>)
    ensures |args| > 0 ==> |ChildArgs(args)| < |args|
  {
    if |args| > 0 {
      var ci := IndexOf(args, ConfigurationFlag);
      ChildArgsShape(args[1..], ci);
    }
  }

  /** The documented usage `node cli.js <mode> [args] --configuration <path>`
      reads back the mode, the path and the other arguments, for every valid
      mode and every path, when the other arguments do not repeat the flag. */
  lemma UsageRoundTrip(mode: string, others: seq<string>, path: string, inherited: Option<string>)
    requires mode in {"http", "sse", "local"}
    requires ConfigurationFlag !in others
    ensures var r := Launcher([mode] + others + [ConfigurationFlag, path], inherited);
      && r.mode == mode
      && r.configPath == Some(path)
      && r.fieldConfigPath == (if path == "" then inherited else Some(path))
      && r.launch.Spawn? && r.launch.childArgs == others
  {
    var args := [mode] + others + [ConfigurationFlag, path];
    var i := |others| + 1;
    assert args[i] == ConfigurationFlag && args[i + 1] == path;
    assert args[..i] == [mode] + others;
    assert ConfigurationFlag !in args[..i];
    assert args[1..i] == others;
    assert args[Min(i + 2, |args|)..] == [];
  }

  /** A repeated flag: only the first one and its value are taken out, the
      second reaches the server. */
  lemma SecondFlagPassedOn(mode: string, p: string, q: string)
    requires mode != ConfigurationFlag && p != ConfigurationFlag
    ensures var args := [mode, ConfigurationFlag, p, ConfigurationFlag, q];
      ConfigPath(args) == Some(p) && ChildArgs(args) == [ConfigurationFlag, q]
  {
    var args := [mode, ConfigurationFlag, p, ConfigurationFlag, q];
    assert args[1] == ConfigurationFlag && ConfigurationFlag !in args[..1];
    assert args[3..] == [ConfigurationFlag, q];
  }

  /** `--configuration` in the mode position is an unknown mode, yet its value
      is still exported as the configuration path. */
  lemma FlagAsMode(path: string, more: seq<string>, inherited: Option<string>)
    requires path != ""
    ensures var r := Launcher([ConfigurationFlag, path] + more, inherited);
      r.launch == Exit(InvalidModeExit) && r.fieldConfigPath == Some(path)
  {
    var args := [ConfigurationFlag, path] + more;
    assert args[0] == ConfigurationFlag && ConfigurationFlag !in args[..0];
  }
}
