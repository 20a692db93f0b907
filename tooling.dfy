/**
 * Driving adb, fastboot and heimdall. Every operation is a generator in the
 * source: it yields the echoed command, the stripped output lines of each
 * tool run and a boolean per run saying whether the tool exited with 0.
 * Here an operation returns that stream together with the tool invocations
 * it issued. The device and the host tools are an oracle `Env.device` that
 * answers one invocation, given those issued before it.
 */
module Tooling {
  import opened Wrappers
  import opened PyStr

  /** One element yielded by an operation: an output line or a run's verdict. */
  datatype Item = Line(text: string) | Done(ok: bool)

  type Argv = seq<string>

  /**
   * One tool process: the executable and the text of its arguments. The
   * process receives the argument vector `[path] + Words(args)`.
   */
  datatype Invocation = Invocation(path: string, args: string)

  /** What one tool process prints (stdout and stderr merged) and its exit status. */
  datatype ToolRun = ToolRun(output: seq<string>, exitCode: int)

  type Device = (seq<Invocation>, Invocation) -> ToolRun

  /** `bin_path`, `sys.platform` and the answers of the attached device. */
  datatype Env = Env(binPath: string, platform: string, device: Device)

  /** What an operation yielded and the invocations it issued, in order. */
  datatype Trace = Trace(items: seq<Item>, issued: seq<Invocation>)

  const Empty: Trace := Trace([], [])

  function Then(a: Trace, b: Trace): Trace
  {
    Trace(a.items + b.items, a.issued + b.issued)
  }

  lemma ThenAssoc(a: Trace, b: Trace, c: Trace)
    ensures Then(Then(a, b), c) == Then(a, Then(b, c))
  {
    assert (a.items + b.items) + c.items == a.items + (b.items + c.items);
    assert (a.issued + b.issued) + c.issued == a.issued + (b.issued + c.issued);
  }

  // ---------------------------------------------------------------------
  // run_command
  // ---------------------------------------------------------------------

  const Tools: seq<string> := ["adb", "fastboot", "heimdall"]

  /** `str(base.joinpath(name))` for a normalised base path. */
  function JoinPath(base: string, name: string, sep: string): string
  {
    if base == "" || base == "." then name else base + sep + name
  }

  /** The executable of a tool inside `bin_path`; Windows adds `.exe`. */
  function ToolPath(env: Env, tool: string): string
  {
    if env.platform == "win32" then JoinPath(env.binPath, tool, "\\") + ".exe"
    else JoinPath(env.binPath, tool, "/")
  }

  /** A command line, split at the end of its first word: the tool and the text after it. */
  datatype Call = Call(command: string, tool: string, rest: string)

  /** How `run_command` reads a command line: its first word (empty for a blank line) names the tool. */
  function Parse(command: string): (c: Call)
    ensures c.command == command
  {
    var t := LStrip(command);
    var tool := TakeWord(t);
    Call(command, tool, t[|tool|..])
  }

  /** A command line written as its tool and the text after it. */
  function Cmd(tool: string, rest: string): Call
  {
    Call(tool + rest, tool, rest)
  }

  /** The first word names adb, fastboot or heimdall. */
  predicate Known(c: Call)
  {
    c.tool in Tools
  }

  /** The process a known tool's command line starts. */
  function InvocationOf(env: Env, c: Call): Invocation
  {
    Invocation(ToolPath(env, c.tool), c.rest)
  }

  /** The argument vector an invocation hands to the process. */
  function ArgvOf(inv: Invocation): Argv
  {
    [inv.path] + Words(inv.args)
  }

  /** The words of a command line are its first word followed by the words of the text after it. */
  lemma WordsParse(command: string)
    ensures var c := Parse(command);
            Words(command) == if c.tool == [] then [] else [c.tool] + Words(c.rest)
  {
    var t := LStrip(command);
    if t != [] {
      assert !IsSpace(t[0]);
    }
  }

  /**
   * `command, *args = shlex.split(full_command)` followed by
   * `[str(bin_path.joinpath(command))] + args`: the process of a known tool
   * receives its path and the remaining words of the command line. The
   * words are whitespace words; `Shlex.SplitPlain` shows where they agree
   * with `shlex.split`.
   */
  lemma InvocationArgv(env: Env, command: string)
    requires Known(Parse(command))
    ensures var w := Words(command);
            w != [] && ArgvOf(InvocationOf(env, Parse(command))) == [ToolPath(env, w[0])] + w[1..]
  {
    var c := Parse(command);
    KnownTool(c);
    WordsParse(command);
    ArgvSplit(env, c, Words(command));
  }

  lemma KnownTool(c: Call)
    requires Known(c)
    ensures c.tool != []
  {
    assert c.tool == "adb" || c.tool == "fastboot" || c.tool == "heimdall";
  }

  lemma ArgvSplit(env: Env, c: Call, w: seq<string>)
    requires w == [c.tool] + Words(c.rest)
    ensures w != [] && ArgvOf(InvocationOf(env, c)) == [ToolPath(env, w[0])] + w[1..]
  {
    assert w[1..] == Words(c.rest);
  }

  /** Any text starting with whitespace may follow a tool name. */
  lemma ParseCmd(tool: string, rest: string)
    requires tool in Tools && (rest == [] || IsSpace(rest[0]))
    ensures Parse(tool + rest) == Cmd(tool, rest)
  {
    assert tool != [] && NoSpace(tool);
    assert !IsSpace((tool + rest)[0]);
    assert LStrip(tool + rest) == tool + rest;
    TakeWordOf(tool, rest);
  }

  /** The stripped lines of a tool's output. */
  function Stripped(output: seq<string>): (r: seq<Item>)
    ensures |r| == |output|
    ensures forall i :: 0 <= i < |r| ==> r[i] == Line(Strip(output[i]))
  {
    seq(|output|, i requires 0 <= i < |output| => Line(Strip(output[i])))
  }

  /**
   * The stream of `run_command`: the echoed command, then, for a command
   * naming a known tool, the stripped output and the exit verdict. For any
   * other command the generator raises right after the echo.
   */
  function RunCall(env: Env, hist: seq<Invocation>, c: Call): Trace
  {
    if !Known(c) then Trace([Line("$" + c.command)], [])
    else
      var res := env.device(hist, InvocationOf(env, c));
      Trace([Line("$" + c.command)] + Stripped(res.output) + [Done(res.exitCode == 0)], [InvocationOf(env, c)])
  }

  /** The loop over the process's output: each line stripped. */
  method StripLines(output: seq<string>) returns (items: seq<Item>)
    ensures items == Stripped(output)
  {
    items := [];
    var i := 0;
    while i < |output|
      invariant 0 <= i <= |output|
      invariant items == Stripped(output[..i])
    {
      assert output[..i + 1] == output[..i] + [output[i]];
      items := items + [Line(Strip(output[i]))];
      i := i + 1;
    }
    assert output[..i] == output;
  }

  /** `run_command(command, bin_path)`, with the exception it raises for anything but a known tool. */
  method RunCommand(env: Env, hist: seq<Invocation>, command: string) returns (t: Trace, raised: Option<string>)
    ensures t == RunCall(env, hist, Parse(command))
    ensures raised.Some? <==> !Known(Parse(command))
  {
    var words := Words(command);
    WordsParse(command);
    if words == [] {
      return Trace([Line("$" + command)], []), Some("ValueError: not enough values to unpack");
    }
    var tool := words[0];
    if tool !in Tools {
      return Trace([Line("$" + command)], []), Some("Unknown tool " + tool + ". Use adb, fastboot or heimdall.");
    }
    var inv := Invocation(ToolPath(env, tool), Parse(command).rest);
    var res := env.device(hist, inv);
    var lines := StripLines(res.output);
    return Trace([Line("$" + command)] + lines + [Done(res.exitCode == 0)], [inv]), None;
  }

  /** The exactly-one-verdict-at-the-end shape of one run's stream. */
  predicate OneVerdict(items: seq<Item>)
  {
    |items| >= 2 && items[|items| - 1].Done? && forall i :: 0 <= i < |items| - 1 ==> items[i].Line?
  }

  /** A known tool's run ends in its exit verdict and has no other verdict. */
  lemma RunShape(env: Env, hist: seq<Invocation>, c: Call)
    requires Known(c)
    ensures var t := RunCall(env, hist, c);
            OneVerdict(t.items) && t.issued == [InvocationOf(env, c)] &&
            t.items[|t.items| - 1] == Done(env.device(hist, InvocationOf(env, c)).exitCode == 0)
  {
  }

  /** `run_command` on a command line naming a tool. */
  method Run(env: Env, hist: seq<Invocation>, tool: string, rest: string) returns (t: Trace)
    requires tool in Tools && (rest == [] || IsSpace(rest[0]))
    ensures t == RunCall(env, hist, Cmd(tool, rest)) && OneVerdict(t.items)
  {
    ParseCmd(tool, rest);
    var raised;
    t, raised := RunCommand(env, hist, tool + rest);
    RunShape(env, hist, Cmd(tool, rest));
  }

  // ---------------------------------------------------------------------
  // add_logging
  // ---------------------------------------------------------------------

  /** The stream up to and including its first failure verdict. */
  function UpToFailure(items: seq<Item>): seq<Item>
  {
    if items == [] then []
    else if items[0] == Done(false) then [Done(false)]
    else [items[0]] + UpToFailure(items[1..])
  }

  /** What the `add_logging` decorator lets through. */
  function Logged(items: seq<Item>, returnIfFail: bool): seq<Item>
  {
    if returnIfFail then UpToFailure(items) else items
  }

  /** The generator built by `add_logging(desc, return_if_fail)` around a generator. */
  method AddLogging(items: seq<Item>, returnIfFail: bool) returns (out: seq<Item>)
    ensures out == Logged(items, returnIfFail)
  {
    out := [];
    var i := 0;
    while i < |items|
      invariant 0 <= i <= |items|
      invariant returnIfFail ==> UpToFailure(items) == out + UpToFailure(items[i..])
      invariant !returnIfFail ==> out == items[..i]
    {
      if items[i] == Done(false) && returnIfFail {
        assert UpToFailure(items[i..]) == [Done(false)];
        return out + [Done(false)];
      }
      assert items[..i + 1] == items[..i] + [items[i]];
      assert returnIfFail ==> UpToFailure(items[i..]) == [items[i]] + UpToFailure(items[i + 1..]);
      out := out + [items[i]];
      i := i + 1;
    }
    assert items[..i] == items;
  }

  /** Cutting at the first failure keeps a prefix: the whole stream, or one ending in its first failure. */
  lemma {:induction false} UpToFailurePrefix(items: seq<Item>)
    ensures var r := UpToFailure(items);
            |r| <= |items| && r == items[..|r|] &&
            (forall i :: 0 <= i < |r| - 1 ==> r[i] != Done(false)) &&
            (r != items ==> r != [] && r[|r| - 1] == Done(false))
  {
    if items != [] && items[0] != Done(false) {
      UpToFailurePrefix(items[1..]);
    }
  }

  /** A stream whose only verdict is its last element passes `return_if_fail` unchanged. */
  lemma {:induction false} UpToFailureOfRun(items: seq<Item>)
    requires |items| >= 1 && forall i :: 0 <= i < |items| - 1 ==> items[i].Line?
    ensures UpToFailure(items) == items
  {
    if |items| > 1 {
      assert items[1..][|items[1..]| - 1] == items[|items| - 1];
      UpToFailureOfRun(items[1..]);
      assert [items[0]] + items[1..] == items;
    }
  }

  /** `add_logging` passes a single run, whose only verdict is its last item, through unchanged. */
  method Decorate(run: Trace, returnIfFail: bool) returns (t: Trace)
    requires OneVerdict(run.items)
    ensures t == run
  {
    UpToFailureOfRun(run.items);
    var items := AddLogging(run.items, returnIfFail);
    t := Trace(items, run.issued);
  }

  // ---------------------------------------------------------------------
  // The single-command operations
  // ---------------------------------------------------------------------

  const AdbRebootCall: Call := Cmd("adb", " reboot")
  const AdbRebootBootloaderCall: Call := Cmd("adb", " reboot bootloader")
  const AdbRebootDownloadCall: Call := Cmd("adb", " reboot download")
  const ActivateSideloadCall: Call := Cmd("adb", " shell twrp sideload")
  const FormatDataCall: Call := Cmd("adb", " shell twrp format data")
  const SwitchPartitionCall: Call := Cmd("fastboot", " set_active other")
  const FastbootUnlockCall: Call := Cmd("fastboot", " flashing unlock")
  const FastbootOemUnlockCall: Call := Cmd("fastboot", " oem unlock")
  const GetUnlockDataCall: Call := Cmd("fastboot", " oem get_unlock_data")
  const FastbootRebootCall: Call := Cmd("fastboot", " reboot")

  function SideloadCall(target: string): Call
  {
    Cmd("adb", " sideload " + target)
  }

  function WipeCall(partition: string): Call
  {
    Cmd("adb", " shell twrp wipe " + partition)
  }

  function UnlockWithCodeCall(unlockCode: string): Call
  {
    Cmd("fastboot", " oem unlock " + unlockCode)
  }

  function HeimdallRecoveryCall(recovery: string): Call
  {
    Cmd("heimdall", " flash --no-reboot --RECOVERY " + recovery)
  }

  method AdbReboot(env: Env, hist: seq<Invocation>) returns (t: Trace)
    ensures t == RunCall(env, hist, AdbRebootCall)
  {
    var run := Run(env, hist, "adb", " reboot");
    t := Decorate(run, false);
  }

  method AdbRebootBootloader(env: Env, hist: seq<Invocation>) returns (t: Trace)
    ensures t == RunCall(env, hist, AdbRebootBootloaderCall)
  {
    var run := Run(env, hist, "adb", " reboot bootloader");
    t := Decorate(run, true);
  }

  method AdbRebootDownload(env: Env, hist: seq<Invocation>) returns (t: Trace)
    ensures t == RunCall(env, hist, AdbRebootDownloadCall)
  {
    var run := Run(env, hist, "adb", " reboot download");
    t := Decorate(run, false);
  }

  method AdbSideload(env: Env, hist: seq<Invocation>, target: string) returns (t: Trace)
    ensures t == RunCall(env, hist, SideloadCall(target))
  {
    var run := Run(env, hist, "adb", " sideload " + target);
    t := Decorate(run, false);
  }

  /**
   * A command such as `adb sideload <path>` hands its path to the tool as
   * one argument, exactly as picked, backslashes and apostrophes included,
   * as long as the path has no whitespace.
   */
  lemma CommandPathArgv(env: Env, tool: string, verb: string, path: string)
    requires verb != [] && NoSpace(verb) && path != [] && NoSpace(path)
    ensures ArgvOf(InvocationOf(env, Cmd(tool, " " + (verb + " " + path)))) == [ToolPath(env, tool), verb, path]
  {
    ArgsWords(verb, path);
  }

  lemma ArgsWords(verb: string, path: string)
    requires verb != [] && NoSpace(verb) && path != [] && NoSpace(path)
    ensures Words(" " + (verb + " " + path)) == [verb, path]
  {
    assert [verb] + [path] == [verb, path];
    var tail := verb + " " + path;
    WordsSpacePrefix(tail);
    assert Words(" " + tail) == Words(tail);
    WordsCons(verb, path);
    WordsSingle(path);
    assert Words(tail) == [verb] + [path];
  }

  method ActivateSideload(env: Env, hist: seq<Invocation>) returns (t: Trace)
    ensures t == RunCall(env, hist, ActivateSideloadCall)
  {
    var run := Run(env, hist, "adb", " shell twrp sideload");
    t := Decorate(run, true);
  }

  method AdbTwrpFormatData(env: Env, hist: seq<Invocation>) returns (t: Trace)
    ensures t == RunCall(env, hist, FormatDataCall)
  {
    var run := Run(env, hist, "adb", " shell twrp format data");
    t := Decorate(run, true);
  }

  method AdbTwrpWipePartition(env: Env, hist: seq<Invocation>, partition: string) returns (t: Trace)
    ensures t == RunCall(env, hist, WipeCall(partition))
  {
    var run := Run(env, hist, "adb", " shell twrp wipe " + partition);
    t := Decorate(run, true);
  }

  method FastbootSwitchPartition(env: Env, hist: seq<Invocation>) returns (t: Trace)
    ensures t == RunCall(env, hist, SwitchPartitionCall)
  {
    var run := Run(env, hist, "fastboot", " set_active other");
    t := Decorate(run, true);
  }

  method FastbootUnlockWithCode(env: Env, hist: seq<Invocation>, unlockCode: string) returns (t: Trace)
    ensures t == RunCall(env, hist, UnlockWithCodeCall(unlockCode))
  {
    var run := Run(env, hist, "fastboot", " oem unlock " + unlockCode);
    t := Decorate(run, false);
  }

  method FastbootUnlock(env: Env, hist: seq<Invocation>) returns (t: Trace)
    ensures t == RunCall(env, hist, FastbootUnlockCall)
  {
    var run := Run(env, hist, "fastboot", " flashing unlock");
    t := Decorate(run, false);
  }

  method FastbootOemUnlock(env: Env, hist: seq<Invocation>) returns (t: Trace)
    ensures t == RunCall(env, hist, FastbootOemUnlockCall)
  {
    var run := Run(env, hist, "fastboot", " oem unlock");
    t := Decorate(run, false);
  }

  method FastbootGetUnlockData(env: Env, hist: seq<Invocation>) returns (t: Trace)
    ensures t == RunCall(env, hist, GetUnlockDataCall)
  {
    var run := Run(env, hist, "fastboot", " oem get_unlock_data");
    t := Decorate(run, false);
  }

  method FastbootReboot(env: Env, hist: seq<Invocation>) returns (t: Trace)
    ensures t == RunCall(env, hist, FastbootRebootCall)
  {
    var run := Run(env, hist, "fastboot", " reboot");
    t := Decorate(run, false);
  }

  method HeimdallFlashRecovery(env: Env, hist: seq<Invocation>, recovery: string) returns (t: Trace)
    ensures t == RunCall(env, hist, HeimdallRecoveryCall(recovery))
  {
    var run := Run(env, hist, "heimdall", " flash --no-reboot --RECOVERY " + recovery);
    t := Decorate(run, false);
  }

  // ---------------------------------------------------------------------
  // Scripts: commands run one after another
  // ---------------------------------------------------------------------

  /** Running the calls in order, each seeing the invocations issued before it. */
  function Script(env: Env, hist: seq<Invocation>, calls: seq<Call>): Trace
    decreases |calls|
  {
    if calls == [] then Empty
    else
      var first := RunCall(env, hist, calls[0]);
      Then(first, Script(env, hist + first.issued, calls[1..]))
  }

  /** Calls run in order by any step function, each seeing the invocations issued before it. */
  function FoldCalls(step: (seq<Invocation>, Call) -> Trace, hist: seq<Invocation>, calls: seq<Call>): Trace
    decreases |calls|
  {
    if calls == [] then Empty
    else
      var first := step(hist, calls[0]);
      Then(first, FoldCalls(step, hist + first.issued, calls[1..]))
  }

  lemma {:induction false} FoldAppend(step: (seq<Invocation>, Call) -> Trace, hist: seq<Invocation>,
                                      a: seq<Call>, b: seq<Call>)
    ensures FoldCalls(step, hist, a + b) ==
            Then(FoldCalls(step, hist, a), FoldCalls(step, hist + FoldCalls(step, hist, a).issued, b))
    decreases |a|
  {
    if a == [] {
      assert a + b == b;
      assert hist + [] == hist;
      assert Then(Empty, FoldCalls(step, hist, b)) == FoldCalls(step, hist, b);
    } else {
      var first := step(hist, a[0]);
      var h1 := hist + first.issued;
      assert (a + b)[0] == a[0] && (a + b)[1..] == a[1..] + b;
      FoldAppend(step, h1, a[1..], b);
      var rest := FoldCalls(step, h1, a[1..]);
      assert hist + (first.issued + rest.issued) == h1 + rest.issued;
      ThenAssoc(first, rest, FoldCalls(step, h1 + rest.issued, b));
    }
  }

  /** A script is the fold of `RunCall` over its calls. */
  lemma {:induction false} ScriptIsFold(env: Env, hist: seq<Invocation>, calls: seq<Call>)
    ensures Script(env, hist, calls) == FoldCalls((h, c) => RunCall(env, h, c), hist, calls)
    decreases |calls|
  {
    if calls != [] {
      ScriptIsFold(env, hist + RunCall(env, hist, calls[0]).issued, calls[1..]);
    }
  }

  lemma ScriptAppend(env: Env, hist: seq<Invocation>, a: seq<Call>, b: seq<Call>)
    ensures Script(env, hist, a + b) ==
            Then(Script(env, hist, a), Script(env, hist + Script(env, hist, a).issued, b))
  {
    var step := (h, c) => RunCall(env, h, c);
    ScriptIsFold(env, hist, a + b);
    ScriptIsFold(env, hist, a);
    ScriptIsFold(env, hist + Script(env, hist, a).issued, b);
    FoldAppend(step, hist, a, b);
  }

  /** A script extended by one more call. */
  lemma ScriptSnoc(env: Env, hist: seq<Invocation>, calls: seq<Call>, c: Call)
    ensures Script(env, hist, calls + [c]) ==
            Then(Script(env, hist, calls), RunCall(env, hist + Script(env, hist, calls).issued, c))
  {
    ScriptAppend(env, hist, calls, [c]);
    var r := RunCall(env, hist + Script(env, hist, calls).issued, c);
    assert [c][1..] == [];
    assert Then(r, Empty) == r;
  }

  predicate AllKnown(calls: seq<Call>)
  {
    forall i :: 0 <= i < |calls| ==> Known(calls[i])
  }

  /**
   * A script of known tools issues exactly its calls' invocations, whatever
   * the device answers: no failure stops a script.
   */
  lemma {:induction false} ScriptIssues(env: Env, hist: seq<Invocation>, calls: seq<Call>)
    requires AllKnown(calls)
    ensures var t := Script(env, hist, calls);
            |t.issued| == |calls| &&
            forall i :: 0 <= i < |calls| ==> t.issued[i] == InvocationOf(env, calls[i])
    decreases |calls|
  {
    if calls != [] {
      var first := RunCall(env, hist, calls[0]);
      ScriptIssues(env, hist + first.issued, calls[1..]);
    }
  }

  /** A non-empty script of known tools ends with the verdict of its last call. */
  lemma ScriptVerdict(env: Env, hist: seq<Invocation>, calls: seq<Call>)
    requires AllKnown(calls) && calls != []
    ensures var t := Script(env, hist, calls);
            var n := |calls| - 1;
            var before := Script(env, hist, calls[..n]);
            t.items != [] &&
            t.items[|t.items| - 1] == Done(env.device(hist + before.issued, InvocationOf(env, calls[n])).exitCode == 0)
  {
    var n := |calls| - 1;
    assert calls == calls[..n] + [calls[n]];
    ScriptSnoc(env, hist, calls[..n], calls[n]);
    RunShape(env, hist + Script(env, hist, calls[..n]).issued, calls[n]);
  }

  // ---------------------------------------------------------------------
  // The multi-command operations
  // ---------------------------------------------------------------------

  function FindLast(s: string, c: char): (r: Option<nat>)
    ensures r.Some? ==> r.value < |s| && s[r.value] == c && forall j :: r.value < j < |s| ==> s[j] != c
    ensures r.None? ==> forall j :: 0 <= j < |s| ==> s[j] != c
  {
    if s == [] then None
    else if s[|s| - 1] == c then Some(|s| - 1)
    else FindLast(s[..|s| - 1], c)
  }

  /** `path.parent` of a POSIX path. */
  function Parent(path: string): string
  {
    match FindLast(path, '/')
    case None => "."
    case Some(i) => if i == 0 then "/" else path[..i]
  }

  /** A file next to the config: `config_path.parent.joinpath(name)`. */
  function Beside(configPath: string, name: string): string
  {
    var dir := Parent(configPath);
    if dir == "/" then "/" + name else JoinPath(dir, name, "/")
  }

  function CopyPartitionsCalls(configPath: string): seq<Call>
  {
    [ActivateSideloadCall, SideloadCall(Beside(configPath, "copy-partitions-20220613-signed.zip")),
     AdbRebootBootloaderCall]
  }

  /** `adb_twrp_copy_partitions`: it goes on after a failed step. */
  method AdbTwrpCopyPartitions(env: Env, hist: seq<Invocation>, configPath: string) returns (t: Trace)
    ensures t == Script(env, hist, CopyPartitionsCalls(configPath))
  {
    var calls := CopyPartitionsCalls(configPath);
    t := Empty;
    var a := ActivateSideload(env, hist + t.issued);
    ScriptSnoc(env, hist, [], calls[0]);
    assert hist + [] == hist;
    t := Then(t, a);
    var s := AdbSideload(env, hist + t.issued, Beside(configPath, "copy-partitions-20220613-signed.zip"));
    ScriptSnoc(env, hist, calls[..1], calls[1]);
    assert calls[..1] == [] + [calls[0]];
    t := Then(t, s);
    var b := AdbRebootBootloader(env, hist + t.issued);
    ScriptSnoc(env, hist, calls[..2], calls[2]);
    assert calls[..2] == calls[..1] + [calls[1]];
    assert calls == calls[..2] + [calls[2]];
    t := Then(t, b);
  }

  function AddonCalls(addons: seq<string>): (r: seq<Call>)
    ensures |r| == 2 * |addons|
    ensures forall k :: 0 <= k < |addons| ==> r[2 * k] == ActivateSideloadCall && r[2 * k + 1] == SideloadCall(addons[k])
  {
    if addons == [] then []
    else AddonCalls(addons[..|addons| - 1]) + [ActivateSideloadCall, SideloadCall(addons[|addons| - 1])]
  }

  function RebootCalls(isAb: bool): seq<Call>
  {
    if isAb then [AdbRebootBootloaderCall, SwitchPartitionCall, SwitchPartitionCall, FastbootRebootCall]
    else [AdbRebootCall]
  }

  function InstallAddonsCalls(addons: seq<string>, isAb: bool): seq<Call>
  {
    AddonCalls(addons) + RebootCalls(isAb)
  }

  /**
   * `adb_twrp_install_addons`: activate sideload and sideload each addon,
   * then reboot; an a/b device switches the active slot twice first.
   */
  method AdbTwrpInstallAddons(env: Env, hist: seq<Invocation>, addons: seq<string>, isAb: bool) returns (t: Trace)
    ensures t == Script(env, hist, InstallAddonsCalls(addons, isAb))
  {
    t := Empty;
    ghost var done: seq<Call> := [];
    assert hist + [] == hist;
    for k := 0 to |addons|
      invariant done == AddonCalls(addons[..k])
      invariant t == Script(env, hist, done)
    {
      var a := ActivateSideload(env, hist + t.issued);
      ScriptSnoc(env, hist, done, ActivateSideloadCall);
      t, done := Then(t, a), done + [ActivateSideloadCall];
      var s := AdbSideload(env, hist + t.issued, addons[k]);
      ScriptSnoc(env, hist, done, SideloadCall(addons[k]));
      t, done := Then(t, s), done + [SideloadCall(addons[k])];
      assert addons[..k + 1][..k] == addons[..k];
    }
    assert addons[..|addons|] == addons;
    var r := RebootAfterAddons(env, hist + t.issued, isAb);
    ScriptAppend(env, hist, AddonCalls(addons), RebootCalls(isAb));
    t := Then(t, r);
  }

  /** The end of `adb_twrp_install_addons`: back to the system, switching the slot twice first on an a/b device. */
  method RebootAfterAddons(env: Env, hist: seq<Invocation>, isAb: bool) returns (t: Trace)
    ensures t == Script(env, hist, RebootCalls(isAb))
  {
    ghost var calls := RebootCalls(isAb);
    t := Empty;
    assert hist + [] == hist;
    if isAb {
      var r := AdbRebootBootloader(env, hist + t.issued);
      ScriptSnoc(env, hist, [], calls[0]);
      t := Then(t, r);
      assert calls[..1] == [] + [calls[0]];
      var s1 := FastbootSwitchPartition(env, hist + t.issued);
      ScriptSnoc(env, hist, calls[..1], calls[1]);
      t := Then(t, s1);
      assert calls[..2] == calls[..1] + [calls[1]];
      var s2 := FastbootSwitchPartition(env, hist + t.issued);
      ScriptSnoc(env, hist, calls[..2], calls[2]);
      t := Then(t, s2);
      assert calls[..3] == calls[..2] + [calls[2]];
      var f := FastbootReboot(env, hist + t.issued);
      ScriptSnoc(env, hist, calls[..3], calls[3]);
      t := Then(t, f);
      assert calls == calls[..3] + [calls[3]];
    } else {
      var r := AdbReboot(env, hist + t.issued);
      ScriptSnoc(env, hist, [], calls[0]);
      assert calls == [] + [calls[0]];
      t := Then(t, r);
    }
  }

  /** The addon installation issues its commands whatever the device answers. */
  lemma InstallAddonsIssues(env: Env, hist: seq<Invocation>, addons: seq<string>, isAb: bool)
    ensures var t := Script(env, hist, InstallAddonsCalls(addons, isAb));
            |t.issued| == 2 * |addons| + (if isAb then 4 else 1) &&
            (forall k :: 0 <= k < |addons| ==>
               t.issued[2 * k] == InvocationOf(env, ActivateSideloadCall) &&
               t.issued[2 * k + 1] == InvocationOf(env, SideloadCall(addons[k]))) &&
            (isAb ==> t.issued[2 * |addons| + 1] == InvocationOf(env, SwitchPartitionCall) &&
                      t.issued[2 * |addons| + 2] == InvocationOf(env, SwitchPartitionCall))
  {
    var calls := InstallAddonsCalls(addons, isAb);
    var n := 2 * |addons|;
    assert AllKnown(calls) by {
      forall i | 0 <= i < |calls| ensures Known(calls[i]) {
        if i < n {
          var k := i / 2;
          assert calls[i] == AddonCalls(addons)[i];
          if i == 2 * k {
            assert AddonCalls(addons)[2 * k] == ActivateSideloadCall;
          } else {
            assert i == 2 * k + 1;
            assert AddonCalls(addons)[2 * k + 1] == SideloadCall(addons[k]);
          }
        } else {
          assert calls[i] == RebootCalls(isAb)[i - n];
        }
      }
    }
    ScriptIssues(env, hist, calls);
    forall k | 0 <= k < |addons|
      ensures calls[2 * k] == ActivateSideloadCall && calls[2 * k + 1] == SideloadCall(addons[k])
    {
      assert calls[2 * k] == AddonCalls(addons)[2 * k];
      assert calls[2 * k + 1] == AddonCalls(addons)[2 * k + 1];
    }
    if isAb {
      assert calls[n + 1] == RebootCalls(isAb)[1] && calls[n + 2] == RebootCalls(isAb)[2];
    }
  }

  /** The stream ends in a successful verdict. */
  predicate LastOk(t: Trace)
  {
    t.items != [] && t.items[|t.items| - 1] == Done(true)
  }

  function BootRecoveryCall(recovery: string): Call
  {
    Cmd("fastboot", " boot " + recovery)
  }

  function FlashRecoveryCall(recovery: string): Call
  {
    Cmd("fastboot", " flash recovery " + recovery)
  }

  const RebootRecoveryCall: Call := Cmd("fastboot", " reboot recovery")

  /** The stream of `fastboot_flash_recovery`. */
  function FlashRecovery(env: Env, hist: seq<Invocation>, recovery: string, isAb: bool): Trace
  {
    if isAb then RunCall(env, hist, BootRecoveryCall(recovery))
    else
      var flash := RunCall(env, hist, FlashRecoveryCall(recovery));
      Then(flash, Then(Trace([Done(LastOk(flash))], []),
                       RunCall(env, hist + flash.issued, RebootRecoveryCall)))
  }

  /**
   * `fastboot_flash_recovery`: an a/b device boots the recovery; any other
   * flashes it, repeats the flash verdict and reboots into recovery.
   */
  method FastbootFlashRecovery(env: Env, hist: seq<Invocation>, recovery: string, isAb: bool) returns (t: Trace)
    ensures t == FlashRecovery(env, hist, recovery, isAb)
  {
    var run: Trace;
    if isAb {
      run := Run(env, hist, "fastboot", " boot " + recovery);
    } else {
      var flash := Run(env, hist, "fastboot", " flash recovery " + recovery);
      var line := flash.items[|flash.items| - 1];
      var verdict := if line.Done? && !line.ok then Done(false) else Done(true);
      assert verdict == Done(LastOk(flash));
      var reboot := Run(env, hist + flash.issued, "fastboot", " reboot recovery");
      run := Then(flash, Then(Trace([verdict], []), reboot));
    }
    var logged := AddLogging(run.items, false);
    t := Trace(logged, run.issued);
  }

  /**
   * An a/b device only boots the recovery; any other device flashes it,
   * then reboots into recovery, with the flash verdict repeated in between
   * and the reboot's verdict last.
   */
  lemma FlashRecoveryShape(env: Env, hist: seq<Invocation>, recovery: string, isAb: bool)
    ensures var t := FlashRecovery(env, hist, recovery, isAb);
            (isAb ==> t.issued == [InvocationOf(env, BootRecoveryCall(recovery))] &&
                      t.items[|t.items| - 1] == Done(env.device(hist, t.issued[0]).exitCode == 0)) &&
            (!isAb ==>
               var n := |RunCall(env, hist, FlashRecoveryCall(recovery)).items|;
               t.issued == [InvocationOf(env, FlashRecoveryCall(recovery)), InvocationOf(env, RebootRecoveryCall)] &&
               n < |t.items| &&
               t.items[n - 1] == Done(env.device(hist, t.issued[0]).exitCode == 0) &&
               t.items[n] == t.items[n - 1] &&
               t.items[|t.items| - 1] == Done(env.device(hist + [t.issued[0]], t.issued[1]).exitCode == 0))
  {
    if isAb {
      RunShape(env, hist, BootRecoveryCall(recovery));
    } else {
      var flash := RunCall(env, hist, FlashRecoveryCall(recovery));
      RunShape(env, hist, FlashRecoveryCall(recovery));
      RunShape(env, hist + flash.issued, RebootRecoveryCall);
    }
  }

  function FlashBootCall(recovery: string): Call
  {
    Cmd("fastboot", " flash boot " + recovery)
  }

  /** The stream of `fastboot_flash_boot`. */
  function FlashBoot(env: Env, hist: seq<Invocation>, recovery: string): Trace
  {
    var flash := RunCall(env, hist, FlashBootCall(recovery));
    var reboot := RunCall(env, hist + flash.issued, FastbootRebootCall);
    Then(Then(flash, Trace([Done(LastOk(flash))], [])), Then(reboot, Trace([Done(LastOk(reboot))], [])))
  }

  /** `fastboot_flash_boot`: flash the recovery to the boot partition, then reboot, each followed by its verdict. */
  method FastbootFlashBoot(env: Env, hist: seq<Invocation>, recovery: string) returns (t: Trace)
    ensures t == FlashBoot(env, hist, recovery)
  {
    var flash := Run(env, hist, "fastboot", " flash boot " + recovery);
    var line := flash.items[|flash.items| - 1];
    var first := if line.Done? && !line.ok then Done(false) else Done(true);
    assert first == Done(LastOk(flash));
    var reboot := Run(env, hist + flash.issued, "fastboot", " reboot");
    line := reboot.items[|reboot.items| - 1];
    var second := if line.Done? && !line.ok then Done(false) else Done(true);
    assert second == Done(LastOk(reboot));
    t := Then(Then(flash, Trace([first], [])), Then(reboot, Trace([second], [])));
  }

  /** The flash-boot stream's last verdict is the reboot's alone. */
  lemma FlashBootVerdict(env: Env, hist: seq<Invocation>, recovery: string)
    ensures var t := FlashBoot(env, hist, recovery);
            |t.issued| == 2 &&
            t.items[|t.items| - 1] == Done(env.device(hist + [t.issued[0]], t.issued[1]).exitCode == 0)
  {
    var flash := RunCall(env, hist, FlashBootCall(recovery));
    RunShape(env, hist, FlashBootCall(recovery));
    RunShape(env, hist + flash.issued, FastbootRebootCall);
  }

  /**
   * The cache-wiping loop of `adb_twrp_wipe_and_install`: the first wipe that
   * fails is followed by the `helper` sideload, one more failure verdict if
   * that fails too, and the end of the loop.
   */
  function WipeCaches(env: Env, hist: seq<Invocation>, parts: seq<string>, helper: Call): Trace
    decreases |parts|
  {
    if parts == [] then Empty
    else
      var w := RunCall(env, hist, WipeCall(parts[0]));
      if LastOk(w) then Then(w, WipeCaches(env, hist + w.issued, parts[1..], helper))
      else
        var h := RunCall(env, hist + w.issued, helper);
        Then(w, Then(h, Trace(if LastOk(h) then [] else [Done(false)], [])))
  }

  function PrepareCalls(target: string): seq<Call>
  {
    [FormatDataCall, WipeCall("cache"), WipeCall("system"), ActivateSideloadCall, SideloadCall(target)]
  }

  /** The last stage of `adb_twrp_wipe_and_install`. */
  function Finish(env: Env, hist: seq<Invocation>, isAb: bool, installAddons: bool, recovery: Option<string>): Trace
  {
    if !installAddons then RunCall(env, hist, AdbRebootCall)
    else if !isAb then Empty
    else
      var r := RunCall(env, hist, AdbRebootBootloaderCall);
      Then(r, FlashRecovery(env, hist + r.issued, Show(recovery), true))
  }

  function HelperCall(configPath: string): Call
  {
    SideloadCall(Beside(configPath, "helper.txt"))
  }

  /** The stream of `adb_twrp_wipe_and_install`. */
  function WipeAndInstall(env: Env, hist: seq<Invocation>, target: string, configPath: string,
                          isAb: bool, installAddons: bool, recovery: Option<string>): Trace
  {
    Install(env, hist, PrepareCalls(target), ["dalvik", "cache"], HelperCall(configPath), isAb, installAddons, recovery)
  }

  /** The three stages of an installation: the preparing script, the cache-wiping loop and the last stage. */
  function Install(env: Env, hist: seq<Invocation>, prepare: seq<Call>, parts: seq<string>, helper: Call,
                   isAb: bool, installAddons: bool, recovery: Option<string>): Trace
  {
    var prep := Script(env, hist, prepare);
    var wipe := WipeCaches(env, hist + prep.issued, parts, helper);
    Then(prep, Then(wipe, Finish(env, hist + prep.issued + wipe.issued, isAb, installAddons, recovery)))
  }

  /**
   * `adb_twrp_wipe_and_install`: format data, wipe cache and system,
   * sideload the OS image, wipe dalvik and cache (with a fallback sideload),
   * then reboot, or boot the recovery again on an a/b device that gets
   * addons, or stay in recovery on any other device that gets addons.
   */
  method AdbTwrpWipeAndInstall(env: Env, hist: seq<Invocation>, target: string, configPath: string,
                               isAb: bool, installAddons: bool, recovery: Option<string>) returns (t: Trace)
    ensures t == WipeAndInstall(env, hist, target, configPath, isAb, installAddons, recovery)
  {
    var prep := PrepareInstall(env, hist, target);
    var wipe := WipeCachePartitions(env, hist + prep.issued, ["dalvik", "cache"], Beside(configPath, "helper.txt"));
    var fin := FinishInstall(env, hist + prep.issued + wipe.issued, isAb, installAddons, recovery);
    t := Then(prep, Then(wipe, fin));
  }

  /** The first part of `adb_twrp_wipe_and_install`: factory reset, two wipes and the sideload of the image. */
  method PrepareInstall(env: Env, hist: seq<Invocation>, target: string) returns (t: Trace)
    ensures t == Script(env, hist, PrepareCalls(target))
  {
    t := Empty;
    ghost var done: seq<Call> := [];
    assert hist + [] == hist;
    var f := AdbTwrpFormatData(env, hist + t.issued);
    ScriptSnoc(env, hist, done, FormatDataCall);
    t, done := Then(t, f), done + [FormatDataCall];
    var c := AdbTwrpWipePartition(env, hist + t.issued, "cache");
    ScriptSnoc(env, hist, done, WipeCall("cache"));
    t, done := Then(t, c), done + [WipeCall("cache")];
    var s := AdbTwrpWipePartition(env, hist + t.issued, "system");
    ScriptSnoc(env, hist, done, WipeCall("system"));
    t, done := Then(t, s), done + [WipeCall("system")];
    var a := ActivateSideload(env, hist + t.issued);
    ScriptSnoc(env, hist, done, ActivateSideloadCall);
    t, done := Then(t, a), done + [ActivateSideloadCall];
    var o := AdbSideload(env, hist + t.issued, target);
    ScriptSnoc(env, hist, done, SideloadCall(target));
    t, done := Then(t, o), done + [SideloadCall(target)];
    assert done == PrepareCalls(target);
  }

  /** The loop of `adb_twrp_wipe_and_install` over the cache partitions. */
  method WipeCachePartitions(env: Env, h0: seq<Invocation>, parts: seq<string>, helperPath: string) returns (wipe: Trace)
    ensures wipe == WipeCaches(env, h0, parts, SideloadCall(helperPath))
  {
    var helper := SideloadCall(helperPath);
    var h := h0;
    wipe := Empty;
    assert h0 + [] == h0;
    var i := 0;
    while i < |parts|
      invariant 0 <= i <= |parts|
      invariant h == h0 + wipe.issued
      invariant WipeCaches(env, h0, parts, helper) == Then(wipe, WipeCaches(env, h, parts[i..], helper))
    {
      var run := Run(env, h, "adb", " shell twrp wipe " + parts[i]);
      if !LastOk(run) {
        var back := Run(env, h + run.issued, "adb", " sideload " + helperPath);
        var extra := Trace(if LastOk(back) then [] else [Done(false)], []);
        ThenAssoc(wipe, run, Then(back, extra));
        wipe := Then(wipe, Then(run, Then(back, extra)));
        return;
      }
      ThenAssoc(wipe, run, WipeCaches(env, h + run.issued, parts[i + 1..], helper));
      assert parts[i..][1..] == parts[i + 1..];
      wipe := Then(wipe, run);
      h := h + run.issued;
      i := i + 1;
    }
    assert Then(wipe, Empty) == wipe;
  }

  /** The last part of `adb_twrp_wipe_and_install`. */
  method FinishInstall(env: Env, hist: seq<Invocation>, isAb: bool, installAddons: bool, recovery: Option<string>)
    returns (t: Trace)
    ensures t == Finish(env, hist, isAb, installAddons, recovery)
  {
    if !installAddons {
      t := AdbReboot(env, hist);
    } else if isAb {
      var r := AdbRebootBootloader(env, hist);
      var b := FastbootFlashRecovery(env, hist + r.issued, Show(recovery), true);
      t := Then(r, b);
    } else {
      t := Empty;
    }
  }

  /**
   * A failed factory reset, wipe or sideload does not stop the installation:
   * the five preparing commands and the dalvik wipe are issued whatever the
   * device answers.
   */
  lemma WipeAndInstallPrepares(env: Env, hist: seq<Invocation>, target: string, configPath: string,
                               isAb: bool, installAddons: bool, recovery: Option<string>)
    ensures var t := WipeAndInstall(env, hist, target, configPath, isAb, installAddons, recovery);
            |t.issued| >= 6 &&
            t.issued[0] == InvocationOf(env, FormatDataCall) &&
            t.issued[1] == InvocationOf(env, WipeCall("cache")) &&
            t.issued[2] == InvocationOf(env, WipeCall("system")) &&
            t.issued[3] == InvocationOf(env, ActivateSideloadCall) &&
            t.issued[4] == InvocationOf(env, SideloadCall(target)) &&
            t.issued[5] == InvocationOf(env, WipeCall("dalvik"))
  {
    var prep := Script(env, hist, PrepareCalls(target));
    PrepareIssues(env, hist, target);
    var wipe := WipeCaches(env, hist + prep.issued, ["dalvik", "cache"], HelperCall(configPath));
    WipeCachesFirst(env, hist + prep.issued, ["dalvik", "cache"], HelperCall(configPath));
    var fin := Finish(env, hist + prep.issued + wipe.issued, isAb, installAddons, recovery);
    assert WipeAndInstall(env, hist, target, configPath, isAb, installAddons, recovery).issued
        == prep.issued + (wipe.issued + fin.issued);
  }

  lemma PrepareIssues(env: Env, hist: seq<Invocation>, target: string)
    ensures var t := Script(env, hist, PrepareCalls(target));
            |t.issued| == 5 &&
            t.issued[0] == InvocationOf(env, FormatDataCall) &&
            t.issued[1] == InvocationOf(env, WipeCall("cache")) &&
            t.issued[2] == InvocationOf(env, WipeCall("system")) &&
            t.issued[3] == InvocationOf(env, ActivateSideloadCall) &&
            t.issued[4] == InvocationOf(env, SideloadCall(target))
  {
    var calls := PrepareCalls(target);
    assert AllKnown(calls);
    ScriptIssues(env, hist, calls);
  }

  /** The wiping loop starts with the wipe of its first partition. */
  lemma WipeCachesFirst(env: Env, hist: seq<Invocation>, parts: seq<string>, helper: Call)
    requires parts != []
    ensures var t := WipeCaches(env, hist, parts, helper);
            t.issued != [] && t.issued[0] == InvocationOf(env, WipeCall(parts[0]))
  {
    RunShape(env, hist, WipeCall(parts[0]));
  }

  /** A failed dalvik wipe is answered by the helper sideload, and the cache is never wiped. */
  lemma WipeFallback(env: Env, hist: seq<Invocation>, configPath: string)
    requires !LastOk(RunCall(env, hist, WipeCall("dalvik")))
    ensures var t := WipeCaches(env, hist, ["dalvik", "cache"], HelperCall(configPath));
            |t.issued| == 2 && t.issued[0] == InvocationOf(env, WipeCall("dalvik")) &&
            t.issued[1] == InvocationOf(env, HelperCall(configPath))
  {
  }

  /**
   * Without addons the verdict of the whole installation is the final
   * reboot's: earlier failures are yielded inside the stream, but its last
   * element is decided by `adb reboot` alone.
   */
  lemma WipeAndInstallVerdict(env: Env, hist: seq<Invocation>, prepare: seq<Call>, parts: seq<string>, helper: Call,
                              isAb: bool, recovery: Option<string>)
    ensures var t := Install(env, hist, prepare, parts, helper, isAb, false, recovery);
            |t.issued| >= 1 && t.items != [] &&
            t.issued[|t.issued| - 1] == InvocationOf(env, AdbRebootCall) &&
            t.items[|t.items| - 1] ==
              Done(env.device(hist + t.issued[..|t.issued| - 1], t.issued[|t.issued| - 1]).exitCode == 0)
  {
    var prep := Script(env, hist, prepare);
    var wipe := WipeCaches(env, hist + prep.issued, parts, helper);
    LastRun(env, hist, prep, wipe, AdbRebootCall);
  }

  /** A stream that ends with a known tool's run ends with that run's verdict. */
  lemma LastRun(env: Env, hist: seq<Invocation>, a: Trace, b: Trace, c: Call)
    requires Known(c)
    ensures var t := Then(a, Then(b, RunCall(env, hist + a.issued + b.issued, c)));
            |t.issued| >= 1 && t.items != [] && t.issued[|t.issued| - 1] == InvocationOf(env, c) &&
            t.items[|t.items| - 1] ==
              Done(env.device(hist + t.issued[..|t.issued| - 1], t.issued[|t.issued| - 1]).exitCode == 0)
  {
    var h := hist + a.issued + b.issued;
    RunShape(env, h, c);
    var t := Then(a, Then(b, RunCall(env, h, c)));
    assert hist + t.issued[..|t.issued| - 1] == h;
  }

  // ---------------------------------------------------------------------
  // search_device
  // ---------------------------------------------------------------------

  /** What `check_output` gives: the decoded output, or CalledProcessError. */
  datatype Probe = Output(text: string) | ProcessError

  /** `output.split("[")[-1].strip()[:-1].strip()`: the text between the last `[` and the `]` after it. */
  function DeviceCodeOf(output: string): (r: string)
    ensures !Contains(r, "[")
  {
    var tail := AfterLast(output, "[");
    StripLacks(tail, "[");
    SliceLacks(Strip(tail), "[", 0, |DropLast(Strip(tail), 1)|);
    StripLacks(DropLast(Strip(tail), 1), "[");
    Strip(DropLast(Strip(tail), 1))
  }

  /** The argument vector of the getprop query for this platform, or none for an unknown platform. */
  function SearchArgv(platform: string, binPath: string): Option<Argv>
  {
    if platform == "linux" || platform == "darwin" then
      Some([JoinPath(binPath, "adb", "/"), "shell", "getprop", "|", "grep", "ro.product.device"])
    else if platform == "windows" || platform == "win32" then
      Some([JoinPath(binPath, "adb.exe", "\\"), "shell", "getprop", "|", "findstr", "ro.product.device"])
    else None
  }

  /** `search_device(platform, bin_path)`: the device code of the attached device. */
  function SearchDevice(platform: string, binPath: string, probe: Argv -> Probe): (r: Result<Option<string>>)
    ensures r.Failure? <==> SearchArgv(platform, binPath).None?
    ensures r.Failure? ==> r.error == "Unknown platform " + platform + "."
    ensures r.Success? ==>
              (r.value.None? <==> probe(SearchArgv(platform, binPath).value).ProcessError?)
    ensures r.Success? && r.value.Some? ==> r.value.value == DeviceCodeOf(probe(SearchArgv(platform, binPath).value).text)
  {
    match SearchArgv(platform, binPath)
    case None => Failure("Unknown platform " + platform + ".")
    case Some(argv) =>
      match probe(argv)
      case ProcessError => Success(None)
      case Output(text) => Success(Some(DeviceCodeOf(text)))
  }

  /** The line `getprop | grep ro.product.device` prints, with its line ending. */
  function GetpropLine(code: string, trailer: string): string
  {
    "[ro.product.device]: [" + code + "]" + trailer
  }

  /** Splitting a getprop line at `[` leaves the code, its closing bracket and the line ending last. */
  lemma GetpropTail(code: string, trailer: string)
    requires !Contains(code, "[") && AllSpace(trailer)
    ensures AfterLast(GetpropLine(code, trailer), "[") == code + "]" + trailer
  {
    var head := "[ro.product.device]: ";
    var tail := code + "]" + trailer;
    assert GetpropLine(code, trailer) == head + "[" + tail;
    BracketFree(code, trailer);
    AfterLastOf(head, "[", tail);
  }

  /**
   * The getprop line `[ro.product.device]: [sargo]`, followed by any line
   * ending (none, `\n`, `\r\n`), gives the code between the last brackets.
   */
  lemma DeviceCodeOfGetprop(code: string, trailer: string)
    requires !Contains(code, "[") && NoSpace(code) && code != []
    requires AllSpace(trailer)
    ensures DeviceCodeOf(GetpropLine(code, trailer)) == code
  {
    GetpropTail(code, trailer);
    StripPadded([], code + "]", trailer);
    assert [] + (code + "]") + trailer == code + "]" + trailer;
    assert DropLast(code + "]", 1) == code;
    StripKeeps(code);
  }
}
