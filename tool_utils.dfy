/**
 * The older tool helpers: running a command line through the shell with the
 * tool name rewritten to its path inside `bin_path`, and reading the device
 * code from `getprop`.
 */
module ToolUtils {
  import opened Wrappers
  import opened PyStr
  import Tooling

  /**
   * The escape a replacement template gives for `\\` followed by `c`, for a
   * pattern without groups: a doubled backslash is one backslash, the seven
   * letter escapes are control characters, any other ASCII letter or digit
   * is refused (`re.error`), and any other character keeps its backslash.
   */
  function EscapeOf(c: char): Option<string>
  {
    if c == '\\' then Some("\\")
    else if c == 'a' then Some(['\U{7}'])
    else if c == 'b' then Some(['\U{8}'])
    else if c == 'f' then Some(['\U{c}'])
    else if c == 'n' then Some(['\n'])
    else if c == 'r' then Some(['\r'])
    else if c == 't' then Some(['\t'])
    else if c == 'v' then Some(['\U{b}'])
    else if 'a' <= c <= 'z' || 'A' <= c <= 'Z' || '0' <= c <= '9' then None
    else Some(['\\', c])
  }

  function Prepend(t: string, r: Result<string>): Result<string>
  {
    match r
    case Success(v) => Success(t + v)
    case Failure(e) => Failure(e)
  }

  /**
   * The text a `re.sub` replacement template stands for: every backslash
   * starts an escape, and a refused escape or a trailing backslash raises
   * `re.error`.
   */
  function Expand(repl: string): (r: Result<string>)
    ensures r.Failure? ==> r.error == "re.error" && '\\' in repl
    ensures r.Success? ==> |r.value| <= |repl|
    decreases |repl|
  {
    if repl == [] then Success([])
    else if repl[0] != '\\' then Prepend([repl[0]], Expand(repl[1..]))
    else if |repl| == 1 then Failure("re.error")
    else
      match EscapeOf(repl[1])
      case None => Failure("re.error")
      case Some(t) => Prepend(t, Expand(repl[2..]))
  }

  /** A template without backslashes stands for itself. */
  lemma {:induction false} ExpandPlain(repl: string)
    requires '\\' !in repl
    ensures Expand(repl) == Success(repl)
    decreases |repl|
  {
    if repl != [] {
      assert repl[0] in repl;
      assert forall i :: 1 <= i < |repl| ==> repl[1..][i - 1] == repl[i];
      ExpandPlain(repl[1..]);
      assert [repl[0]] + repl[1..] == repl;
    }
  }

  /** Text without backslashes in front of a template is copied in front of what it stands for. */
  lemma {:induction false} ExpandPlainPrefix(a: string, b: string)
    requires '\\' !in a
    ensures Expand(a + b) == Prepend(a, Expand(b))
    decreases |a|
  {
    if a == [] {
      assert a + b == b;
      match Expand(b)
      case Success(v) => assert a + v == v;
      case Failure(e) =>
    } else {
      assert a[0] in a;
      assert (a + b)[0] == a[0] && (a + b)[1..] == a[1..] + b;
      assert forall i :: 1 <= i < |a| ==> a[1..][i - 1] == a[i];
      ExpandPlainPrefix(a[1..], b);
      match Expand(b)
      case Success(v) => assert [a[0]] + (a[1..] + v) == a + v;
      case Failure(e) =>
    }
  }

  /** An accepted escape in front of a template is replaced by what it stands for. */
  lemma ExpandEscape(c: char, b: string)
    requires EscapeOf(c).Some?
    ensures Expand(['\\', c] + b) == Prepend(EscapeOf(c).value, Expand(b))
  {
    var t := ['\\', c] + b;
    assert t[0] == '\\' && t[1] == c && t[2..] == b;
  }

  /** `re.sub("^" + pat, s)` with a literal replacement: the anchored pattern can only match where the text starts. */
  function SubLeading(s: string, pat: string, repl: string): string
  {
    if StartsWith(s, pat) then repl + s[|pat|..] else s
  }

  /**
   * `re.sub("^" + pat, repl, s)` as Python runs it: the replacement is read
   * as a template, which raises when it holds a refused escape, and what it
   * stands for replaces a leading match.
   */
  function Sub(s: string, pat: string, repl: string): Result<string>
  {
    match Expand(repl)
    case Failure(e) => Failure(e)
    case Success(t) => Success(SubLeading(s, pat, t))
  }

  function Then(r: Result<string>, pat: string, repl: string): Result<string>
  {
    match r
    case Failure(e) => Failure(e)
    case Success(c) => Sub(c, pat, repl)
  }

  /** The three rewrites of `call_tool_with_command`, each applied to the result of the one before. */
  function RewriteAsWritten(command: string, binPath: string, sep: string): Result<string>
  {
    var c1 := Sub(command, "adb", Tooling.JoinPath(binPath, "adb", sep));
    var c2 := Then(c1, "fastboot", Tooling.JoinPath(binPath, "fastboot", sep));
    Then(c2, "heimdall", Tooling.JoinPath(binPath, "heimdall", sep))
  }

  /** The rewrites with each tool path taken literally, as the newer helpers build it. */
  function Rewrite(command: string, binPath: string, sep: string): string
  {
    var c1 := SubLeading(command, "adb", Tooling.JoinPath(binPath, "adb", sep));
    var c2 := SubLeading(c1, "fastboot", Tooling.JoinPath(binPath, "fastboot", sep));
    SubLeading(c2, "heimdall", Tooling.JoinPath(binPath, "heimdall", sep))
  }

  /**
   * `call_tool_with_command`: the shell runs the rewritten command line and
   * `shell` answers with its exit code; the result is true iff that is 0. A
   * tool path that is not a valid template raises before the shell runs.
   */
  method CallToolWithCommand(command: string, binPath: string, sep: string, shell: string -> int)
    returns (ok: Result<bool>, issued: Option<string>)
    ensures issued.Some? <==> RewriteAsWritten(command, binPath, sep).Success?
    ensures issued.Some? ==> issued.value == RewriteAsWritten(command, binPath, sep).value
    ensures ok.Failure? <==> issued.None?
    ensures ok.Failure? ==> ok.error == "re.error"
    ensures ok.Success? ==> (ok.value <==> shell(issued.value) == 0)
  {
    var c := Sub(command, "adb", Tooling.JoinPath(binPath, "adb", sep));
    if c.Failure? {
      return Failure(c.error), None;
    }
    c := Sub(c.value, "fastboot", Tooling.JoinPath(binPath, "fastboot", sep));
    if c.Failure? {
      return Failure(c.error), None;
    }
    c := Sub(c.value, "heimdall", Tooling.JoinPath(binPath, "heimdall", sep));
    if c.Failure? {
      return Failure(c.error), None;
    }
    issued := Some(c.value);
    ok := Success(shell(c.value) == 0);
  }

  /** With a bin path and separator free of backslashes, Python's rewrite is the literal one. */
  lemma RewriteBackslashFree(command: string, binPath: string, sep: string)
    requires '\\' !in binPath && '\\' !in sep
    ensures RewriteAsWritten(command, binPath, sep) == Success(Rewrite(command, binPath, sep))
  {
    JoinPlain(binPath, "adb", sep);
    JoinPlain(binPath, "fastboot", sep);
    JoinPlain(binPath, "heimdall", sep);
  }

  lemma JoinPlain(binPath: string, tool: string, sep: string)
    requires '\\' !in binPath && '\\' !in sep && '\\' !in tool
    ensures Expand(Tooling.JoinPath(binPath, tool, sep)) == Success(Tooling.JoinPath(binPath, tool, sep))
  {
    ExpandPlain(Tooling.JoinPath(binPath, tool, sep));
  }

  /** An accepted escape after text without backslashes: both are replaced, and the rest is expanded on its own. */
  lemma ExpandStep(a: string, c: char, b: string)
    requires '\\' !in a && EscapeOf(c).Some?
    ensures Expand(a + (['\\', c] + b)) == Prepend(a + EscapeOf(c).value, Expand(b))
  {
    ExpandPlainPrefix(a, ['\\', c] + b);
    ExpandEscape(c, b);
    match Expand(b)
    case Success(v) => assert a + (EscapeOf(c).value + v) == a + EscapeOf(c).value + v;
    case Failure(e) =>
  }

  /** A template that stands for some text can be followed by another: the two expand on their own. */
  lemma {:induction false} ExpandConcat(a: string, b: string)
    requires Expand(a).Success?
    ensures Expand(a + b) == Prepend(Expand(a).value, Expand(b))
    decreases |a|
  {
    if a == [] {
      assert a + b == b;
      match Expand(b)
      case Success(v) => assert [] + v == v;
      case Failure(e) =>
    } else if a[0] != '\\' {
      assert (a + b)[0] == a[0] && (a + b)[1..] == a[1..] + b;
      ExpandConcat(a[1..], b);
      match Expand(b)
      case Success(v) => assert [a[0]] + (Expand(a[1..]).value + v) == [a[0]] + Expand(a[1..]).value + v;
      case Failure(e) =>
    } else {
      assert |a| >= 2;
      var t := EscapeOf(a[1]).value;
      assert (a + b)[0] == '\\' && (a + b)[1] == a[1] && (a + b)[2..] == a[2..] + b;
      ExpandConcat(a[2..], b);
      match Expand(b)
      case Success(v) => assert t + (Expand(a[2..]).value + v) == t + Expand(a[2..]).value + v;
      case Failure(e) =>
    }
  }

  /**
   * On Windows the separator is a backslash, so the heimdall path ends in
   * `\heimdall`, whose `\h` is a refused escape: once the bin path is
   * itself a valid template, every command raises, whether or not it
   * names heimdall.
   */
  lemma WindowsCallRaises(command: string, binPath: string)
    requires binPath != "" && binPath != "." && Expand(binPath).Success?
    ensures RewriteAsWritten(command, binPath, "\\") == Failure("re.error")
  {
    var h := "\\" + "heimdall";
    assert h[0] == '\\' && h[1] == 'h';
    assert Expand(h) == Failure("re.error");
    ExpandConcat(binPath, h);
    assert Tooling.JoinPath(binPath, "heimdall", "\\") == binPath + h;
  }

  /**
   * The adb path under `x\ty\bz` is read as `x`, a tab, `y`, a backspace,
   * `z`, a bell and `db`: with bin path `C:\tools\bin`, the first rewrite
   * already turns `adb` into `C:<tab>ools<backspace>in<bell>db`.
   */
  lemma AdbPathMangled(x: string, y: string, z: string)
    requires '\\' !in x && '\\' !in y && '\\' !in z
    ensures Expand(Tooling.JoinPath(x + (['\\', 't'] + (y + (['\\', 'b'] + z))), "adb", "\\"))
         == Success(x + (['\t'] + (y + (['\U{8}'] + (z + (['\U{7}'] + "db"))))))
  {
    var binPath := x + (['\\', 't'] + (y + (['\\', 'b'] + z)));
    var tail := z + (['\\', 'a'] + "db");
    assert Tooling.JoinPath(binPath, "adb", "\\") == x + (['\\', 't'] + (y + (['\\', 'b'] + tail)));
    ExpandStep(z, 'a', "db");
    ExpandPlain("db");
    var et := z + (['\U{7}'] + "db");
    assert Expand(tail) == Success(z + ['\U{7}'] + "db");
    assert z + ['\U{7}'] + "db" == et;
    var mid := y + (['\\', 'b'] + tail);
    ExpandStep(y, 'b', tail);
    assert Expand(mid) == Success(y + ['\U{8}'] + et);
    assert y + ['\U{8}'] + et == y + (['\U{8}'] + et);
    ExpandStep(x, 't', mid);
    assert Expand(x + (['\\', 't'] + mid)) == Success(x + ['\t'] + (y + (['\U{8}'] + et)));
    assert x + ['\t'] + (y + (['\U{8}'] + et)) == x + (['\t'] + (y + (['\U{8}'] + et)));
  }

  /** A bin path under `C:\Users` holds the refused escape `\U`, so every command raises. */
  lemma UsersPathRaises(command: string, rest: string)
    requires '\\' !in rest
    ensures RewriteAsWritten(command, "C:\\Users" + rest, "\\") == Failure("re.error")
  {
    var p := Tooling.JoinPath("C:\\Users" + rest, "adb", "\\");
    assert p[2] == '\\' && p[3] == 'U';
    assert Expand(p[2..]) == Failure("re.error");
    assert Expand(p[1..]).Failure?;
  }

  /**
   * A command line starting with a tool name has that name replaced by the
   * tool's path and the rest kept, as long as the path does not itself
   * start with a later tool's name (it does not when the bin path starts
   * with neither `f` nor `h`). The name need not be a whole word: `adbkey`
   * becomes the path followed by `key`. Python's rewrite agrees when the
   * bin path and separator hold no backslash.
   */
  lemma RewriteLeading(tool: string, rest: string, binPath: string, sep: string)
    requires tool in Tooling.Tools
    requires binPath == [] || (binPath[0] != 'f' && binPath[0] != 'h')
    ensures Rewrite(tool + rest, binPath, sep) == Tooling.JoinPath(binPath, tool, sep) + rest
    ensures '\\' !in binPath && '\\' !in sep ==>
              RewriteAsWritten(tool + rest, binPath, sep) == Success(Tooling.JoinPath(binPath, tool, sep) + rest)
  {
    var p := Tooling.JoinPath(binPath, tool, sep);
    assert p != [] && p[0] == if binPath == [] || binPath == "." then tool[0] else binPath[0];
    SubHit(tool, rest, p);
    if tool == "adb" {
      SubMiss(p + rest, "fastboot", Tooling.JoinPath(binPath, "fastboot", sep));
      SubMiss(p + rest, "heimdall", Tooling.JoinPath(binPath, "heimdall", sep));
    } else if tool == "fastboot" {
      SubMiss(tool + rest, "adb", Tooling.JoinPath(binPath, "adb", sep));
      SubMiss(p + rest, "heimdall", Tooling.JoinPath(binPath, "heimdall", sep));
    } else {
      SubMiss(tool + rest, "adb", Tooling.JoinPath(binPath, "adb", sep));
      SubMiss(tool + rest, "fastboot", Tooling.JoinPath(binPath, "fastboot", sep));
    }
    if '\\' !in binPath && '\\' !in sep {
      RewriteBackslashFree(tool + rest, binPath, sep);
    }
  }

  /** A leading match is replaced by what the template stands for, and a refused template raises. */
  lemma SubHit(pat: string, rest: string, repl: string)
    ensures SubLeading(pat + rest, pat, repl) == repl + rest
    ensures Expand(repl).Success? ==> Sub(pat + rest, pat, repl) == Success(Expand(repl).value + rest)
    ensures Expand(repl).Failure? ==> Sub(pat + rest, pat, repl) == Failure("re.error")
  {
    assert (pat + rest)[..|pat|] == pat;
    assert (pat + rest)[|pat|..] == rest;
  }

  /** A text whose first character differs is left alone, unless the template raises. */
  lemma SubMiss(s: string, pat: string, repl: string)
    requires s != [] && pat != [] && s[0] != pat[0]
    ensures SubLeading(s, pat, repl) == s
    ensures Expand(repl).Success? ==> Sub(s, pat, repl) == Success(s)
    ensures Expand(repl).Failure? ==> Sub(s, pat, repl) == Failure("re.error")
  {
  }

  /** A command line that starts with no tool name reaches the shell unchanged, unless a tool path raises. */
  lemma RewriteOther(command: string, binPath: string, sep: string)
    requires !StartsWith(command, "adb") && !StartsWith(command, "fastboot") && !StartsWith(command, "heimdall")
    ensures Rewrite(command, binPath, sep) == command
    ensures '\\' !in binPath && '\\' !in sep ==> RewriteAsWritten(command, binPath, sep) == Success(command)
  {
    if '\\' !in binPath && '\\' !in sep {
      RewriteBackslashFree(command, binPath, sep);
    }
  }

  /**
   * The rewrites are applied in turn, so a relative bin path named after a
   * later tool is rewritten again: with bin path `fastboot`, `adb devices`
   * becomes `fastboot/fastboot/adb devices`. Python's rewrite agrees when
   * the bin path and separator hold no backslash.
   */
  lemma RewriteCascade(binPath: string, sep: string, rest: string)
    requires StartsWith(binPath, "fastboot")
    ensures Rewrite("adb" + rest, binPath, sep)
         == binPath + sep + "fastboot" + binPath[8..] + sep + "adb" + rest
    ensures '\\' !in binPath && '\\' !in sep ==>
              (RewriteAsWritten("adb" + rest, binPath, sep)
               == Success(binPath + sep + "fastboot" + binPath[8..] + sep + "adb" + rest))
  {
    var c1 := binPath + sep + "adb" + rest;
    SubHit("adb", rest, binPath + sep + "adb");
    assert c1 == "fastboot" + (binPath[8..] + sep + "adb" + rest);
    var p := binPath + sep + "fastboot";
    SubHit("fastboot", binPath[8..] + sep + "adb" + rest, p);
    var c2 := p + (binPath[8..] + sep + "adb" + rest);
    assert c2 == binPath + sep + "fastboot" + binPath[8..] + sep + "adb" + rest;
    assert c2[0] == 'f';
    SubMiss(c2, "heimdall", binPath + sep + "heimdall");
    if '\\' !in binPath && '\\' !in sep {
      RewriteBackslashFree("adb" + rest, binPath, sep);
    }
  }

  /** The argument vector of the getprop query, or none for an unknown platform. */
  function SearchArgv(platform: string, binPath: string): Option<Tooling.Argv>
  {
    if platform == "linux" || platform == "darwin" then
      Some([Tooling.JoinPath(binPath, "adb", "/"), "shell", "getprop", "|", "grep", "ro.product.device"])
    else if platform == "windows" then
      Some([Tooling.JoinPath(binPath, "adb", "\\"), "shell", "getprop", "|", "findstr", "ro.product.device"])
    else None
  }

  /** `output.split("[")[-1][:-2].strip()`: the text after the last `[` without its last two characters. */
  function DeviceCodeOf(output: string): (r: string)
    ensures !Contains(r, "[")
  {
    var tail := AfterLast(output, "[");
    SliceLacks(tail, "[", 0, |DropLast(tail, 2)|);
    StripLacks(DropLast(tail, 2), "[");
    Strip(DropLast(tail, 2))
  }

  /** `search_device(platform, bin_path)` of the older helpers. */
  function SearchDevice(platform: string, binPath: string, probe: Tooling.Argv -> Tooling.Probe): (r: Result<Option<string>>)
    ensures r.Failure? <==> SearchArgv(platform, binPath).None?
    ensures r.Failure? ==> r.error == "Unknown platform " + platform + "."
    ensures r.Success? ==>
              (r.value.None? <==> probe(SearchArgv(platform, binPath).value).ProcessError?)
    ensures r.Success? && r.value.Some? ==> r.value.value == DeviceCodeOf(probe(SearchArgv(platform, binPath).value).text)
  {
    match SearchArgv(platform, binPath)
    case None => Failure("Unknown platform " + platform + ".")
    case Some(argv) =>
      match probe(argv)
      case ProcessError => Success(None)
      case Output(text) => Success(Some(DeviceCodeOf(text)))
  }

  /** With exactly one character after the closing bracket, the code comes out whole. */
  lemma DeviceCodeOfNewline(code: string)
    requires !Contains(code, "[") && NoSpace(code) && code != []
    ensures DeviceCodeOf(Tooling.GetpropLine(code, "\n")) == code
  {
    Tooling.GetpropTail(code, "\n");
    assert DropLast(code + "]" + "\n", 2) == code;
    StripKeeps(code);
  }

  /** A `\r\n` line ending leaves the closing bracket on the code. */
  lemma DeviceCodeOfCrlf(code: string)
    requires !Contains(code, "[") && NoSpace(code) && code != []
    ensures DeviceCodeOf(Tooling.GetpropLine(code, "\r\n")) == code + "]"
    ensures Tooling.DeviceCodeOf(Tooling.GetpropLine(code, "\r\n")) == code
  {
    Tooling.GetpropTail(code, "\r\n");
    assert DropLast(code + "]" + "\r\n", 2) == code + "]";
    StripKeeps(code + "]");
    Tooling.DeviceCodeOfGetprop(code, "\r\n");
  }

  /** Output without a line ending loses the code's last character. */
  lemma DeviceCodeOfBare(code: string)
    requires !Contains(code, "[") && NoSpace(code) && code != []
    ensures DeviceCodeOf(Tooling.GetpropLine(code, "")) == code[..|code| - 1]
  {
    Tooling.GetpropTail(code, "");
    assert DropLast(code + "]" + "", 2) == code[..|code| - 1];
    StripKeeps(code[..|code| - 1]);
  }
}
