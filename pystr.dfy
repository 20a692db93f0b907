/**
 * The pieces of Python's `str` behaviour that the installer relies on:
 * `strip`, `in`, `find`, `split(sep)`, `split(sep, 1)`, `split()`,
 * `splitlines`, `replace`, `startswith`, negative slices and `str.join`.
 */
module PyStr {
  import opened Wrappers

  /** `c.isspace()` */
  predicate IsSpace(c: char)
  {
    (c <= ' ' && (c == ' ' || '\t' <= c <= '\r' || '\U{001C}' <= c))
    || ('\U{0085}' <= c && (c == '\U{0085}' || c == '\U{00A0}' || c == '\U{1680}'
        || ('\U{2000}' <= c <= '\U{200A}') || c == '\U{2028}' || c == '\U{2029}' || c == '\U{202F}'
        || c == '\U{205F}' || c == '\U{3000}'))
  }

  /** The line boundaries of `str.splitlines` (`\r\n` counts as one). */
  predicate IsLineBreak(c: char)
  {
    c == '\n' || c == '\r' || c == '\U{000B}' || c == '\U{000C}' || ('\U{001C}' <= c <= '\U{001E}')
    || c == '\U{0085}' || c == '\U{2028}' || c == '\U{2029}'
  }

  predicate NoSpace(s: string)
  {
    forall i :: 0 <= i < |s| ==> !IsSpace(s[i])
  }

  /** `s.lstrip()`: drops exactly the leading whitespace. */
  function LStrip(s: string): (r: string)
    ensures |r| <= |s| && r == s[|s| - |r|..]
    ensures r == [] || !IsSpace(r[0])
    ensures forall i :: 0 <= i < |s| - |r| ==> IsSpace(s[i])
  {
    if s != [] && IsSpace(s[0]) then
      var r := LStrip(s[1..]);
      assert forall i :: 1 <= i < |s| - |r| ==> s[i] == s[1..][i - 1];
      r
    else s
  }

  /** `s.rstrip()`: drops exactly the trailing whitespace. */
  function RStrip(s: string): (r: string)
    ensures |r| <= |s| && r == s[..|r|]
    ensures r == [] || !IsSpace(r[|r| - 1])
    ensures forall i :: |r| <= i < |s| ==> IsSpace(s[i])
  {
    if s != [] && IsSpace(s[|s| - 1]) then
      var r := RStrip(s[..|s| - 1]);
      assert forall i :: |r| <= i < |s| - 1 ==> s[i] == s[..|s| - 1][i];
      r
    else s
  }

  /** `s.strip()` */
  function Strip(s: string): (r: string)
    ensures |r| <= |s|
    ensures r == [] || (!IsSpace(r[0]) && !IsSpace(r[|r| - 1]))
  {
    RStrip(LStrip(s))
  }

  /** A string with no whitespace at either end is its own strip. */
  lemma StripKeeps(s: string)
    requires s == [] || (!IsSpace(s[0]) && !IsSpace(s[|s| - 1]))
    ensures Strip(s) == s
  {
  }

  lemma StripIdempotent(s: string)
    ensures Strip(Strip(s)) == Strip(s)
  {
    StripKeeps(Strip(s));
  }

  /** Stripping never looks past whitespace: padding is removed and the core kept. */
  lemma StripPadded(pre: string, core: string, post: string)
    requires forall i :: 0 <= i < |pre| ==> IsSpace(pre[i])
    requires forall i :: 0 <= i < |post| ==> IsSpace(post[i])
    requires core == [] || (!IsSpace(core[0]) && !IsSpace(core[|core| - 1]))
    ensures Strip(pre + core + post) == core
  {
    if core == [] {
      assert pre + core + post == pre + post;
      LStripAllSpace(pre + post);
    } else {
      assert pre + core + post == pre + (core + post);
      LStripPadded(pre, core + post);
      RStripPadded(core, post);
    }
  }

  lemma {:induction false} LStripPadded(pre: string, rest: string)
    requires forall i :: 0 <= i < |pre| ==> IsSpace(pre[i])
    requires rest == [] || !IsSpace(rest[0])
    ensures LStrip(pre + rest) == rest
  {
    if pre != [] {
      assert (pre + rest)[1..] == pre[1..] + rest;
      LStripPadded(pre[1..], rest);
    }
  }

  lemma {:induction false} RStripPadded(core: string, post: string)
    requires core != [] && !IsSpace(core[|core| - 1])
    requires forall i :: 0 <= i < |post| ==> IsSpace(post[i])
    ensures RStrip(core + post) == core
  {
    if post == [] {
      assert core + post == core;
    } else {
      assert (core + post)[..|core + post| - 1] == core + post[..|post| - 1];
      RStripPadded(core, post[..|post| - 1]);
    }
  }

  lemma {:induction false} LStripAllSpace(s: string)
    requires forall i :: 0 <= i < |s| ==> IsSpace(s[i])
    ensures LStrip(s) == []
  {
    if s != [] {
      LStripAllSpace(s[1..]);
    }
  }

  /** `s.startswith(p)` */
  predicate StartsWith(s: string, p: string)
  {
    |p| <= |s| && s[..|p|] == p
  }

  /** `p` occurs in `s` at index `i`. */
  predicate At(s: string, p: string, i: int)
  {
    0 <= i && i + |p| <= |s| && s[i..i + |p|] == p
  }

  function FindFrom(s: string, p: string, i: nat): (r: Option<nat>)
    requires i <= |s|
    ensures r.Some? ==> i <= r.value && At(s, p, r.value)
    ensures r.Some? ==> forall j :: i <= j < r.value ==> !At(s, p, j)
    ensures r.None? ==> forall j :: i <= j <= |s| ==> !At(s, p, j)
    decreases |s| - i
  {
    if At(s, p, i) then Some(i) else if i == |s| then None else FindFrom(s, p, i + 1)
  }

  /** `s.find(p)`, with `None` for -1: the first occurrence. */
  function Find(s: string, p: string): (r: Option<nat>)
    ensures r.Some? ==> At(s, p, r.value) && forall j :: 0 <= j < r.value ==> !At(s, p, j)
    ensures r.None? ==> forall j :: 0 <= j <= |s| ==> !At(s, p, j)
  {
    FindFrom(s, p, 0)
  }

  /** `p in s` */
  predicate Contains(s: string, p: string)
  {
    Find(s, p).Some?
  }

  lemma ContainsAt(s: string, p: string, i: int)
    requires At(s, p, i)
    ensures Contains(s, p)
  {
  }

  /** Any string that has `p` written into it contains `p`. */
  lemma ContainsInfix(a: string, p: string, b: string)
    ensures Contains(a + p + b, p)
  {
    assert (a + p + b)[|a|..|a| + |p|] == p;
    ContainsAt(a + p + b, p, |a|);
  }

  lemma NotContainsPrefix(s: string, p: string, n: nat)
    requires p != [] && n <= |s|
    requires forall j :: 0 <= j < n ==> !At(s, p, j)
    ensures !Contains(s[..n], p)
  {
    if Contains(s[..n], p) {
      var j := Find(s[..n], p).value;
      assert s[..n][j..j + |p|] == s[j..j + |p|];
      assert At(s, p, j);
    }
  }

  /** A piece of a string that lacks `p` lacks it too. */
  lemma SliceLacks(s: string, p: string, i: nat, j: nat)
    requires i <= j <= |s| && !Contains(s, p)
    ensures !Contains(s[i..j], p)
  {
    var t := s[i..j];
    if Contains(t, p) {
      var k := Find(t, p).value;
      assert At(t, p, k);
      assert k + |p| <= |t| == j - i;
      var a, b := t[k..k + |p|], s[i + k..i + k + |p|];
      forall m | 0 <= m < |p|
        ensures a[m] == b[m]
      {
        assert t[k + m] == s[i + k + m];
      }
      assert a == b;
      ContainsAt(s, p, i + k);
    }
  }

  /** Stripping cannot bring `p` into a string that lacks it. */
  lemma StripLacks(s: string, p: string)
    requires !Contains(s, p)
    ensures !Contains(Strip(s), p)
  {
    var l := LStrip(s);
    SliceLacks(s, p, |s| - |l|, |s|);
    assert l == s[|s| - |l|..|s|];
    SliceLacks(l, p, 0, |RStrip(l)|);
  }

  /** `sep.join(parts)` */
  function JoinWith(parts: seq<string>, sep: string): string
  {
    if |parts| == 0 then "" else if |parts| == 1 then parts[0] else parts[0] + sep + JoinWith(parts[1..], sep)
  }

  /** Text in front does not hide an occurrence. */
  lemma ContainsAfter(a: string, b: string, p: string)
    requires Contains(b, p)
    ensures Contains(a + b, p)
  {
    var i := Find(b, p).value;
    assert (a + b)[|a| + i..|a| + i + |p|] == b[i..i + |p|];
    ContainsAt(a + b, p, |a| + i);
  }

  /** Every part shows up in the joined text. */
  lemma {:induction false} JoinWithHas(parts: seq<string>, sep: string, k: nat)
    requires k < |parts|
    ensures Contains(JoinWith(parts, sep), parts[k])
    decreases k
  {
    if |parts| == 1 {
      ContainsInfix("", parts[0], "");
      assert "" + parts[0] + "" == parts[0];
    } else {
      var rest := JoinWith(parts[1..], sep);
      assert JoinWith(parts, sep) == parts[0] + sep + rest;
      if k == 0 {
        ContainsInfix("", parts[0], sep + rest);
        assert "" + parts[0] + (sep + rest) == parts[0] + sep + rest;
      } else {
        assert parts[1..][k - 1] == parts[k];
        JoinWithHas(parts[1..], sep, k - 1);
        ContainsAfter(parts[0] + sep, rest, parts[k]);
      }
    }
  }

  /** Every part shows up after any prefix. */
  lemma JoinedHasAll(pre: string, parts: seq<string>, sep: string)
    ensures forall k :: 0 <= k < |parts| ==> Contains(pre + JoinWith(parts, sep), parts[k])
  {
    forall k | 0 <= k < |parts|
      ensures Contains(pre + JoinWith(parts, sep), parts[k])
    {
      JoinWithHas(parts, sep, k);
      ContainsAfter(pre, JoinWith(parts, sep), parts[k]);
    }
  }

  /**
   * `s.split(sep)` for a non-empty separator: the pieces between the
   * occurrences of `sep`, scanned left to right. Joining them back with `sep`
   * gives `s`, and no piece contains `sep`.
   */
  function SplitOn(s: string, sep: string): (r: seq<string>)
    requires sep != []
    ensures |r| >= 1
    ensures JoinWith(r, sep) == s
    ensures forall k :: 0 <= k < |r| ==> !Contains(r[k], sep)
    decreases |s|
  {
    match Find(s, sep)
    case None =>
      assert s[..|s|] == s;
      NotContainsPrefix(s, sep, |s|);
      [s]
    case Some(i) =>
      var rest := SplitOn(s[i + |sep|..], sep);
      assert s == s[..i] + sep + s[i + |sep|..];
      NotContainsPrefix(s, sep, i);
      [s[..i]] + rest
  }

  /** `s.split(sep)[0]`: the text before the first `sep`, or all of `s`. */
  function Before(s: string, sep: string): string
    requires sep != []
  {
    SplitOn(s, sep)[0]
  }

  /** `s.split(sep)[-1]`: the text after the last `sep`, or all of `s`. */
  function AfterLast(s: string, sep: string): string
    requires sep != []
  {
    var parts := SplitOn(s, sep); parts[|parts| - 1]
  }

  /** Joining with one more piece at the end. */
  lemma {:induction false} JoinWithSnoc(parts: seq<string>, sep: string)
    requires |parts| >= 2
    ensures JoinWith(parts, sep) == JoinWith(parts[..|parts| - 1], sep) + sep + parts[|parts| - 1]
    decreases |parts|
  {
    var n := |parts|;
    if n == 2 {
      assert parts[..1] == [parts[0]];
      assert parts[1..] == [parts[1]];
    } else {
      JoinWithSnoc(parts[1..], sep);
      assert parts[1..][..n - 2] == parts[..n - 1][1..];
      assert parts[1..][n - 2] == parts[n - 1];
    }
  }

  /** Two separator-free tails, each after a one-character separator, of one string are equal. */
  lemma TailAfterSep(x: string, p: string, y: string, b: string, sep: string)
    requires |sep| == 1 && x + sep + p == y + sep + b
    requires !Contains(p, sep) && !Contains(b, sep)
    ensures p == b
  {
    var s := x + sep + p;
    assert sep == [sep[0]];
    assert s[|x|] == sep[0] && s[|y|] == sep[0];
    if |p| < |b| {
      var i := |b| - |p| - 1;
      assert b[i] == s[|y| + 1 + i];
      assert b[i..i + 1] == sep;
      ContainsAt(b, sep, i);
    } else if |p| > |b| {
      var i := |p| - |b| - 1;
      assert p[i] == s[|x| + 1 + i];
      assert p[i..i + 1] == sep;
      ContainsAt(p, sep, i);
    } else {
      assert p == s[|s| - |p|..];
      assert b == s[|s| - |b|..];
    }
  }

  /** `(a + sep + b).split(sep)[-1] == b` when `b` holds no separator. */
  lemma AfterLastOf(a: string, sep: string, b: string)
    requires |sep| == 1 && !Contains(b, sep)
    ensures AfterLast(a + sep + b, sep) == b
  {
    var s := a + sep + b;
    var r := SplitOn(s, sep);
    var n := |r|;
    ContainsInfix(a, sep, b);
    assert n >= 2;
    JoinWithSnoc(r, sep);
    TailAfterSep(JoinWith(r[..n - 1], sep), r[n - 1], a, b, sep);
  }

  /** Every character is whitespace. */
  predicate AllSpace(s: string)
  {
    forall i :: 0 <= i < |s| ==> IsSpace(s[i])
  }

  /** A closing bracket and trailing whitespace add no `[` to a bracket-free text. */
  lemma BracketFree(code: string, trailer: string)
    requires !Contains(code, "[") && AllSpace(trailer)
    ensures !Contains(code + "]" + trailer, "[")
  {
    var tail := code + "]" + trailer;
    if Contains(tail, "[") {
      var i := Find(tail, "[").value;
      assert tail[i..i + 1] == "[";
      if i < |code| {
        assert code[i..i + 1] == tail[i..i + 1];
        ContainsAt(code, "[", i);
      }
    }
  }

  lemma BeforeAbsent(s: string, sep: string)
    requires sep != [] && !Contains(s, sep)
    ensures Before(s, sep) == s && AfterLast(s, sep) == s
  {
  }

  /** The text in front of a first one-character separator is what `Before` gives back. */
  lemma BeforeFirst(a: string, sep: string, b: string)
    requires |sep| == 1 && !Contains(a, sep)
    ensures Before(a + sep + b, sep) == a
  {
    var s := a + sep + b;
    ContainsInfix(a, sep, b);
    var i := Find(s, sep).value;
    assert s[|a|..|a| + |sep|] == sep;
    assert At(s, sep, |a|);
    if i < |a| {
      assert a[i..i + 1] == s[i..i + 1];
      ContainsAt(a, sep, i);
    }
    assert i == |a|;
    assert s[..|a|] == a;
  }

  /** `s.split(sep, 1)`: at most two pieces, cut at the first `sep`. */
  function SplitFirst(s: string, sep: string): (r: seq<string>)
    requires sep != []
    ensures 1 <= |r| <= 2 && JoinWith(r, sep) == s
    ensures |r| == 1 <==> !Contains(s, sep)
    ensures !Contains(r[0], sep)
  {
    match Find(s, sep)
    case None =>
      assert s[..|s|] == s;
      NotContainsPrefix(s, sep, |s|);
      [s]
    case Some(i) =>
      assert s == s[..i] + sep + s[i + |sep|..];
      NotContainsPrefix(s, sep, i);
      [s[..i], s[i + |sep|..]]
  }

  /** The longest whitespace-free prefix of `s`. */
  function TakeWord(s: string): (r: string)
    ensures |r| <= |s| && r == s[..|r|] && NoSpace(r)
    ensures |r| == |s| || IsSpace(s[|r|])
  {
    if s == [] || IsSpace(s[0]) then [] else [s[0]] + TakeWord(s[1..])
  }

  /** `s.split()`: the maximal runs of non-whitespace, in order. */
  function Words(s: string): (r: seq<string>)
    ensures forall k :: 0 <= k < |r| ==> r[k] != [] && NoSpace(r[k])
    decreases |s|
  {
    var t := LStrip(s);
    if t == [] then []
    else
      var w := TakeWord(t);
      assert w != [] by { assert !IsSpace(t[0]); }
      [w] + Words(t[|w|..])
  }

  lemma LStripSpacePrefix(s: string)
    requires s != [] && IsSpace(s[0])
    ensures LStrip(s) == LStrip(s[1..])
  {
  }

  lemma {:induction false} TakeWordOf(w: string, rest: string)
    requires NoSpace(w)
    requires rest == [] || IsSpace(rest[0])
    ensures TakeWord(w + rest) == w
  {
    if w != [] {
      assert (w + rest)[1..] == w[1..] + rest;
      TakeWordOf(w[1..], rest);
    } else {
      assert w + rest == rest;
    }
  }

  /** Leading whitespace does not change the words. */
  lemma WordsSpacePrefix(rest: string)
    ensures Words(" " + rest) == Words(rest)
  {
    LStripSpacePrefix(" " + rest);
    assert (" " + rest)[1..] == rest;
  }

  lemma WordsFirst(s: string, w: string)
    requires s != [] && LStrip(s) == s && TakeWord(s) == w
    ensures Words(s) == [w] + Words(s[|w|..])
  {
  }

  /** A word followed by a space and more text splits into that word first. */
  lemma WordsCons(w: string, rest: string)
    requires w != [] && NoSpace(w)
    ensures Words(w + " " + rest) == [w] + Words(rest)
  {
    var s := w + (" " + rest);
    assert w + " " + rest == s;
    LStripPadded([], s);
    assert [] + s == s;
    TakeWordOf(w, " " + rest);
    assert s[|w|..] == " " + rest;
    WordsFirst(s, w);
    WordsSpacePrefix(rest);
  }

  /** A single word splits into itself. */
  lemma WordsSingle(w: string)
    requires w != [] && NoSpace(w)
    ensures Words(w) == [w]
  {
    LStripPadded([], w);
    assert [] + w == w;
    TakeWordOf(w, []);
    assert w + [] == w;
    WordsFirst(w, w);
    assert w[|w|..] == [];
  }

  lemma WordsOfJoinStep(ws: seq<string>)
    requires |ws| > 1 && ws[0] != [] && NoSpace(ws[0])
    requires Words(JoinWith(ws[1..], " ")) == ws[1..]
    ensures Words(JoinWith(ws, " ")) == ws
  {
    assert ws == [ws[0]] + ws[1..];
    var tail := JoinWith(ws[1..], " ");
    assert JoinWith(ws, " ") == ws[0] + " " + tail;
    WordsCons(ws[0], tail);
  }

  /** Splitting space-joined words gives the words back. */
  lemma {:induction false} WordsOfJoin(ws: seq<string>)
    requires forall k :: 0 <= k < |ws| ==> ws[k] != [] && NoSpace(ws[k])
    ensures Words(JoinWith(ws, " ")) == ws
  {
    if |ws| == 1 {
      WordsSingle(ws[0]);
    } else if |ws| > 1 {
      WordsOfJoin(ws[1..]);
      WordsOfJoinStep(ws);
    }
  }

  /** Index of the first line boundary at or after `i`, or |s|. */
  function LineEnd(s: string, i: nat): (r: nat)
    requires i <= |s|
    ensures i <= r <= |s|
    ensures forall j :: i <= j < r ==> !IsLineBreak(s[j])
    ensures r < |s| ==> IsLineBreak(s[r])
    decreases |s| - i
  {
    if i == |s| || IsLineBreak(s[i]) then i else LineEnd(s, i + 1)
  }

  /** `s.splitlines()`: the lines without their boundaries; no empty last line. */
  function SplitLines(s: string): (r: seq<string>)
    ensures forall k, j :: 0 <= k < |r| && 0 <= j < |r[k]| ==> !IsLineBreak(r[k][j])
    ensures r == [] <==> s == []
    decreases |s|
  {
    if s == [] then []
    else
      var e := LineEnd(s, 0);
      if e == |s| then [s]
      else
        var k := if s[e] == '\r' && e + 1 < |s| && s[e + 1] == '\n' then 2 else 1;
        [s[..e]] + SplitLines(s[e + k..])
  }

  predicate NoLineBreak(s: string)
  {
    forall j :: 0 <= j < |s| ==> !IsLineBreak(s[j])
  }

  /** A non-empty line with no boundary in it is one line. */
  lemma SplitLinesSingle(a: string)
    requires a != [] && NoLineBreak(a)
    ensures SplitLines(a) == [a]
  {
  }

  /** `a + "\n" + b` splits into `a` and then the lines of `b`. */
  lemma SplitLinesCons(a: string, b: string)
    requires NoLineBreak(a)
    ensures SplitLines(a + "\n" + b) == [a] + SplitLines(b)
  {
    var s := a + "\n" + b;
    assert s[|a|] == '\n';
    assert LineEnd(s, 0) == |a|;
    assert s[..|a|] == a;
    assert s[|a| + 1..] == b;
  }

  /**
   * `s.replace(p, q)` for a non-empty pattern: every occurrence, scanned
   * left to right without overlap, is replaced.
   */
  function ReplaceAll(s: string, p: string, q: string): string
    requires p != []
    decreases |s|
  {
    match Find(s, p)
    case None => s
    case Some(i) => s[..i] + q + ReplaceAll(s[i + |p|..], p, q)
  }

  /** `s.replace(p, q) == q.join(s.split(p))`, the identity Python documents. */
  lemma {:induction false} ReplaceIsSplitJoin(s: string, p: string, q: string)
    requires p != []
    ensures ReplaceAll(s, p, q) == JoinWith(SplitOn(s, p), q)
    decreases |s|
  {
    match Find(s, p)
    case None =>
    case Some(i) =>
      ReplaceIsSplitJoin(s[i + |p|..], p, q);
  }

  /** Replacing a pattern that does not occur changes nothing. */
  lemma ReplaceAbsent(s: string, p: string, q: string)
    requires p != [] && !Contains(s, p)
    ensures ReplaceAll(s, p, q) == s
  {
  }

  /** Replacing a pattern by itself changes nothing. */
  lemma ReplaceSelf(s: string, p: string)
    requires p != []
    ensures ReplaceAll(s, p, p) == s
  {
    ReplaceIsSplitJoin(s, p, p);
  }

  /** `s[:-n]` for n >= 1: all but the last n characters, empty when s is shorter. */
  function DropLast(s: string, n: nat): (r: string)
    ensures |r| == if |s| <= n then 0 else |s| - n
    ensures r == s[..|r|]
  {
    if |s| <= n then [] else s[..|s| - n]
  }

  /** `f"{x}"` of an optional string: Python prints `None` for a missing value. */
  function Show(x: Option<string>): string
  {
    match x
    case None => "None"
    case Some(v) => v
  }

  /** The decimal digit for `d`. */
  function Digit(d: nat): char
    requires d < 10
  {
    ('0' as int + d) as char
  }

  predicate IsDigit(c: char)
  {
    '0' <= c <= '9'
  }

  /** `str(n)` for a natural number: its decimal digits, most significant first. */
  function NatToString(n: nat): string
    decreases n
  {
    if n < 10 then [Digit(n)] else NatToString(n / 10) + [Digit(n % 10)]
  }

  /** The number a string of decimal digits denotes (`int(s)`). */
  function DigitsValue(s: string): int
    decreases |s|
  {
    if s == [] then 0 else DigitsValue(s[..|s| - 1]) * 10 + (s[|s| - 1] as int - '0' as int)
  }

  /** `int(str(n)) == n`, and `str(n)` is a non-empty run of digits. */
  lemma {:induction false} NatToStringRoundTrip(n: nat)
    ensures var s := NatToString(n);
            s != [] && (forall i :: 0 <= i < |s| ==> IsDigit(s[i])) && DigitsValue(s) == n
    decreases n
  {
    var s := NatToString(n);
    if n >= 10 {
      NatToStringRoundTrip(n / 10);
      var h := NatToString(n / 10);
      assert s[..|s| - 1] == h;
    }
  }
}
