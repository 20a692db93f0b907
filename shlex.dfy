/**
 * `shlex.split` as `run_command` calls it (openandroidinstaller/tooling.py:40):
 * POSIX mode, no comment characters. Tokens are separated by space, tab,
 * CR and LF; a backslash outside quotes takes the next character
 * literally; single quotes take everything up to the closing quote;
 * inside double quotes a backslash escapes only `"` and `\`. An unclosed
 * quote or a trailing backslash raises ValueError, here `None`.
 */
module Shlex {
  import opened Wrappers
  import opened PyStr

  /** The characters `shlex` separates tokens on. */
  predicate ShSpace(c: char)
  {
    c == ' ' || c == '\t' || c == '\r' || c == '\n'
  }

  /** The escape and the two quote characters. */
  predicate Special(c: char)
  {
    c == '\\' || c == '\'' || c == '"'
  }

  /** Text without quotes or backslashes whose whitespace is exactly what `shlex` splits on. */
  predicate Plain(s: string)
  {
    forall i :: 0 <= i < |s| ==> !Special(s[i]) && (IsSpace(s[i]) <==> ShSpace(s[i]))
  }

  /** Characters that extend a token as they are: no quote, no backslash, no separator. */
  predicate WordChars(s: string)
  {
    forall i :: 0 <= i < |s| ==> !Special(s[i]) && !ShSpace(s[i])
  }

  /** Where the lexer is inside a token. */
  datatype Mode = Word | Single | Double

  /** A token read off the front of the text and the text after it. */
  datatype Lexed = Lexed(token: string, rest: string)

  /** The separators in front of the next token. */
  function SkipWhite(s: string): (r: string)
    ensures |r| <= |s| && r == s[|s| - |r|..]
    ensures r == [] || !ShSpace(r[0])
  {
    if s != [] && ShSpace(s[0]) then SkipWhite(s[1..]) else s
  }

  /**
   * The rest of the token begun as `cur`, read in `mode`; the text after
   * it starts at the separator that ended it. `None` is the ValueError of
   * an unclosed quote or a backslash at the end.
   */
  function ReadToken(s: string, mode: Mode, cur: string): (r: Option<Lexed>)
    ensures r.Some? ==> |r.value.rest| <= |s|
    ensures r.Some? && s != [] && !ShSpace(s[0]) ==> |r.value.rest| < |s|
    decreases |s|
  {
    if s == [] then (if mode == Word then Some(Lexed(cur, [])) else None)
    else match mode
      case Word =>
        if ShSpace(s[0]) then Some(Lexed(cur, s))
        else if s[0] == '\\' then (if |s| < 2 then None else ReadToken(s[2..], Word, cur + [s[1]]))
        else if s[0] == '\'' then ReadToken(s[1..], Single, cur)
        else if s[0] == '"' then ReadToken(s[1..], Double, cur)
        else ReadToken(s[1..], Word, cur + [s[0]])
      case Single =>
        if s[0] == '\'' then ReadToken(s[1..], Word, cur) else ReadToken(s[1..], Single, cur + [s[0]])
      case Double =>
        if s[0] == '"' then ReadToken(s[1..], Word, cur)
        else if s[0] == '\\' then
          if |s| < 2 then None
          else if s[1] == '"' || s[1] == '\\' then ReadToken(s[2..], Double, cur + [s[1]])
          else ReadToken(s[2..], Double, cur + ['\\', s[1]])
        else ReadToken(s[1..], Double, cur + [s[0]])
  }

  /** `shlex.split(s)`, or `None` when it raises ValueError. */
  function Split(s: string): Option<seq<string>>
    decreases |s|
  {
    var t := SkipWhite(s);
    if t == [] then Some([])
    else match ReadToken(t, Word, [])
      case None => None
      case Some(l) =>
        match Split(l.rest)
        case None => None
        case Some(ws) => Some([l.token] + ws)
  }

  lemma PlainSuffix(s: string, k: nat)
    requires Plain(s) && k <= |s|
    ensures Plain(s[k..])
  {
    assert forall i :: 0 <= i < |s| - k ==> s[k..][i] == s[k + i];
  }

  lemma {:induction false} SkipWhitePlain(s: string)
    requires Plain(s)
    ensures SkipWhite(s) == LStrip(s)
    decreases |s|
  {
    if s != [] && ShSpace(s[0]) {
      PlainSuffix(s, 1);
      SkipWhitePlain(s[1..]);
    }
  }

  /** On plain text a token is the run of non-whitespace, as `str.split` reads it. */
  lemma {:induction false} ReadTokenPlain(s: string, cur: string)
    requires Plain(s)
    ensures var w := TakeWord(s);
            ReadToken(s, Word, cur) == Some(Lexed(cur + w, s[|w|..]))
    decreases |s|
  {
    if s == [] {
      assert cur + [] == cur;
    } else if ShSpace(s[0]) {
      assert TakeWord(s) == [];
      assert cur + [] == cur;
    } else {
      PlainSuffix(s, 1);
      ReadTokenPlain(s[1..], cur + [s[0]]);
      var w := TakeWord(s[1..]);
      assert TakeWord(s) == [s[0]] + w;
      assert cur + [s[0]] + w == cur + ([s[0]] + w);
      assert s[1..][|w|..] == s[|w| + 1..];
    }
  }

  /**
   * On text without quotes, backslashes or whitespace other than space,
   * tab, CR and LF, `shlex.split` and `str.split` give the same words.
   */
  lemma {:induction false} SplitPlain(s: string)
    requires Plain(s)
    ensures Split(s) == Some(Words(s))
    decreases |s|
  {
    SkipWhitePlain(s);
    var t := LStrip(s);
    if t != [] {
      PlainSuffix(s, |s| - |t|);
      ReadTokenPlain(t, []);
      var w := TakeWord(t);
      assert [] + w == w;
      PlainSuffix(t, |w|);
      SplitPlain(t[|w|..]);
    }
  }

  /** Plain word characters in front extend the token being read. */
  lemma {:induction false} ReadTokenWordChars(w: string, rest: string, cur: string)
    requires WordChars(w)
    ensures ReadToken(w + rest, Word, cur) == ReadToken(rest, Word, cur + w)
    decreases |w|
  {
    if w == [] {
      assert w + rest == rest && cur + w == cur;
    } else {
      assert (w + rest)[1..] == w[1..] + rest;
      assert WordChars(w[1..]) by { assert forall i :: 0 <= i < |w| - 1 ==> w[1..][i] == w[i + 1]; }
      ReadTokenWordChars(w[1..], rest, cur + [w[0]]);
      assert cur + [w[0]] + w[1..] == cur + w;
    }
  }

  /** A word, a space and more text: the word comes first, and the rest splits on its own. */
  lemma SplitCons(w: string, rest: string)
    requires w != [] && WordChars(w)
    ensures Split(w + " " + rest) == match Split(rest)
                                     case None => None
                                     case Some(ws) => Some([w] + ws)
  {
    var s := w + (" " + rest);
    assert w + " " + rest == s;
    assert !ShSpace(s[0]);
    ReadTokenWordChars(w, " " + rest, []);
    assert [] + w == w;
    var t := SkipWhite(rest);
    assert SkipWhite(" " + rest) == t by { assert (" " + rest)[1..] == rest; }
    assert ReadToken(" " + rest, Word, w) == Some(Lexed(w, " " + rest));
    assert Split(" " + rest) == Split(rest);
  }

  /** A text whose first token runs to its end splits into that one token. */
  lemma SplitWhole(s: string, token: string)
    requires s != [] && !ShSpace(s[0]) && ReadToken(s, Word, []) == Some(Lexed(token, []))
    ensures Split(s) == Some([token])
  {
    assert SkipWhite(s) == s;
    assert Split([]) == Some([]);
    assert [token] + [] == [token];
  }

  /** An escaped character continues the token. */
  lemma EscapedTail(b: string, cur: string)
    requires b != [] && WordChars(b)
    ensures ReadToken("\\" + b, Word, cur) == Some(Lexed(cur + b, []))
  {
    var s := "\\" + b;
    assert s[0] == '\\' && s[1] == b[0] && s[2..] == b[1..] + [];
    assert WordChars(b[1..]) by { assert forall i :: 0 <= i < |b| - 1 ==> b[1..][i] == b[i + 1]; }
    ReadTokenWordChars(b[1..], [], cur + [b[0]]);
    assert ReadToken([], Word, cur + [b[0]] + b[1..]) == Some(Lexed(cur + [b[0]] + b[1..], []));
    assert cur + [b[0]] + b[1..] == cur + b;
  }

  /**
   * A backslash between two words vanishes: `shlex` reads it as an escape
   * of the next character, so a Windows path loses every separator.
   */
  lemma BackslashDropped(a: string, b: string)
    requires WordChars(a) && WordChars(b) && b != []
    ensures Split(a + "\\" + b) == Some([a + b])
  {
    var s := a + ("\\" + b);
    assert a + "\\" + b == s;
    assert s[0] == (if a == [] then '\\' else a[0]);
    ReadTokenWordChars(a, "\\" + b, []);
    assert [] + a == a;
    EscapedTail(b, a);
    SplitWhole(s, a + b);
  }

  /** Text after an opening single quote that has no closing one never ends the token. */
  lemma {:induction false} SingleUnclosed(s: string, cur: string)
    requires forall i :: 0 <= i < |s| ==> s[i] != '\''
    ensures ReadToken(s, Single, cur) == None
    decreases |s|
  {
    if s != [] {
      SingleUnclosed(s[1..], cur + [s[0]]);
    }
  }

  /** A lone apostrophe in a word, as in a path `Bob's/los.zip`, makes `shlex.split` raise. */
  lemma ApostropheRaises(a: string, b: string)
    requires WordChars(a) && forall i :: 0 <= i < |b| ==> b[i] != '\''
    ensures Split(a + "'" + b) == None
  {
    var s := a + ("'" + b);
    assert a + "'" + b == s;
    assert !ShSpace(s[0]);
    ReadTokenWordChars(a, "'" + b, []);
    assert ("'" + b)[1..] == b;
    SingleUnclosed(b, [] + a);
  }

  /** Word characters, such as a no-break space, that `str.split` separates on stay inside one `shlex` token. */
  lemma WordCharsOneToken(w: string)
    requires w != [] && WordChars(w)
    ensures Split(w) == Some([w])
  {
    ReadTokenWordChars(w, [], []);
    assert w + [] == w && [] + w == w;
    SplitWhole(w, w);
  }

  /**
   * A two-word command with a Windows path `a\\b` after it, such as
   * `adb sideload` (openandroidinstaller/tooling.py:118): the tool is asked
   * to work on `ab`.
   */
  lemma CommandPathBackslash(tool: string, verb: string, a: string, b: string)
    requires tool != [] && WordChars(tool) && verb != [] && WordChars(verb)
    requires WordChars(a) && WordChars(b) && b != []
    ensures Split(tool + " " + (verb + " " + (a + "\\" + b))) == Some([tool, verb, a + b])
  {
    var path := a + "\\" + b;
    BackslashDropped(a, b);
    SplitCons(verb, path);
    assert [verb] + [a + b] == [verb, a + b];
    SplitCons(tool, verb + " " + path);
    assert [tool] + [verb, a + b] == [tool, verb, a + b];
  }
}
