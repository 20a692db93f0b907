/**
 * The flatpak requirements generator (`scripts/generate-python-requirements.py`):
 * a requirements file is joined across continuation lines, parsed into
 * packages with their versions and hashes, each package's download is
 * chosen among its release files, and one pip command installs them all.
 */
module Requirements {
  import opened Wrappers
  import opened PyStr

  // ---------------------------------------------------------------------
  // join_continued_lines
  // ---------------------------------------------------------------------

  /** The end of the whitespace run that starts at `i`. */
  function SpaceEnd(s: string, i: nat): (r: nat)
    requires i <= |s|
    ensures i <= r <= |s| && (forall j :: i <= j < r ==> IsSpace(s[j])) && (r < |s| ==> !IsSpace(s[r]))
    decreases |s| - i
  {
    if i == |s| || !IsSpace(s[i]) then i else SpaceEnd(s, i + 1)
  }

  /**
   * `re.sub(r"\\\s*\n\s*", " ", text)`. The greedy `\s*` pair matches a
   * backslash together with the whole whitespace run after it, provided
   * the run holds a newline; each match becomes one space and the scan
   * resumes after it.
   */
  function JoinContinued(s: string): (r: string)
    ensures |r| <= |s|
    ensures '\n' !in s ==> r == s
    decreases |s|
  {
    if s == [] then []
    else if s[0] == '\\' && '\n' in s[1..SpaceEnd(s, 1)] then " " + JoinContinued(s[SpaceEnd(s, 1)..])
    else [s[0]] + JoinContinued(s[1..])
  }

  /** Text without a backslash passes unchanged; in front of one, it is kept as it is. */
  lemma {:induction false} JoinContinuedPrefix(a: string, rest: string)
    requires '\\' !in a
    ensures JoinContinued(a + rest) == a + JoinContinued(rest)
    decreases |a|
  {
    if a != [] {
      assert (a + rest)[1..] == a[1..] + rest;
      JoinContinuedPrefix(a[1..], rest);
    } else {
      assert a + rest == rest;
    }
  }

  lemma JoinContinuedNoBackslash(s: string)
    requires '\\' !in s
    ensures JoinContinued(s) == s
  {
    JoinContinuedPrefix(s, []);
    assert s + [] == s;
  }

  /** The run end is where the whitespace stops. */
  lemma {:induction false} SpaceEndAt(s: string, i: nat, e: nat)
    requires i <= e <= |s|
    requires forall j :: i <= j < e ==> IsSpace(s[j])
    requires e == |s| || !IsSpace(s[e])
    ensures SpaceEnd(s, i) == e
    decreases e - i
  {
    if i < e {
      SpaceEndAt(s, i + 1, e);
    }
  }

  /**
   * A backslash followed by a whitespace run holding a newline becomes a
   * single space, joining the two lines.
   */
  lemma JoinContinuedLine(a: string, gap: string, b: string)
    requires '\\' !in a
    requires gap != [] && gap[0] == '\\' && AllSpace(gap[1..]) && '\n' in gap[1..]
    requires b == [] || !IsSpace(b[0])
    ensures JoinContinued(a + gap + b) == a + " " + JoinContinued(b)
  {
    var s := gap + b;
    assert forall j :: 1 <= j < |gap| ==> s[j] == gap[1..][j - 1];
    SpaceEndAt(s, 1, |gap|);
    assert s[1..|gap|] == gap[1..] && s[|gap|..] == b;
    ContinuationStep(s, b);
    ConcatAssoc(a, gap, b);
    JoinContinuedPrefix(a, s);
    ConcatAssoc(a, " ", JoinContinued(b));
  }

  lemma ContinuationStep(s: string, b: string)
    requires s != [] && s[0] == '\\' && '\n' in s[1..SpaceEnd(s, 1)] && s[SpaceEnd(s, 1)..] == b
    ensures JoinContinued(s) == " " + JoinContinued(b)
  {
  }

  // ---------------------------------------------------------------------
  // parse_requirements
  // ---------------------------------------------------------------------

  /** One requirement: its name as written, its pinned version ("" if none) and its hashes. */
  datatype Package = Package(name: string, version: string, hashes: seq<string>)

  const HashSep: string := " --hash="

  /** A line that is blank or a comment once stripped. */
  predicate Skipped(line: string)
  {
    var t := Strip(line); t == [] || StartsWith(t, "#")
  }

  /** The requirement part: the text before any `;` (the environment marker), stripped. */
  function ReqSpec(mainPart: string): string
  {
    Strip(Before(Strip(mainPart), ";"))
  }

  /** Name and version: split at the first `==`, both stripped; no `==` means no version. */
  function NameVersion(spec: string): (string, string)
  {
    if Contains(spec, "==") then
      var p := SplitFirst(spec, "==");
      (Strip(p[0]), Strip(p[1]))
    else (Strip(spec), "")
  }

  /**
   * The hash a `--hash=` segment contributes: its first word without a
   * `sha256:` prefix; a segment without words makes `split()[0]` raise.
   */
  function HashToken(part: string): Option<string>
  {
    var ws := Words(part);
    if ws == [] then None
    else
      var t := Strip(ws[0]);
      Some(if StartsWith(t, "sha256:") then t[7..] else t)
  }

  /**
   * The loops of the generator: each item yields nothing (`None`), a
   * value or an error, and the first error ends the loop.
   */
  function Gather<T>(xs: seq<string>, f: string -> Option<Result<T>>): Result<seq<T>>
    decreases |xs|
  {
    if xs == [] then Success([])
    else
      var prev := Gather(xs[..|xs| - 1], f);
      var o := f(xs[|xs| - 1]);
      if prev.Failure? || o.None? then prev
      else if o.value.Failure? then Failure(o.value.error)
      else Success(prev.value + [o.value.value])
  }

  /** The items that yield something, in order. */
  function Kept<T>(xs: seq<string>, f: string -> Option<Result<T>>): seq<string>
    decreases |xs|
  {
    if xs == [] then []
    else Kept(xs[..|xs| - 1], f) + (if f(xs[|xs| - 1]).None? then [] else [xs[|xs| - 1]])
  }

  /**
   * Every kept item yields one value, in input order; otherwise the
   * result is the error of the first kept item that fails.
   */
  lemma {:induction false} GatherMeaning<T>(xs: seq<string>, f: string -> Option<Result<T>>)
    ensures forall k :: 0 <= k < |Kept(xs, f)| ==> f(Kept(xs, f)[k]).Some?
    ensures Gather(xs, f).Success? <==> forall k :: 0 <= k < |Kept(xs, f)| ==> f(Kept(xs, f)[k]).value.Success?
    ensures Gather(xs, f).Success? ==>
              |Gather(xs, f).value| == |Kept(xs, f)| &&
              forall k :: 0 <= k < |Kept(xs, f)| ==> f(Kept(xs, f)[k]).value == Success(Gather(xs, f).value[k])
    ensures Gather(xs, f).Failure? ==>
              exists k :: 0 <= k < |Kept(xs, f)| && f(Kept(xs, f)[k]).value == Failure(Gather(xs, f).error) &&
                          forall j :: 0 <= j < k ==> f(Kept(xs, f)[j]).value.Success?
    decreases |xs|
  {
    if xs != [] {
      var init := xs[..|xs| - 1];
      GatherMeaning(init, f);
      var ki := Kept(init, f);
      assert forall k :: 0 <= k < |ki| ==> Kept(xs, f)[k] == ki[k];
      var prev := Gather(init, f);
      if prev.Failure? {
        var k :| 0 <= k < |ki| && f(ki[k]).value == Failure(prev.error) &&
                 forall j :: 0 <= j < k ==> f(ki[j]).value.Success?;
        assert Kept(xs, f)[k] == ki[k];
      } else if Gather(xs, f).Failure? {
        assert Kept(xs, f)[|ki|] == xs[|xs| - 1];
      }
    }
  }

  /** Once a prefix has failed, the rest of the items changes nothing. */
  lemma {:induction false} GatherFailed<T>(xs: seq<string>, i: nat, f: string -> Option<Result<T>>)
    requires i <= |xs| && Gather(xs[..i], f).Failure?
    ensures Gather(xs, f) == Gather(xs[..i], f)
    decreases |xs| - i
  {
    if i == |xs| {
      assert xs[..i] == xs;
    } else {
      var init := xs[..|xs| - 1];
      assert init[..i] == xs[..i];
      GatherFailed(init, i, f);
    }
  }

  /** One more item extends a successful fold by what that item yields. */
  lemma GatherSnoc<T>(xs: seq<string>, i: nat, f: string -> Option<Result<T>>, o: Option<Result<T>>)
    requires i < |xs| && Gather(xs[..i], f).Success? && f(xs[i]) == o
    ensures o.None? ==> Gather(xs[..i + 1], f) == Gather(xs[..i], f)
    ensures o.Some? && o.value.Failure? ==> Gather(xs[..i + 1], f) == Failure(o.value.error)
    ensures o.Some? && o.value.Success? ==> Gather(xs[..i + 1], f) == Success(Gather(xs[..i], f).value + [o.value.value])
  {
    assert xs[..i + 1][..i] == xs[..i];
  }

  /** A `--hash=` segment's hash, or the IndexError its missing word raises. */
  function HashOf(part: string): Option<Result<string>>
  {
    var t := HashToken(part);
    Some(if t.None? then Failure("IndexError") else Success(t.value))
  }

  /** The hashes of the segments in order, or the IndexError of the first one without a word. */
  function Hashes(parts: seq<string>): Result<seq<string>>
  {
    Gather(parts, HashOf)
  }

  /** Every segment gives one hash, in order; one segment without a word fails the line. */
  lemma HashesMeaning(parts: seq<string>)
    ensures Hashes(parts).Success? <==> forall k :: 0 <= k < |parts| ==> HashToken(parts[k]).Some?
    ensures Hashes(parts).Failure? ==> Hashes(parts).error == "IndexError"
    ensures Hashes(parts).Success? ==>
              |Hashes(parts).value| == |parts| &&
              forall k :: 0 <= k < |parts| ==> Some(Hashes(parts).value[k]) == HashToken(parts[k])
  {
    KeptAll(parts);
    GatherMeaning(parts, HashOf);
    forall k | 0 <= k < |parts|
      ensures HashOf(parts[k]).value.Success? <==> HashToken(parts[k]).Some?
      ensures HashOf(parts[k]).value.Failure? ==> HashOf(parts[k]).value.error == "IndexError"
      ensures HashToken(parts[k]).Some? ==> HashOf(parts[k]).value == Success(HashToken(parts[k]).value)
    {
    }
  }

  /** No segment is dropped from the hashes. */
  lemma KeptAll(parts: seq<string>)
    ensures Kept(parts, HashOf) == parts
  {
    forall k | 0 <= k < |parts|
      ensures HashOf(parts[k]).Some?
    {
    }
    KeptEvery(parts, HashOf);
  }

  /** Items that all yield something are all kept. */
  lemma {:induction false} KeptEvery<T>(xs: seq<string>, f: string -> Option<Result<T>>)
    requires forall k :: 0 <= k < |xs| ==> f(xs[k]).Some?
    ensures Kept(xs, f) == xs
    decreases |xs|
  {
    if xs != [] {
      var init := xs[..|xs| - 1];
      var last := xs[|xs| - 1];
      assert forall k :: 0 <= k < |init| ==> init[k] == xs[k];
      KeptEvery(init, f);
      assert f(last).Some?;
      assert Kept(xs, f) == Kept(init, f) + [last];
      SplitAt(xs, |xs| - 1);
      assert xs[|xs| - 1..] == [last];
    }
  }

  /** The loop over `parts[1:]`. */
  method CollectHashes(parts: seq<string>) returns (r: Result<seq<string>>)
    ensures r == Hashes(parts)
  {
    var hashes: seq<string> := [];
    for i := 0 to |parts|
      invariant Gather(parts[..i], HashOf) == Success(hashes)
    {
      assert parts[..i + 1][..i] == parts[..i];
      var token := HashToken(parts[i]);
      if token.None? {
        GatherFailed(parts, i + 1, HashOf);
        return Failure("IndexError");
      }
      hashes := hashes + [token.value];
    }
    assert parts[..|parts|] == parts;
    r := Success(hashes);
  }

  /** The stripped line cut at every ` --hash=`: the requirement part first, then one segment per hash. */
  function Segments(line: string): (r: seq<string>)
    ensures |r| >= 1
  {
    SplitOn(Strip(line), HashSep)
  }

  /** The package of one line that is not skipped. */
  function PackageOf(line: string): Result<Package>
  {
    var parts := Segments(line);
    var nv := NameVersion(ReqSpec(parts[0]));
    var h := Hashes(parts[1..]);
    if h.Failure? then Failure(h.error) else Success(Package(nv.0, nv.1, h.value))
  }

  /** What one line of the file yields: nothing for a blank or comment line, else its package. */
  function LineOf(line: string): Option<Result<Package>>
  {
    if Skipped(line) then None else Some(PackageOf(line))
  }

  /** `parse_requirements` over the lines of a text: the packages, or the first line's error. */
  function Parsed(lines: seq<string>): Result<seq<Package>>
  {
    Gather(lines, LineOf)
  }

  /** One pass of the loop in `parse_requirements`: skip the line, or parse it. */
  method ParseLine(raw: string) returns (r: Option<Result<Package>>)
    ensures r == LineOf(raw)
  {
    var line := Strip(raw);
    if line == [] || StartsWith(line, "#") {
      return None;
    }
    var parts := SplitOn(line, HashSep);
    var nv := NameVersion(ReqSpec(parts[0]));
    var hashes := CollectHashes(parts[1..]);
    if hashes.Failure? {
      return Some(Failure(hashes.error));
    }
    r := Some(Success(Package(nv.0, nv.1, hashes.value)));
  }

  /** `parse_requirements(text)` */
  method ParseRequirements(text: string) returns (r: Result<seq<Package>>)
    ensures r == Parsed(SplitLines(text))
  {
    var lines := SplitLines(text);
    var packages: seq<Package> := [];
    for i := 0 to |lines|
      invariant Gather(lines[..i], LineOf) == Success(packages)
    {
      var o := ParseLine(lines[i]);
      GatherSnoc(lines, i, LineOf, o);
      if o.Some? {
        if o.value.Failure? {
          GatherFailed(lines, i + 1, LineOf);
          return Failure(o.value.error);
        }
        packages := packages + [o.value.value];
      }
    }
    assert lines[..|lines|] == lines;
    r := Success(packages);
  }

  /**
   * Blank and comment lines are skipped and every other line yields
   * exactly one package, in input order; parsing fails with the error of
   * the first line that fails.
   */
  lemma ParsedMeaning(lines: seq<string>)
    ensures forall k :: 0 <= k < |Kept(lines, LineOf)| ==> !Skipped(Kept(lines, LineOf)[k])
    ensures Parsed(lines).Success? <==>
              forall k :: 0 <= k < |Kept(lines, LineOf)| ==> PackageOf(Kept(lines, LineOf)[k]).Success?
    ensures Parsed(lines).Success? ==>
              |Parsed(lines).value| == |Kept(lines, LineOf)| &&
              forall k :: 0 <= k < |Kept(lines, LineOf)| ==> PackageOf(Kept(lines, LineOf)[k]) == Success(Parsed(lines).value[k])
  {
    GatherMeaning(lines, LineOf);
  }

  /** The text before a first `==` (holding no `=`) is the name and the rest the version, both stripped. */
  lemma NameVersionOf(n: string, v: string)
    requires '=' !in n
    ensures NameVersion(n + "==" + v) == (Strip(n), Strip(v))
  {
    var s := n + "==" + v;
    assert At(s, "==", |n|);
    ContainsAt(s, "==", |n|);
    var i := Find(s, "==").value;
    assert s[i] == s[i..i + 2][0];
    assert forall j :: 0 <= j < |n| ==> s[j] == n[j];
    assert i == |n|;
    assert s[..i] == n && s[i + 2..] == v;
  }

  /** Without `==` the whole requirement is the name and the version is empty. */
  lemma NameWithoutVersion(spec: string)
    requires '=' !in spec
    ensures NameVersion(spec) == (Strip(spec), "")
  {
  }

  /** An environment marker is dropped: only the text before the first `;` remains. */
  lemma MarkerDropped(a: string, b: string)
    requires !Contains(a, ";")
    requires a == [] || !IsSpace(a[0])
    requires b == [] || !IsSpace(b[|b| - 1])
    ensures ReqSpec(a + ";" + b) == Strip(a)
  {
    var s := a + ";" + b;
    StripKeeps(s);
    BeforeFirst(a, ";", b);
  }

  /** A hash segment contributes its first word, with a `sha256:` prefix removed. */
  lemma HashTokenOf(w: string, rest: string)
    requires w != [] && NoSpace(w)
    requires rest == [] || IsSpace(rest[0])
    ensures HashToken(w + rest) == Some(if StartsWith(w, "sha256:") then w[7..] else w)
  {
    LStripPadded([], w + rest);
    assert [] + (w + rest) == w + rest;
    TakeWordOf(w, rest);
    WordsFirst(w + rest, w);
    var ws := Words(w + rest);
    assert ws != [] && ws[0] == w;
    StripKeeps(w);
    assert Strip(ws[0]) == w;
  }

  // ---------------------------------------------------------------------
  // clean_package_name
  // ---------------------------------------------------------------------

  /** `clean_package_name`: the extras in brackets are dropped. */
  function CleanPackageName(name: string): (r: string)
    ensures !Contains(r, "[")
    ensures |r| <= |name|
  {
    if Contains(name, "[") then StripLacks(Before(name, "["), "["); Strip(Before(name, "[")) else name
  }

  /** The stripped text before the first `[`, and the name itself when there is none. */
  lemma CleanPackageNameOf(base: string, extras: string)
    requires !Contains(base, "[")
    ensures CleanPackageName(base + "[" + extras) == Strip(base)
    ensures CleanPackageName(base) == base
  {
    ContainsInfix(base, "[", extras);
    BeforeFirst(base, "[", extras);
  }

  // ---------------------------------------------------------------------
  // get_pypi_source
  // ---------------------------------------------------------------------

  /** One file of a release in PyPI's JSON: `packagetype`, `python_version` (both optional), its sha256 and url. */
  datatype Source = Source(packageType: Option<string>, pythonVersion: Option<string>, sha256: string, url: string)

  function OrEmpty(x: Option<string>): string
  {
    if x.Some? then x.value else ""
  }

  /** A py3 wheel whose hash the requirements list. */
  predicate WheelFits(s: Source, hashes: seq<string>)
  {
    s.packageType == Some("bdist_wheel") && Contains(OrEmpty(s.pythonVersion), "py3") && s.sha256 in hashes
  }

  /** A source distribution whose hash the requirements list. */
  predicate SdistFits(s: Source, hashes: seq<string>)
  {
    s.packageType == Some("sdist") && Contains(OrEmpty(s.pythonVersion), "source") && s.sha256 in hashes
  }

  function PypiUrl(name: string): string
  {
    "https://pypi.org/pypi/" + CleanPackageName(name) + "/json"
  }

  function VersionMissing(name: string, version: string): string
  {
    "Version " + version + " not found for package " + name + " (cleaned as " + CleanPackageName(name) + ")"
  }

  /**
   * `get_pypi_source`, with `releases` the `releases` object of the
   * package's JSON: the first fitting py3 wheel, else the first fitting
   * source distribution, else an error; an unknown version is an error.
   */
  method GetPypiSource(name: string, version: string, hashes: seq<string>, releases: map<string, seq<Source>>)
    returns (r: Result<(string, string)>)
    ensures version !in releases ==> r == Failure(VersionMissing(name, version))
    ensures version in releases ==>
              var list := releases[version];
              ((exists k :: 0 <= k < |list| && WheelFits(list[k], hashes)) ==>
                 exists k :: 0 <= k < |list| && WheelFits(list[k], hashes) &&
                             (forall j :: 0 <= j < k ==> !WheelFits(list[j], hashes)) &&
                             r == Success((list[k].url, list[k].sha256))) &&
              ((forall j :: 0 <= j < |list| ==> !WheelFits(list[j], hashes)) &&
               (exists k :: 0 <= k < |list| && SdistFits(list[k], hashes)) ==>
                 exists k :: 0 <= k < |list| && SdistFits(list[k], hashes) &&
                             (forall j :: 0 <= j < k ==> !SdistFits(list[j], hashes)) &&
                             r == Success((list[k].url, list[k].sha256))) &&
              ((forall j :: 0 <= j < |list| ==> !WheelFits(list[j], hashes) && !SdistFits(list[j], hashes)) ==>
                 r == Failure("Failed to extract url and hash from " + PypiUrl(name)))
  {
    if version !in releases {
      return Failure(VersionMissing(name, version));
    }
    var list := releases[version];
    for i := 0 to |list|
      invariant forall j :: 0 <= j < i ==> !WheelFits(list[j], hashes)
    {
      if WheelFits(list[i], hashes) {
        return Success((list[i].url, list[i].sha256));
      }
    }
    for i := 0 to |list|
      invariant forall j :: 0 <= j < i ==> !SdistFits(list[j], hashes)
    {
      if SdistFits(list[i], hashes) {
        return Success((list[i].url, list[i].sha256));
      }
    }
    r := Failure("Failed to extract url and hash from " + PypiUrl(name));
  }

  // ---------------------------------------------------------------------
  // make_build_command
  // ---------------------------------------------------------------------

  const BuildBase: string := "pip3 install --no-index --find-links=\"file://${PWD}\" --prefix=${FLATPAK_DEST}"

  /** `make_build_command`: the pip command followed by the names as written, space-separated. */
  function MakeBuildCommand(names: seq<string>): (r: string)
    ensures StartsWith(r, BuildBase + " ")
    ensures forall k :: 0 <= k < |names| ==> Contains(r, names[k])
  {
    JoinedHasAll(BuildBase + " ", names, " ");
    BuildBase + " " + JoinWith(names, " ")
  }

  /** Leading whitespace makes no difference to LStrip. */
  lemma {:induction false} LStripSpaces(pre: string, rest: string)
    requires AllSpace(pre)
    ensures LStrip(pre + rest) == LStrip(rest)
    decreases |pre|
  {
    if pre != [] {
      assert (pre + rest)[1..] == pre[1..] + rest;
      LStripSpaces(pre[1..], rest);
    } else {
      assert pre + rest == rest;
    }
  }

  lemma WordsSameStrip(x: string, y: string)
    requires LStrip(x) == LStrip(y)
    ensures Words(x) == Words(y)
  {
  }

  /** A space between two texts separates their words. */
  lemma {:induction false} WordsAppend(a: string, b: string)
    ensures Words(a + " " + b) == Words(a) + Words(b)
    decreases |a|
  {
    var t := LStrip(a);
    if t == [] {
      WordsAppendBlank(a, b);
    } else {
      var w := TakeWord(t);
      var t2 := t[|w|..];
      WordsAppendStep(a, b, w, t2);
      WordsAppend(t2, b);
      ConcatAssoc([w], Words(t2), Words(b));
    }
  }

  /** A blank text before the space adds no words. */
  lemma WordsAppendBlank(a: string, b: string)
    requires LStrip(a) == []
    ensures Words(a + " " + b) == Words(a) + Words(b)
  {
    assert AllSpace(a + " ");
    assert a + " " + b == (a + " ") + b;
    LStripSpaces(a + " ", b);
    WordsSameStrip(a + " " + b, b);
    assert Words(a) == [];
    assert [] + Words(b) == Words(b);
  }

  /** The first word of a text is also the first word once a space and more text follow. */
  lemma WordsAppendStep(a: string, b: string, w: string, t2: string)
    requires LStrip(a) != [] && w == TakeWord(LStrip(a)) && t2 == LStrip(a)[|w|..]
    ensures |t2| < |a|
    ensures Words(a + " " + b) == [w] + Words(t2 + " " + b)
    ensures Words(a) == [w] + Words(t2)
  {
    WordsLead(a, w, t2);
    StripAppended(a, b, w, t2);
    WordsLeading(a + " " + b, w, t2 + " " + b);
  }

  lemma StripAppended(a: string, b: string, w: string, t2: string)
    requires LStrip(a) != [] && w == TakeWord(LStrip(a)) && t2 == LStrip(a)[|w|..]
    ensures LStrip(a + " " + b) == w + (t2 + " " + b) && w != []
  {
    var t := LStrip(a);
    SplitAt(t, |w|);
    LStripAppend(a, " " + b);
    ConcatAssoc(a, " ", b);
    ConcatAssoc(w, t2, " " + b);
    ConcatAssoc(t2, " ", b);
  }

  lemma SplitAt<T>(s: seq<T>, i: nat)
    requires i <= |s|
    ensures s == s[..i] + s[i..]
  {
  }

  /** Once stripped, a text that starts with a word yields that word first. */
  lemma WordsLeading(s: string, w: string, r: string)
    requires LStrip(s) == w + r && w != [] && NoSpace(w)
    requires r != [] && IsSpace(r[0])
    ensures Words(s) == [w] + Words(r)
  {
    TakeWordOf(w, r);
    assert (w + r)[|w|..] == r;
  }

  lemma WordsLead(a: string, w: string, t2: string)
    requires LStrip(a) != [] && w == TakeWord(LStrip(a)) && t2 == LStrip(a)[|w|..]
    ensures Words(a) == [w] + Words(t2)
  {
  }

  /** Text after a non-blank one does not change where its leading whitespace ends. */
  lemma {:induction false} LStripAppend(a: string, b: string)
    requires LStrip(a) != []
    ensures LStrip(a + b) == LStrip(a) + b
    decreases |a|
  {
    assert a != [];
    var ab := a + b;
    assert ab[0] == a[0];
    if IsSpace(a[0]) {
      assert ab[1..] == a[1..] + b;
      assert LStrip(a) == LStrip(a[1..]);
      LStripAppend(a[1..], b);
      assert LStrip(ab) == LStrip(ab[1..]);
    } else {
      assert LStrip(ab) == ab;
    }
  }

  lemma ConcatAssoc<T>(x: seq<T>, y: seq<T>, z: seq<T>)
    ensures x + (y + z) == x + y + z
  {
  }

  /** A text that starts with a non-space is its own LStrip. */
  lemma Bare(u: string)
    requires u == [] || !IsSpace(u[0])
    ensures LStrip(u) == u
  {
    LStripPadded([], u);
    assert [] + u == u;
  }

  /**
   * A shell splitting the command finds pip's own arguments and then
   * exactly the package names, in order, extras included.
   */
  lemma BuildCommandWords(names: seq<string>)
    requires forall k :: 0 <= k < |names| ==> names[k] != [] && NoSpace(names[k])
    ensures Words(MakeBuildCommand(names)) == Words(BuildBase) + names
  {
    WordsAppend(BuildBase, JoinWith(names, " "));
    WordsOfJoin(names);
  }
}
