/**
 * The image check script (`scripts/check-image-for-device.py`): the
 * output of `adb shell getprop` is parsed into the device's identifying
 * properties, and an image is judged by whether its text names the
 * device's code.
 */
module CheckImage {
  import opened Wrappers
  import opened PyStr

  // ---------------------------------------------------------------------
  // Removing the brackets of `[key]: [value]`
  // ---------------------------------------------------------------------

  /** `s` with every `c` left out, the other characters in order. */
  function Without(s: string, c: char): string
    decreases |s|
  {
    if s == [] then [] else (if s[0] == c then [] else [s[0]]) + Without(s[1..], c)
  }

  lemma {:induction false} WithoutConcat(a: string, b: string, c: char)
    ensures Without(a + b, c) == Without(a, c) + Without(b, c)
    decreases |a|
  {
    if a == [] {
      assert a + b == b;
    } else {
      assert (a + b)[1..] == a[1..] + b;
      WithoutConcat(a[1..], b, c);
    }
  }

  /** Exactly the characters other than `c` survive. */
  lemma {:induction false} WithoutMeaning(s: string, c: char)
    ensures c !in Without(s, c)
    ensures forall d :: d in Without(s, c) <==> d in s && d != c
    ensures c !in s ==> Without(s, c) == s
    decreases |s|
  {
    if s != [] {
      WithoutMeaning(s[1..], c);
      assert s == [s[0]] + s[1..];
    }
  }

  /** Replacing a one-character pattern by nothing leaves that character out. */
  lemma {:induction false} ReplaceChar(s: string, c: char)
    ensures ReplaceAll(s, [c], "") == Without(s, c)
    decreases |s|
  {
    match Find(s, [c])
    case None =>
      WithoutAbsentChar(s, c);
    case Some(i) =>
      WithoutFirst(s, c, i);
      ReplaceChar(s[i + 1..], c);
      assert s[..i] + "" == s[..i];
  }

  lemma WithoutAbsentChar(s: string, c: char)
    requires Find(s, [c]).None?
    ensures Without(s, c) == s
  {
    forall j | 0 <= j < |s|
      ensures s[j] != c
    {
      assert s[j..j + 1] == [s[j]];
      assert !At(s, [c], j);
    }
    WithoutMeaning(s, c);
  }

  /** The text up to the first `c` survives whole, and `c` itself goes. */
  lemma WithoutFirst(s: string, c: char, i: nat)
    requires Find(s, [c]) == Some(i)
    ensures Without(s, c) == s[..i] + Without(s[i + 1..], c)
  {
    var rest := s[i + 1..];
    forall j | 0 <= j < i
      ensures s[..i][j] != c
    {
      assert s[j..j + 1] == [s[j]];
      assert !At(s, [c], j);
    }
    WithoutMeaning(s[..i], c);
    assert s[i..i + 1] == [c];
    assert s == s[..i] + ([c] + rest);
    WithoutConcat(s[..i], [c] + rest, c);
    WithoutConcat([c], rest, c);
  }

  /** `prop.replace("[", "").replace("]", "")` */
  function StripBrackets(prop: string): string
  {
    ReplaceAll(ReplaceAll(prop, "[", ""), "]", "")
  }

  /** Every bracket goes and every other character stays, in order. */
  lemma StripBracketsMeaning(prop: string)
    ensures StripBrackets(prop) == Without(Without(prop, '['), ']')
    ensures '[' !in StripBrackets(prop) && ']' !in StripBrackets(prop)
    ensures forall d :: d in StripBrackets(prop) <==> d in prop && d != '[' && d != ']'
  {
    ReplaceChar(prop, '[');
    ReplaceChar(Without(prop, '['), ']');
    WithoutMeaning(prop, '[');
    WithoutMeaning(Without(prop, '['), ']');
  }

  // ---------------------------------------------------------------------
  // get_device_info
  // ---------------------------------------------------------------------

  /** The lines longer than two characters, in order. */
  function Kept(lines: seq<string>): seq<string>
    decreases |lines|
  {
    if lines == [] then []
    else Kept(lines[..|lines| - 1]) + (if |lines[|lines| - 1]| > 2 then [lines[|lines| - 1]] else [])
  }

  lemma {:induction false} KeptConcat(a: seq<string>, b: seq<string>)
    ensures Kept(a + b) == Kept(a) + Kept(b)
    decreases |b|
  {
    if b == [] {
      assert a + b == a;
    } else {
      var init := b[..|b| - 1];
      assert (a + b)[..|a + b| - 1] == a + init;
      KeptConcat(a, init);
    }
  }

  /** A line of at most two characters is ignored wherever it stands. */
  lemma ShortLineIgnored(a: seq<string>, s: string, b: seq<string>)
    requires |s| <= 2
    ensures Kept(a + [s] + b) == Kept(a + b)
  {
    KeptConcat(a + [s], b);
    KeptConcat(a, [s]);
    KeptConcat(a, b);
    assert Kept([s]) == Kept([]) + [];
  }

  /** Exactly the lines longer than two characters are kept. */
  lemma {:induction false} KeptMeaning(lines: seq<string>)
    ensures forall x :: x in Kept(lines) <==> x in lines && |x| > 2
    decreases |lines|
  {
    if lines != [] {
      var init := lines[..|lines| - 1];
      KeptMeaning(init);
      assert lines == init + [lines[|lines| - 1]];
    }
  }

  /** `.split(":", 1)` of the line without brackets: one piece, or the key and the value. */
  function Pieces(prop: string): (r: seq<string>)
    ensures 1 <= |r| <= 2
  {
    SplitFirst(StripBrackets(prop), ":")
  }

  /** A key before the first `:` and the rest as value, neither with brackets. */
  lemma PiecesMeaning(prop: string)
    ensures |Pieces(prop)| == 2 <==> Contains(StripBrackets(prop), ":")
    ensures |Pieces(prop)| == 2 ==>
              var p := Pieces(prop);
              StripBrackets(prop) == p[0] + ":" + p[1] && !Contains(p[0], ":") &&
              '[' !in p[0] + p[1] && ']' !in p[0] + p[1]
  {
    StripBracketsMeaning(prop);
    var s := StripBrackets(prop);
    var p := Pieces(prop);
    if |p| == 2 {
      assert s == p[0] + ":" + p[1];
      forall d | d in p[0] + p[1]
        ensures d in s
      {
        var j :| 0 <= j < |p[0] + p[1]| && (p[0] + p[1])[j] == d;
        if j < |p[0]| {
          assert s[j] == d;
        } else {
          assert s[j + 1] == d;
        }
      }
    }
  }

  /** The list comprehension: the pieces of every kept line, in order. */
  function Elements(output: string): seq<seq<string>>
  {
    var props := Kept(SplitOn(output, "\n"));
    seq(|props|, k requires 0 <= k < |props| => Pieces(props[k]))
  }

  /**
   * `dict(elements)`: each two-piece element in turn, a later one
   * overwriting an earlier key; an element of one piece raises ValueError.
   */
  function Dict(elems: seq<seq<string>>): Result<map<string, string>>
    decreases |elems|
  {
    if elems == [] then Success(map[])
    else
      var prev := Dict(elems[..|elems| - 1]);
      var e := elems[|elems| - 1];
      if prev.Failure? then prev
      else if |e| != 2 then Failure("ValueError")
      else Success(prev.value[e[0] := e[1]])
  }

  /** The dict exists when every element is a pair; otherwise `dict` raises ValueError. */
  lemma {:induction false} DictDefined(elems: seq<seq<string>>)
    ensures Dict(elems).Success? <==> forall i :: 0 <= i < |elems| ==> |elems[i]| == 2
    ensures Dict(elems).Failure? ==> Dict(elems).error == "ValueError"
    decreases |elems|
  {
    if elems != [] {
      var init := elems[..|elems| - 1];
      DictDefined(init);
      assert forall i :: 0 <= i < |init| ==> init[i] == elems[i];
    }
  }

  /** The keys of the dict are the first pieces of the elements. */
  lemma {:induction false} DictKeys(elems: seq<seq<string>>, key: string)
    requires forall i :: 0 <= i < |elems| ==> |elems[i]| == 2
    ensures Dict(elems).Success?
    ensures key in Dict(elems).value <==> exists i :: 0 <= i < |elems| && elems[i][0] == key
    decreases |elems|
  {
    DictDefined(elems);
    if elems != [] {
      var init := elems[..|elems| - 1];
      DictKeys(init, key);
      assert forall i :: 0 <= i < |init| ==> init[i] == elems[i];
    }
  }

  /** For repeated keys the later element wins: a key maps to the second piece of its last element. */
  lemma {:induction false} DictLaterWins(elems: seq<seq<string>>, key: string)
    requires forall i :: 0 <= i < |elems| ==> |elems[i]| == 2
    requires Dict(elems).Success? && key in Dict(elems).value
    ensures exists i :: 0 <= i < |elems| && elems[i] == [key, Dict(elems).value[key]] &&
                        forall j :: i < j < |elems| ==> elems[j][0] != key
    decreases |elems|
  {
    var init := elems[..|elems| - 1];
    var e := elems[|elems| - 1];
    var prev := Dict(init);
    assert forall i :: 0 <= i < |init| ==> init[i] == elems[i];
    DictDefined(init);
    assert prev.Success? && |e| == 2;
    assert Dict(elems).value == prev.value[e[0] := e[1]];
    assert e == [e[0], e[1]];
    if e[0] == key {
      assert elems[|elems| - 1] == [key, Dict(elems).value[key]];
    } else {
      assert key in prev.value && Dict(elems).value[key] == prev.value[key];
      DictLaterWins(init, key);
      var i :| 0 <= i < |init| && init[i] == [key, prev.value[key]] &&
               forall j :: i < j < |init| ==> init[j][0] != key;
      assert elems[i] == init[i];
    }
  }

  /** `properties_dict` */
  function Properties(output: string): Result<map<string, string>>
  {
    Dict(Elements(output))
  }

  /** `relevant_keys` */
  const RelevantKeys: seq<string> := ["ro.product.manufacturer", "ro.product.model", "ro.product.name"]

  /** The dict comprehension over `keys`: each key's value stripped, KeyError for a missing key. */
  function Select(d: map<string, string>, keys: seq<string>): Result<map<string, string>>
  {
    if exists i :: 0 <= i < |keys| && keys[i] !in d then Failure("KeyError")
    else Success(map k | k in keys && k in d :: Strip(d[k]))
  }

  /**
   * The result has exactly the given keys, with the stripped values of
   * the properties; it fails exactly when one of them is missing.
   */
  lemma SelectMeaning(d: map<string, string>, keys: seq<string>)
    ensures Select(d, keys).Success? <==> forall i :: 0 <= i < |keys| ==> keys[i] in d
    ensures Select(d, keys).Failure? ==> Select(d, keys).error == "KeyError"
    ensures Select(d, keys).Success? ==>
              (forall k :: k in Select(d, keys).value <==> k in keys) &&
              forall k :: k in Select(d, keys).value ==> k in d && Select(d, keys).value[k] == Strip(d[k])
  {
  }

  /** `get_device_info`, given the decoded `getprop` output. */
  function DeviceInfo(output: string): (r: Result<map<string, string>>)
    ensures r.Failure? ==> r.error == "ValueError" || r.error == "KeyError"
    ensures r.Success? ==> forall k :: k in r.value <==> k in RelevantKeys
  {
    DictDefined(Elements(output));
    var props := Properties(output);
    if props.Failure? then props else SelectMeaning(props.value, RelevantKeys); Select(props.value, RelevantKeys)
  }

  /** The getprop line that last set a key, with `v` its value. */
  predicate LastSets(elems: seq<seq<string>>, key: string, v: string)
  {
    exists i :: 0 <= i < |elems| && elems[i] == [key, v] && forall j :: i < j < |elems| ==> |elems[j]| == 2 && elems[j][0] != key
  }

  /**
   * `get_device_info` end to end: ValueError exactly when a kept line has
   * no `:`; otherwise KeyError exactly when a relevant key is on no line;
   * otherwise each relevant key's value is the stripped value of the last
   * line that sets it.
   */
  lemma DeviceInfoMeaning(output: string)
    ensures var elems := Elements(output);
            (DeviceInfo(output) == Failure("ValueError") <==> exists i :: 0 <= i < |elems| && |elems[i]| != 2) &&
            (DeviceInfo(output) == Failure("KeyError") <==>
               (forall i :: 0 <= i < |elems| ==> |elems[i]| == 2) &&
               exists k :: 0 <= k < |RelevantKeys| && forall i :: 0 <= i < |elems| ==> elems[i][0] != RelevantKeys[k]) &&
            (DeviceInfo(output).Success? ==>
               forall key :: key in DeviceInfo(output).value ==>
                 exists v :: LastSets(elems, key, v) && DeviceInfo(output).value[key] == Strip(v))
  {
    var elems := Elements(output);
    DictDefined(elems);
    var props := Dict(elems);
    if props.Success? {
      SelectMeaning(props.value, RelevantKeys);
      forall key | true
        ensures key in props.value <==> exists i :: 0 <= i < |elems| && elems[i][0] == key
      {
        DictKeys(elems, key);
      }
      forall key | key in props.value
        ensures LastSets(elems, key, props.value[key])
      {
        DictLaterWins(elems, key);
      }
    }
  }

  // ---------------------------------------------------------------------
  // image_works
  // ---------------------------------------------------------------------

  /** `device_code in raw_text`, the image file's bytes decoded as latin-1. */
  predicate ImageWorks(rawText: string, deviceCode: string)
    ensures deviceCode == [] ==> ImageWorks(rawText, deviceCode)
    ensures |deviceCode| > |rawText| ==> !ImageWorks(rawText, deviceCode)
  {
    assert At(rawText, deviceCode, 0) <== deviceCode == [];
    Contains(rawText, deviceCode)
  }

  /** The image works exactly when the device code occurs somewhere in its text. */
  lemma ImageWorksMeaning(rawText: string, deviceCode: string)
    ensures ImageWorks(rawText, deviceCode) <==> exists i :: At(rawText, deviceCode, i)
  {
    if exists i :: At(rawText, deviceCode, i) {
      var i :| At(rawText, deviceCode, i);
      ContainsAt(rawText, deviceCode, i);
    }
  }
}
