/**
 * Device configs: the schema a YAML config must satisfy, the steps built
 * from it, and the search that picks the config supporting a device code,
 * first among the files next to the executable, then among the bundled
 * assets.
 */
module InstallerConfig {
  import opened Wrappers
  import opened Document
  import PyStr

  const UnlockTitle: string := "Unlock the bootloader"
  const RecoveryTitle: string := "Boot custom recovery"
  const UnlockDefaultImage: string := "unlock-bootloader-default.png"
  const PlaceholderImage: string := "placeholder.png"

  /** One step of the installer wizard. */
  datatype Step = Step(
    title: string,
    kind: string,
    content: string,
    allowSkip: bool,
    command: Option<string>,
    img: string,
    link: Option<string>)

  /**
   * `Step(title, type, content, allow_skip, command, img, link)`: a missing
   * or empty image falls back to the title's default image, or to the
   * placeholder.
   */
  function NewStep(title: string, kind: string, content: string, allowSkip: bool,
                   command: Option<string>, img: Option<string>, link: Option<string>): (r: Step)
    ensures r.img != ""
    ensures img.Some? && img.value != "" ==> r.img == img.value
    ensures (img.None? || img.value == "") && title == UnlockTitle ==> r.img == UnlockDefaultImage
    ensures (img.None? || img.value == "") && title != UnlockTitle ==> r.img == PlaceholderImage
    ensures r.title == title && r.kind == kind && r.content == content && r.allowSkip == allowSkip
    ensures r.command == command && r.link == link
  {
    var image :=
      if img.Some? && img.value != "" then img.value
      else if title == UnlockTitle then UnlockDefaultImage
      else PlaceholderImage;
    Step(title, kind, content, allowSkip, command, image, link)
  }

  /** An `InstallerConfig` object: its constructor copies five metadata entries into attributes. */
  datatype Config = Config(
    unlockBootloader: seq<Step>,
    bootRecovery: seq<Step>,
    metadata: map<string, Value>,
    requirements: Value,
    deviceCode: Value,
    isAb: Value,
    additionalSteps: Value,
    supportedDeviceCodes: Value,
    twrpLink: Value)

  function NewConfig(unlockBootloader: seq<Step>, bootRecovery: seq<Step>,
                     metadata: map<string, Value>, requirements: Value): (r: Config)
    ensures r.unlockBootloader == unlockBootloader && r.bootRecovery == bootRecovery
    ensures r.metadata == metadata && r.requirements == requirements
    ensures "is_ab_device" in metadata ==> r.isAb == metadata["is_ab_device"]
    ensures "is_ab_device" !in metadata ==> r.isAb == Bool(false)
    ensures "device_code" in metadata ==> r.deviceCode == metadata["device_code"]
    ensures "device_code" !in metadata ==> r.deviceCode == Null
    ensures "additional_steps" in metadata ==> r.additionalSteps == metadata["additional_steps"]
    ensures "additional_steps" !in metadata ==> r.additionalSteps == Null
    ensures "supported_device_codes" in metadata ==> r.supportedDeviceCodes == metadata["supported_device_codes"]
    ensures "supported_device_codes" !in metadata ==> r.supportedDeviceCodes == Null
    ensures "twrp-link" in metadata ==> r.twrpLink == metadata["twrp-link"]
    ensures "twrp-link" !in metadata ==> r.twrpLink == Null
  {
    Config(unlockBootloader, bootRecovery, metadata, requirements,
           Get(metadata, "device_code", Null),
           Get(metadata, "is_ab_device", Bool(false)),
           Get(metadata, "additional_steps", Null),
           Get(metadata, "supported_device_codes", Null),
           Get(metadata, "twrp-link", Null))
  }

  // ---------------------------------------------------------------------
  // The schema checked by validate_config
  // ---------------------------------------------------------------------

  const StepKinds: seq<string> :=
    ["text", "confirm_button", "call_button", "call_button_with_input", "link_button_with_confirm"]

  /**
   * The alternatives of the command pattern. The source pattern is a
   * triple-quoted literal broken over two lines, so one alternative begins
   * with a newline and the next line's indentation.
   */
  const CommandNames: seq<string> :=
    ["adb_reboot", "adb_reboot_bootloader", "adb_reboot_download", "adb_sideload",
     "adb_twrp_wipe_and_install", "adb_twrp_copy_partitions", "fastboot_boot_recovery",
     "fastboot_flash_boot", "fastboot_flash_recovery", "\n            fastboot_unlock_critical",
     "fastboot_unlock_with_code", "fastboot_get_unlock_data", "fastboot_unlock",
     "fastboot_oem_unlock", "fastboot_reboot", "fastboot_reboot_recovery",
     "heimdall_flash_recovery", "fastboot_flash_additional_partitions"]

  const PartitionNames: seq<string> := ["dtbo", "vbmeta", "vendor_boot", "super_empty"]

  /** `Regex(a|b|…)`: a string in which some alternative occurs (search, not full match). */
  predicate MatchesSome(alternatives: seq<string>, v: Value)
  {
    v.Str? && exists i :: 0 <= i < |alternatives| && PyStr.Contains(v.s, alternatives[i])
  }

  /** `[str]` */
  predicate StrList(v: Value)
  {
    v.List? && forall i :: 0 <= i < |v.items| ==> v.items[i].Str?
  }

  predicate ValidStep(v: Value)
  {
    v.Dict? &&
    var m := v.entries;
    m.Keys <= {"type", "content", "command", "allow_skip", "img", "link"} &&
    "type" in m && MatchesSome(StepKinds, m["type"]) &&
    "content" in m && m["content"].Str? &&
    ("command" in m ==> MatchesSome(CommandNames, m["command"])) &&
    ("allow_skip" in m ==> m["allow_skip"].Bool?) &&
    ("img" in m ==> m["img"].Str?) &&
    ("link" in m ==> m["link"].Str?)
  }

  /** `[step_schema]` */
  predicate StepList(v: Value)
  {
    v.List? && forall i :: 0 <= i < |v.items| ==> ValidStep(v.items[i])
  }

  predicate ValidMetadata(v: Value)
  {
    v.Dict? &&
    var m := v.entries;
    m.Keys <= {"maintainer", "device_name", "is_ab_device", "device_code", "supported_device_codes",
               "twrp-link", "additional_steps", "notes", "brand"} &&
    "maintainer" in m && m["maintainer"].Str? &&
    "device_name" in m && m["device_name"].Str? &&
    "is_ab_device" in m && m["is_ab_device"].Bool? &&
    "device_code" in m && m["device_code"].Str? &&
    "supported_device_codes" in m && StrList(m["supported_device_codes"]) &&
    ("twrp-link" in m ==> m["twrp-link"].Str?) &&
    ("additional_steps" in m ==>
       m["additional_steps"].List? &&
       forall i :: 0 <= i < |m["additional_steps"].items| ==>
         MatchesSome(PartitionNames, m["additional_steps"].items[i])) &&
    ("notes" in m ==> m["notes"].Str?) &&
    ("brand" in m ==> m["brand"].Str?)
  }

  /**
   * `Or(str, int)`: a string or an integer. The `schema` library's type
   * check refuses a boolean where `int` is asked for, so a boolean is not admitted.
   */
  predicate ValidRequirements(v: Value)
  {
    v.Dict? &&
    var m := v.entries;
    m.Keys <= {"android", "firmware"} &&
    ("android" in m ==> m["android"].Str? || m["android"].Int?) &&
    ("firmware" in m ==> m["firmware"].Str?)
  }

  predicate ValidSteps(v: Value)
  {
    v.Dict? &&
    var m := v.entries;
    m.Keys <= {"unlock_bootloader", "boot_recovery"} &&
    "unlock_bootloader" in m && (m["unlock_bootloader"].Null? || StepList(m["unlock_bootloader"])) &&
    "boot_recovery" in m && StepList(m["boot_recovery"])
  }

  /** `validate_config(config)`: the whole schema; any other key anywhere is refused. */
  predicate ValidateConfig(doc: Value)
  {
    doc.Dict? &&
    var m := doc.entries;
    m.Keys <= {"metadata", "requirements", "steps"} &&
    "metadata" in m && ValidMetadata(m["metadata"]) &&
    ("requirements" in m ==> ValidRequirements(m["requirements"])) &&
    "steps" in m && ValidSteps(m["steps"])
  }

  /**
   * The schema is strict at the top: a document that is not a mapping, has
   * a key other than metadata, requirements and steps, or lacks metadata
   * or steps is refused, which `from_file` turns into no config.
   */
  lemma ValidateConfigStrict(doc: Value, key: string)
    ensures !doc.Dict? ==> !ValidateConfig(doc) && FromFile(Some(Yaml(doc))) == Success(None)
    ensures doc.Dict? && key in doc.entries && key !in {"metadata", "requirements", "steps"} ==>
              !ValidateConfig(doc) && FromFile(Some(Yaml(doc))) == Success(None)
    ensures doc.Dict? && ("metadata" !in doc.entries || "steps" !in doc.entries) ==>
              !ValidateConfig(doc) && FromFile(Some(Yaml(doc))) == Success(None)
  {
  }

  /** The schema's search semantics admit any step type that has a known type inside it. */
  lemma StepKindSearch(pre: string, kind: string, post: string)
    requires kind in StepKinds
    ensures MatchesSome(StepKinds, Str(pre + kind + post))
  {
    var i :| 0 <= i < |StepKinds| && StepKinds[i] == kind;
    PyStr.ContainsInfix(pre, kind, post);
  }

  /**
   * The alternative broken by the line break can never match a one-line
   * command, yet `fastboot_unlock_critical` is still admitted: it contains
   * the alternative `fastboot_unlock`.
   */
  lemma UnlockCriticalAdmitted()
    ensures MatchesSome(CommandNames, Str("fastboot_unlock_critical"))
  {
    assert "fastboot_unlock_critical" == "" + "fastboot_unlock" + "_critical";
    PyStr.ContainsInfix("", "fastboot_unlock", "_critical");
    assert CommandNames[12] == "fastboot_unlock";
  }

  /**
   * An integer or string `android` requirement passes the schema; a boolean
   * one does not, although a Python bool is an int.
   */
  lemma BoolAndroidRequirementRejected(b: bool, n: int, v: string)
    ensures !ValidRequirements(Dict(map["android" := Bool(b)]))
    ensures ValidRequirements(Dict(map["android" := Int(n)]))
    ensures ValidRequirements(Dict(map["android" := Str(v)]))
  {
  }

  // ---------------------------------------------------------------------
  // from_file
  // ---------------------------------------------------------------------

  /** What reading one YAML file yields. */
  datatype Text = Malformed | Yaml(doc: Value)

  function OptStr(m: map<string, Value>, key: string): Option<string>
  {
    if key in m && m[key].Str? then Some(m[key].s) else None
  }

  /** `Step(**raw_step, title=title)` */
  function StepOf(title: string, raw: Value): (r: Step)
    requires ValidStep(raw)
    ensures r.title == title && r.content == raw.entries["content"].s && r.kind == raw.entries["type"].s
    ensures r.allowSkip <==> "allow_skip" in raw.entries && raw.entries["allow_skip"].b
    ensures "command" in raw.entries ==> r.command == Some(raw.entries["command"].s)
    ensures "command" !in raw.entries ==> r.command == None
    ensures "link" in raw.entries ==> r.link == Some(raw.entries["link"].s)
    ensures "link" !in raw.entries ==> r.link == None
    ensures "img" in raw.entries && raw.entries["img"].s != "" ==> r.img == raw.entries["img"].s
    ensures !("img" in raw.entries && raw.entries["img"].s != "") ==>
              r.img == if title == UnlockTitle then UnlockDefaultImage else PlaceholderImage
  {
    var m := raw.entries;
    NewStep(title, m["type"].s, m["content"].s,
            "allow_skip" in m && m["allow_skip"].b,
            OptStr(m, "command"), OptStr(m, "img"), OptStr(m, "link"))
  }

  /**
   * A raw step with only a type and a content: no skip, no command, no link,
   * and the title's default image.
   */
  lemma MinimalStep(title: string, kind: string, content: string)
    requires MatchesSome(StepKinds, Str(kind))
    ensures StepOf(title, Dict(map["type" := Str(kind), "content" := Str(content)]))
         == Step(title, kind, content, false, None,
                 if title == UnlockTitle then UnlockDefaultImage else PlaceholderImage, None)
  {
    var m := map["type" := Str(kind), "content" := Str(content)];
    assert "allow_skip" !in m && "command" !in m && "img" !in m && "link" !in m;
  }

  function StepsOf(title: string, raw: Value): (r: seq<Step>)
    requires StepList(raw)
  {
    seq(|raw.items|, i requires 0 <= i < |raw.items| => StepOf(title, raw.items[i]))
  }

  /** The config built from a document that passed the schema. */
  function BuildConfig(doc: Value): Config
    requires ValidateConfig(doc)
  {
    var m := doc.entries;
    var steps := m["steps"].entries;
    var unlock := if steps["unlock_bootloader"].Null? then [] else StepsOf(UnlockTitle, steps["unlock_bootloader"]);
    var recovery := StepsOf(RecoveryTitle, steps["boot_recovery"]);
    NewConfig(unlock, recovery, m["metadata"].entries, Get(m, "requirements", Null))
  }

  /**
   * `InstallerConfig.from_file(path)`, with `file` the file's contents
   * (`None` for a missing file, which raises FileNotFoundError). A YAML
   * error or a failed schema check gives `None`.
   */
  function FromFile(file: Option<Text>): (r: Result<Option<Config>>)
    ensures r.Failure? <==> file.None?
    ensures r.Failure? ==> r.error == "FileNotFoundError"
    ensures file == Some(Malformed) ==> r == Success(None)
    ensures file.Some? && file.value.Yaml? ==> r.Success? && (r.value.Some? <==> ValidateConfig(file.value.doc))
  {
    match file
    case None => Failure("FileNotFoundError")
    case Some(Malformed) => Success(None)
    case Some(Yaml(doc)) => if ValidateConfig(doc) then Success(Some(BuildConfig(doc))) else Success(None)
  }

  /**
   * A config loaded from a valid document keeps every step of each section,
   * in order, under that section's title, and its attributes are the
   * metadata's values: a device code string and an a/b flag.
   */
  lemma FromFileSteps(doc: Value)
    requires ValidateConfig(doc)
    ensures FromFile(Some(Yaml(doc))).Success? && FromFile(Some(Yaml(doc))).value.Some?
    ensures var c := FromFile(Some(Yaml(doc))).value.value;
            var steps := doc.entries["steps"].entries;
            var br := steps["boot_recovery"].items;
            |c.bootRecovery| == |br| &&
            (forall i :: 0 <= i < |br| ==>
               c.bootRecovery[i] == StepOf(RecoveryTitle, br[i]) &&
               c.bootRecovery[i].title == RecoveryTitle && c.bootRecovery[i].content == br[i].entries["content"].s) &&
            (steps["unlock_bootloader"].Null? ==> c.unlockBootloader == []) &&
            (steps["unlock_bootloader"].List? ==>
               var ub := steps["unlock_bootloader"].items;
               |c.unlockBootloader| == |ub| &&
               forall i :: 0 <= i < |ub| ==>
                 c.unlockBootloader[i] == StepOf(UnlockTitle, ub[i]) &&
                 c.unlockBootloader[i].title == UnlockTitle && c.unlockBootloader[i].content == ub[i].entries["content"].s &&
                 c.unlockBootloader[i].img != "") &&
            c.metadata == doc.entries["metadata"].entries &&
            c.requirements == (if "requirements" in doc.entries then doc.entries["requirements"] else Null) &&
            c.isAb.Bool? && c.isAb == c.metadata["is_ab_device"] &&
            c.deviceCode.Str? && c.deviceCode == c.metadata["device_code"] &&
            c.supportedDeviceCodes == c.metadata["supported_device_codes"]
  {
  }

  // ---------------------------------------------------------------------
  // _find_config_file and _load_config
  // ---------------------------------------------------------------------

  /** One `*.yaml` file of a directory listing, in glob order. */
  datatype ConfigFile = ConfigFile(path: string, text: Text)

  /** What one element of a list contributes to `dict(...)`. */
  datatype Pair =
    | Keyed(key: string, value: Value)
    /** A pair whose key is hashable but not a string, so `.get` by a string key never sees it. */
    | OtherKey
    /** `dict` raises: not a pair, or an unhashable key. */
    | Refused

  /**
   * One element of the list: a two-item list is a key and a value, a
   * two-character string is a one-character key and value; a list or
   * mapping as key is unhashable.
   */
  function PairOf(e: Value): (r: Pair)
    ensures r.Keyed? ==> (e.List? && |e.items| == 2 && e.items[0] == Str(r.key) && e.items[1] == r.value) ||
                         (e.Str? && |e.s| == 2 && r.key == [e.s[0]] && r.value == Str([e.s[1]]))
    ensures e.List? && |e.items| == 2 && e.items[0].Str? ==> r == Keyed(e.items[0].s, e.items[1])
    ensures !(e.List? && |e.items| == 2) && !(e.Str? && |e.s| == 2) ==> r.Refused?
  {
    match e
    case List(items) =>
      if |items| != 2 then Refused
      else if items[0].Str? then Keyed(items[0].s, items[1])
      else if items[0].List? || items[0].Dict? then Refused
      else OtherKey
    case Str(s) => if |s| == 2 then Keyed([s[0]], Str([s[1]])) else Refused
    case _ => Refused
  }

  /** `dict(items)` for a list: each pair in turn, a later key overwriting an earlier one. */
  function PairsDict(items: seq<Value>): (r: Option<map<string, Value>>)
    ensures r.Some? <==> forall i :: 0 <= i < |items| ==> !PairOf(items[i]).Refused?
    decreases |items|
  {
    if items == [] then Some(map[])
    else
      var prev := PairsDict(items[..|items| - 1]);
      var p := PairOf(items[|items| - 1]);
      assert forall i :: 0 <= i < |items| - 1 ==> items[..|items| - 1][i] == items[i];
      if prev.None? || p.Refused? then None
      else if p.Keyed? then Some(prev.value[p.key := p.value])
      else prev
  }

  /**
   * `dict(yaml.safe_load(stream))`: a mapping is copied and a list of
   * pairs is collected; the empty string gives an empty dict; anything
   * else raises.
   */
  function DictOf(v: Value): (r: Option<map<string, Value>>)
    ensures v.Dict? ==> r == Some(v.entries)
    ensures r.Some? ==> v.Dict? || v.List? || v == Str("")
    ensures v.List? ==> (r.Some? <==> forall i :: 0 <= i < |v.items| ==> !PairOf(v.items[i]).Refused?)
  {
    match v
    case Dict(entries) => Some(entries)
    case List(items) => PairsDict(items)
    case Str(s) => if s == "" then Some(map[]) else None
    case _ => None
  }

  /**
   * The file lists the device code under `metadata.supported_device_codes`.
   * Files that fail to load, that `dict` cannot take, that lack a metadata
   * mapping or whose code list does not support `in` are skipped by the
   * bare `except`.
   */
  predicate Supports(text: Text, code: string)
  {
    text.Yaml? && DictOf(text.doc).Some? &&
    var meta := Get(DictOf(text.doc).value, "metadata", Dict(map[]));
    meta.Dict? &&
    Membership(code, Get(meta.entries, "supported_device_codes", List([]))) == Some(true)
  }

  /** A YAML list holding one `[metadata, {supported_device_codes: [code]}]` pair. */
  function PairListDoc(code: string): Value
  {
    List([List([Str("metadata"), Dict(map["supported_device_codes" := List([Str(code)])])])])
  }

  /**
   * A file whose top level is a list of pairs passes the search, since
   * `dict` takes it, yet the schema wants a mapping: the search stops at
   * it and loading it gives no config, whatever files come after it.
   */
  lemma PairListChosen(code: string, path: string, later: seq<ConfigFile>)
    ensures var f := ConfigFile(path, Yaml(PairListDoc(code)));
            FirstSupporting([f] + later, code) == Some(f) && FromFile(Some(f.text)) == Success(None)
  {
    var doc := PairListDoc(code);
    var pair := List([Str("metadata"), Dict(map["supported_device_codes" := List([Str(code)])])]);
    assert PairOf(pair) == Keyed("metadata", Dict(map["supported_device_codes" := List([Str(code)])]));
    assert doc.items == [pair];
    assert doc.items[..0] == [];
    assert PairsDict(doc.items[..0]) == Some(map[]);
    assert PairsDict(doc.items) == Some(map[]["metadata" := Dict(map["supported_device_codes" := List([Str(code)])])]);
    assert DictOf(doc) == Some(map["metadata" := Dict(map["supported_device_codes" := List([Str(code)])])]);
    assert Str(code) in [Str(code)];
    assert ([ConfigFile(path, Yaml(doc))] + later)[0] == ConfigFile(path, Yaml(doc));
  }

  function FirstSupportingFrom(files: seq<ConfigFile>, code: string, i: nat): (r: Option<ConfigFile>)
    requires i <= |files|
    ensures r.Some? ==> exists k :: i <= k < |files| && files[k] == r.value && Supports(r.value.text, code)
                          && forall j :: i <= j < k ==> !Supports(files[j].text, code)
    ensures r.None? ==> forall j :: i <= j < |files| ==> !Supports(files[j].text, code)
    decreases |files| - i
  {
    if i == |files| then None
    else if Supports(files[i].text, code) then Some(files[i])
    else FirstSupportingFrom(files, code, i + 1)
  }

  /** The first file, in listing order, that supports the code. */
  function FirstSupporting(files: seq<ConfigFile>, code: string): Option<ConfigFile>
  {
    FirstSupportingFrom(files, code, 0)
  }

  /** `_find_config_file(device_code, directory)` */
  method FindConfigFile(code: string, files: seq<ConfigFile>) returns (found: Option<ConfigFile>)
    ensures found == FirstSupporting(files, code)
    ensures found.Some? ==> found.value in files && Supports(found.value.text, code)
    ensures found.None? ==> forall j :: 0 <= j < |files| ==> !Supports(files[j].text, code)
  {
    var i := 0;
    while i < |files|
      invariant 0 <= i <= |files|
      invariant FirstSupportingFrom(files, code, i) == FirstSupporting(files, code)
    {
      if Supports(files[i].text, code) {
        return Some(files[i]);
      }
      i := i + 1;
    }
    return None;
  }

  /** The metadata default that `_load_config` adds to asset configs. */
  function WithAdditionalStepsDefault(c: Config): (r: Config)
    ensures "additional_steps" in c.metadata ==> r == c
    ensures r.metadata.Keys == c.metadata.Keys + {"additional_steps"}
    ensures "additional_steps" !in c.metadata ==> r.metadata["additional_steps"] == Str("[]")
    ensures forall k :: k in c.metadata ==> r.metadata[k] == c.metadata[k]
    ensures r.(metadata := c.metadata) == c
  {
    if "additional_steps" in c.metadata then c
    else c.(metadata := c.metadata["additional_steps" := Str("[]")])
  }

  /**
   * `_load_config(device_code, config_path)`: a config next to the
   * executable (`cwd`) wins over the bundled ones (`assets`). A custom file
   * that fails to load raises, since its metadata is logged; an asset
   * config gets `additional_steps` defaulted in its metadata (its
   * `additional_steps` attribute keeps the value read at construction).
   */
  method LoadConfig(code: string, cwd: seq<ConfigFile>, assets: seq<ConfigFile>)
    returns (r: Result<Option<Config>>)
    ensures FirstSupporting(cwd, code).Some? ==>
              var custom := FromFile(Some(FirstSupporting(cwd, code).value.text));
              (r.Failure? <==> !(custom.Success? && custom.value.Some?)) &&
              (r.Success? ==> r == custom)
    ensures FirstSupporting(cwd, code).None? && FirstSupporting(assets, code).None? ==> r == Success(None)
    ensures FirstSupporting(cwd, code).None? && FirstSupporting(assets, code).Some? ==>
              var bundled := FromFile(Some(FirstSupporting(assets, code).value.text));
              r.Success? && (r.value.Some? <==> bundled.value.Some?) &&
              (r.value.Some? ==> r.value.value == WithAdditionalStepsDefault(bundled.value.value))
    ensures r.Success? && r.value.Some? && FirstSupporting(cwd, code).None? ==>
              "additional_steps" in r.value.value.metadata
  {
    var custom := FindConfigFile(code, cwd);
    if custom.Some? {
      var config := FromFile(Some(custom.value.text));
      if config.Success? && config.value.None? {
        return Failure("AttributeError");
      }
      return config;
    }
    var path := FindConfigFile(code, assets);
    if path.Some? {
      var config := FromFile(Some(path.value.text));
      if config.Success? && config.value.Some? {
        config := Success(Some(WithAdditionalStepsDefault(config.value.value)));
      }
      return config;
    }
    return Success(None);
  }
}
