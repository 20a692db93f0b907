/**
 * The views of the earlier single-module layout (`views.py`): the welcome
 * view with the device search and the step view whose commands come from
 * `tool_utils`. Its file selection view is the one of `SelectViews`.
 */
module LegacyViews {
  import opened Wrappers
  import opened PyStr
  import opened Document
  import opened Tooling
  import opened Streams
  import opened Session
  import ToolUtils
  import StepViews

  const NoDevice: string := "No device detected! Connect to USB and try again."

  /** What the "Detected device" text shows: a plain message, or the config's device name with the code. */
  datatype DeviceLabel = Message(text: string) | NameAndCode(name: Value, code: string)

  /** `device_code_mapping.get(code, code)`: a few codes that devices report are renamed. */
  function MapCode(code: string): (r: string)
    ensures code == "C6603" ==> r == "yuga"
    ensures code != "C6603" ==> r == code
  {
    if code == "C6603" then "yuga" else code
  }

  /**
   * Only two reported codes end up as "yuga", and mapping an already
   * mapped code changes nothing: the renamed code is not renamed again.
   */
  lemma MapCodeSettles(code: string)
    ensures MapCode(code) == "yuga" <==> code == "C6603" || code == "yuga"
    ensures MapCode(MapCode(code)) == MapCode(code)
    ensures MapCode(code) != "C6603"
  {
  }

  class WelcomeView {
    const state: AppState
    var deviceLabel: DeviceLabel
    var configFound: bool
    var continueDisabled: bool
    var bootloaderDisabled: bool
    var dialogOpen: bool

    constructor(state: AppState)
      ensures this.state == state
    {
      this.state := state;
    }

    /** `build`: nothing detected yet, continuing and the bootloader checkbox disabled. */
    method Build()
      modifies this
      ensures deviceLabel == Message("") && !configFound && continueDisabled && bootloaderDisabled && !dialogOpen
    {
      deviceLabel, configFound := Message(""), false;
      continueDisabled, bootloaderDisabled, dialogOpen := true, true, false;
    }

    /** `open_developer_options_dlg` and `close_developer_options_dlg` */
    method SetDialog(open: bool)
      modifies this
      ensures dialogOpen == open && continueDisabled == old(continueDisabled) && deviceLabel == old(deviceLabel)
      ensures configFound == old(configFound) && bootloaderDisabled == old(bootloaderDisabled)
    {
      dialogOpen := open;
    }

    /** `check_bootloader_unlocked`: the queue without or with the unlock steps; a missing config raises. */
    method CheckBootloaderUnlocked(value: bool) returns (raised: Option<string>)
      modifies state
      ensures state.config == old(state.config) && state.advanced == old(state.advanced)
      ensures old(state.config).None? ==>
                raised == Some("AttributeError") && state.steps == old(state.steps) &&
                state.numTotalSteps == old(state.numTotalSteps)
      ensures unchanged(state`imagePath, state`recoveryPath, state`installAddons, state`addonPaths, state`defaultViews)
      ensures old(state.config).Some? ==>
                raised.None? &&
                state.steps == Some(if value then SkipUnlockSteps(state.config.value) else AllSteps(state.config.value)) &&
                state.numTotalSteps == |state.steps.value|
    {
      if state.config.None? {
        return Some("AttributeError");
      }
      var c := state.config.value;
      if value {
        state.steps := Some(c.flashRecovery + c.installOs);
      } else {
        state.steps := Some(c.unlockBootloader + c.flashRecovery + c.installOs);
      }
      state.numTotalSteps := |state.steps.value|;
      raised := None;
    }

    /** `check_advanced_box` */
    method CheckAdvancedBox(value: bool)
      modifies state
      ensures state.advanced == value && state.config == old(state.config) && state.steps == old(state.steps)
      ensures unchanged(state`numTotalSteps, state`imagePath, state`recoveryPath,
                        state`installAddons, state`addonPaths, state`defaultViews)
    {
      state.advanced := value;
    }

    /**
     * `search_devices`: the code is the test config's name in test mode,
     * else what `tool_utils.search_device` reads, renamed by the code
     * mapping. A detected code loads its config; this revision reads the
     * config's metadata without checking that one was found, so a missing
     * config raises. A config naming a device enables continuing and the
     * bootloader checkbox; one with an empty name only reports the failure.
     */
    method SearchDevices(probe: Argv -> Probe) returns (raised: Option<string>)
      modifies this, state
      ensures var search := ToolUtils.SearchDevice(state.platform, state.binPath, probe);
              var code := if state.test then state.testConfig
                          else if search.Success? && search.value.Some? && search.value.value != ""
                          then Some(MapCode(search.value.value)) else None;
              var detected := code.Some? && code.value != "";
              (!state.test && search.Failure? ==> raised == Some(search.error) && deviceLabel == old(deviceLabel)) &&
              (!state.test && search.Success? && !detected ==> raised.None? && deviceLabel == Message(NoDevice)) &&
              (state.test && !detected ==> raised.None? && deviceLabel == old(deviceLabel)) &&
              (!detected ==>
                 state.config == old(state.config) && state.steps == old(state.steps) &&
                 continueDisabled == old(continueDisabled) && configFound == old(configFound) &&
                 bootloaderDisabled == old(bootloaderDisabled)) &&
              (detected ==>
                 state.config == state.loader(code.value, state.configPath) &&
                 (state.config.None? ==> raised == Some("AttributeError") && deviceLabel == Message(code.value) &&
                                         state.steps == old(state.steps) &&
                                         continueDisabled == old(continueDisabled) && configFound == old(configFound) &&
                                         bootloaderDisabled == old(bootloaderDisabled)) &&
                 (state.config.Some? ==>
                    var name := Get(state.config.value.metadata, "devicename", Str("No device name in config."));
                    raised.None? && state.steps == Some(AllSteps(state.config.value)) &&
                    (Document.Truthy(name) ==>
                       configFound && !continueDisabled && !bootloaderDisabled &&
                       deviceLabel == NameAndCode(name, code.value)) &&
                    (!Document.Truthy(name) ==>
                       configFound == old(configFound) && continueDisabled == old(continueDisabled) &&
                       bootloaderDisabled == old(bootloaderDisabled) &&
                       deviceLabel == Message("Failed to load config for " + code.value + "."))))
      ensures dialogOpen == old(dialogOpen)
      ensures state.advanced == old(state.advanced) && state.installAddons == old(state.installAddons)
      ensures state.imagePath == old(state.imagePath) && state.recoveryPath == old(state.recoveryPath)
      ensures state.addonPaths == old(state.addonPaths) && state.numTotalSteps == old(state.numTotalSteps)
      ensures state.defaultViews == old(state.defaultViews)
    {
      var code: Option<string>;
      if state.test {
        code := state.testConfig;
      } else {
        var search := ToolUtils.SearchDevice(state.platform, state.binPath, probe);
        if search.Failure? {
          return Some(search.error);
        }
        code := search.value;
        if code.Some? && code.value != "" {
          code := Some(MapCode(code.value));
          deviceLabel := Message(code.value);
        } else {
          code := None;
          deviceLabel := Message(NoDevice);
        }
      }
      raised := None;
      if code.Some? && code.value != "" {
        deviceLabel := Message(code.value);
        state.LoadConfig(code.value);
        if state.config.None? {
          return Some("AttributeError");
        }
        var name := Get(state.config.value.metadata, "devicename", Str("No device name in config."));
        if Document.Truthy(name) {
          configFound, continueDisabled, bootloaderDisabled := true, false, false;
          deviceLabel := NameAndCode(name, code.value);
        } else {
          deviceLabel := Message("Failed to load config for " + code.value + ".");
        }
      }
    }
  }

  /** The operations this revision's step view runs, with their bound arguments. */
  datatype LegacyOp =
    | Simple(name: string)
    | Sideload(target: Option<string>)
    | WipeAndInstallOp(target: Option<string>)
    | FlashRecoveryOp(recovery: Option<string>)
    | UnlockWithCode(code: string)
    | HeimdallRecovery(recovery: Option<string>)

  const SimpleCommands: seq<string> :=
    ["adb_reboot", "adb_reboot_bootloader", "adb_reboot_download", "fastboot_unlock", "fastboot_oem_unlock",
     "fastboot_reboot"]

  /**
   * The dispatch of `call_to_phone`: the six argument-free commands of the
   * table, then the five that take the image, recovery or typed code.
   */
  function LegacyCommandOp(name: string, imagePath: Option<string>, recoveryPath: Option<string>,
                           inputText: string): Option<LegacyOp>
  {
    if name in SimpleCommands then Some(Simple(name))
    else if name == "adb_sideload" then Some(Sideload(imagePath))
    else if name == "adb_twrp_wipe_and_install" then Some(WipeAndInstallOp(imagePath))
    else if name == "fastboot_flash_recovery" then Some(FlashRecoveryOp(recoveryPath))
    else if name == "fastboot_unlock_with_code" then Some(UnlockWithCode(inputText))
    else if name == "heimdall_flash_recovery" then Some(HeimdallRecovery(recoveryPath))
    else None
  }

  /** The operation of a step's command; a step without one has none. */
  function StepOp(command: Option<string>, imagePath: Option<string>, recoveryPath: Option<string>,
                  inputText: string): Option<LegacyOp>
  {
    if command.Some? then LegacyCommandOp(command.value, imagePath, recoveryPath, inputText) else None
  }

  /** The commands `call_to_phone` knows are exactly the eleven of its table; the others raise. */
  lemma LegacyCommands(name: string, imagePath: Option<string>, recoveryPath: Option<string>, inputText: string)
    ensures var r := LegacyCommandOp(name, imagePath, recoveryPath, inputText);
            (name in SimpleCommands ==> r == Some(Simple(name))) &&
            (r.None? <==> name !in SimpleCommands && name != "adb_sideload" && name != "adb_twrp_wipe_and_install" &&
                          name != "fastboot_flash_recovery" && name != "fastboot_unlock_with_code" &&
                          name != "heimdall_flash_recovery")
  {
  }

  /** The terminal line one item adds: a non-blank text line, stripped, after a `>`. */
  function EchoOf(it: Item): seq<string>
  {
    if it.Line? && Strip(it.text) != "" then [">" + Strip(it.text)] else []
  }

  /** The terminal lines a stream adds in advanced mode. */
  function Echoed(items: seq<Item>): seq<string>
    decreases |items|
  {
    if items == [] then [] else Echoed(items[..|items| - 1]) + EchoOf(items[|items| - 1])
  }

  /** At most one terminal line per item, and every one of them is a `>` prompt followed by text. */
  lemma {:induction false} EchoedLines(items: seq<Item>)
    ensures var r := Echoed(items);
            |r| <= |items| && forall k :: 0 <= k < |r| ==> |r[k]| >= 2 && r[k][0] == '>'
    decreases |items|
  {
    if items != [] {
      EchoedLines(items[..|items| - 1]);
    }
  }

  /** Echoing two streams in turn is echoing their concatenation. */
  lemma {:induction false} EchoedConcat(a: seq<Item>, b: seq<Item>)
    ensures Echoed(a + b) == Echoed(a) + Echoed(b)
    decreases |b|
  {
    if b != [] {
      var b0 := b[..|b| - 1];
      assert (a + b)[..|a + b| - 1] == a + b0;
      assert (a + b)[|a + b| - 1] == b[|b| - 1];
      EchoedConcat(a, b0);
    } else {
      assert a + b == a;
    }
  }

  /** Verdicts never reach the terminal: a stream of verdicts only echoes nothing. */
  lemma {:induction false} EchoedVerdicts(items: seq<Item>)
    requires forall k :: 0 <= k < |items| ==> items[k].Done?
    ensures Echoed(items) == []
    decreases |items|
  {
    if items != [] {
      EchoedVerdicts(items[..|items| - 1]);
    }
  }

  /**
   * The loop of `call_to_phone` over a stream: in advanced mode each
   * non-blank text line goes to the terminal; the loop variable ends on
   * the last element.
   */
  method EchoDrain(items: seq<Item>, advanced: bool, terminal: seq<string>) returns (line: Option<Item>, out: seq<string>)
    ensures line == LastOf(items, None)
    ensures out == terminal + (if advanced then Echoed(items) else [])
  {
    line, out := None, terminal;
    for i := 0 to |items|
      invariant line == LastOf(items[..i], None)
      invariant out == terminal + (if advanced then Echoed(items[..i]) else [])
    {
      var it := items[i];
      assert items[..i + 1][..i] == items[..i];
      if advanced {
        out := out + EchoOf(it);
      }
      line := Some(it);
    }
    assert items[..|items|] == items;
  }

  /** What this revision appends below a step: the progress bar while a command runs, a failure message after one. */
  datatype Widget = ProgressBar | FailText(text: string)

  /** What the end of a known command's run leaves: the exception raised, the widgets and whether it succeeded. */
  datatype Effect = Effect(raised: Option<string>, widgets: seq<Widget>, succeeded: bool)

  /**
   * What follows the stream loop of `call_to_phone`, given the loop
   * variable and the widgets with the progress bar on top: the bar is
   * popped, and replaced by a failure message unless the verdict is true;
   * an empty stream left the loop variable unbound.
   */
  function CallEffect(line: Option<Item>, shown: seq<Widget>, name: string): Effect
    requires shown != []
  {
    if line.None? then Effect(Some("UnboundLocalError"), shown, false)
    else if !Streams.Truthy(line.value) then Effect(None, shown[..|shown| - 1] + [FailText(StepViews.CommandFailed(name))], false)
    else Effect(None, shown[..|shown| - 1], true)
  }

  /**
   * The meaning of an effect after a stream: success exactly when the
   * stream ends on a true verdict, an exception exactly when it is empty,
   * the widgets back as before on success and with one addition
   * otherwise.
   */
  lemma CallEffectMeaning(items: seq<Item>, widgets: seq<Widget>, name: string)
    ensures var e := CallEffect(LastOf(items, None), widgets + [ProgressBar], name);
            (e.succeeded <==> items != [] && Streams.Truthy(items[|items| - 1])) &&
            (e.raised.Some? <==> items == []) &&
            (e.succeeded ==> e.widgets == widgets) &&
            (!e.succeeded ==> |e.widgets| == |widgets| + 1 && e.widgets[..|widgets|] == widgets)
  {
    var shown := widgets + [ProgressBar];
    assert shown[..|shown| - 1] == widgets;
    assert (widgets + [ProgressBar])[..|widgets|] == widgets;
    assert (widgets + [FailText(StepViews.CommandFailed(name))])[..|widgets|] == widgets;
  }

  class LegacyStepView {
    const step: Step
    const state: AppState
    /** The stream of a `tool_utils` operation run with `bin_path`. */
    const run: (LegacyOp, string) -> seq<Item>

    var inputText: string
    var terminal: seq<string>
    var terminalShown: bool
    var widgets: seq<Widget>
    var confirmDisabled: bool
    var hasCallButton: bool
    var callDisabled: bool
    var skipShown: bool

    constructor(step: Step, state: AppState, run: (LegacyOp, string) -> seq<Item>)
      ensures this.step == step && this.state == state && this.run == run
      ensures inputText == "" && terminal == [] && widgets == []
    {
      this.step := step;
      this.state := state;
      this.run := run;
      inputText, terminal, widgets := "", [], [];
    }

    /**
     * `build`: as in the later step view, except that only a plain call
     * step shows the terminal, and only when advanced output is on.
     */
    method Build() returns (raised: Option<string>)
      modifies this
      ensures var k := StepViews.KindOf(step.kind);
              var call := k == Some(StepViews.CallKind) || k == Some(StepViews.CallWithInputKind);
              (raised.Some? <==> k.None?) &&
              (raised.Some? ==> raised == Some(StepViews.UnknownStepType(step.kind)) && !skipShown) &&
              confirmDisabled == call && hasCallButton == call && !callDisabled &&
              terminalShown == (k == Some(StepViews.CallKind) && state.advanced) &&
              (raised.None? ==> skipShown == (step.allowSkip || state.test))
      ensures inputText == old(inputText) && terminal == old(terminal) && widgets == old(widgets)
    {
      var k := StepViews.KindOf(step.kind);
      var call := k == Some(StepViews.CallKind) || k == Some(StepViews.CallWithInputKind);
      confirmDisabled, hasCallButton, callDisabled := call, call, false;
      terminalShown := k == Some(StepViews.CallKind) && state.advanced;
      if k.None? {
        skipShown := false;
        return Some(StepViews.UnknownStepType(step.kind));
      }
      skipShown := step.allowSkip || state.test;
      raised := None;
    }

    /**
     * `call_to_phone`: the terminal is cleared in advanced mode and a
     * progress bar is appended; an unknown command raises and leaves the
     * bar. A known one runs to the end of its stream. The bar is then
     * removed; a failure leaves a message in its place, one more for each
     * failed attempt, and a success lets the user continue.
     */
    method CallToPhone() returns (raised: Option<string>)
      requires hasCallButton
      modifies this`terminal, this`widgets, this`confirmDisabled, this`callDisabled
      ensures hasCallButton && inputText == old(inputText) && skipShown == old(skipShown) && terminalShown == old(terminalShown)
      ensures var op := StepOp(step.command, state.imagePath, state.recoveryPath, inputText);
              op.None? ==>
                raised == Some(StepViews.UnknownCommand(Show(step.command))) &&
                terminal == (if state.advanced then [] else old(terminal)) && widgets == old(widgets) + [ProgressBar] &&
                confirmDisabled == old(confirmDisabled) && callDisabled == old(callDisabled)
      ensures var op := StepOp(step.command, state.imagePath, state.recoveryPath, inputText);
              op.Some? ==>
                var items := run(op.value, state.binPath);
                var e := CallEffect(LastOf(items, None), old(widgets) + [ProgressBar], Show(step.command));
                terminal == (if state.advanced then [] else old(terminal)) + (if state.advanced then Echoed(items) else []) &&
                raised == e.raised && widgets == e.widgets &&
                confirmDisabled == (old(confirmDisabled) && !e.succeeded) &&
                callDisabled == (old(callDisabled) || e.succeeded)
    {
      if state.advanced {
        terminal := [];
      }
      widgets := widgets + [ProgressBar];
      var name := Show(step.command);
      var op := StepOp(step.command, state.imagePath, state.recoveryPath, inputText);
      if op.None? {
        return Some(StepViews.UnknownCommand(name));
      }
      raised := RunKnown(op.value, name);
    }

    /** A known operation of `call_to_phone`, from its stream loop on. */
    method RunKnown(op: LegacyOp, name: string) returns (raised: Option<string>)
      requires widgets != []
      modifies this`terminal, this`widgets, this`confirmDisabled, this`callDisabled
      ensures var items := run(op, state.binPath);
              var e := CallEffect(LastOf(items, None), old(widgets), name);
              terminal == old(terminal) + (if state.advanced then Echoed(items) else []) &&
              raised == e.raised && widgets == e.widgets &&
              confirmDisabled == (old(confirmDisabled) && !e.succeeded) &&
              callDisabled == (old(callDisabled) || e.succeeded)
    {
      var line;
      line, terminal := EchoDrain(run(op, state.binPath), state.advanced, terminal);
      raised := Conclude(line, name);
    }

    /** The tail of `call_to_phone` once the stream is drained: the bar gives way to the verdict's effect. */
    method Conclude(line: Option<Item>, name: string) returns (raised: Option<string>)
      requires widgets != []
      modifies this`widgets, this`confirmDisabled, this`callDisabled
      ensures var e := CallEffect(line, old(widgets), name);
              raised == e.raised && widgets == e.widgets &&
              confirmDisabled == (old(confirmDisabled) && !e.succeeded) &&
              callDisabled == (old(callDisabled) || e.succeeded)
    {
      var e := CallEffect(line, widgets, name);
      raised, widgets := e.raised, e.widgets;
      if e.succeeded {
        confirmDisabled, callDisabled := false, true;
      }
    }
  }
}
