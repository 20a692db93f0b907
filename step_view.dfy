/**
 * The step view: one step of the installation with its buttons, and the
 * call button that runs the step's command on the phone.
 */
module StepViews {
  import opened Wrappers
  import opened PyStr
  import opened Tooling
  import opened Streams
  import opened Session
  import InstallerConfig

  /** The commands the call button can run, with the arguments bound from the state. */
  datatype Op =
    | AdbRebootOp
    | AdbRebootBootloaderOp
    | AdbRebootDownloadOp
    | AdbSideloadOp(target: string)
    | CopyPartitionsOp(configPath: string)
    | FastbootUnlockOp
    | UnlockWithCodeOp(unlockCode: string)
    | FastbootOemUnlockOp
    | GetUnlockDataOp
    | BootRecoveryOp(recovery: string, isAb: bool)
    | FlashBootOp(recovery: string)
    | FastbootRebootOp
    | HeimdallRecoveryOp(recovery: string)

  /** The names of the command table, in its order. */
  const StepCommands: seq<string> :=
    ["adb_reboot", "adb_reboot_bootloader", "adb_reboot_download", "adb_sideload",
     "adb_twrp_copy_partitions", "fastboot_unlock", "fastboot_unlock_with_code",
     "fastboot_oem_unlock", "fastboot_get_unlock_data", "fastboot_boot_recovery",
     "fastboot_flash_boot", "fastboot_reboot", "heimdall_flash_recovery"]

  /**
   * The command table of `call_to_phone`: a name's operation with the image
   * path, config path, typed unlock code, recovery path and a/b flag bound.
   * A path that was never selected is formatted as `None`.
   */
  function CommandOp(name: string, imagePath: Option<string>, configPath: string, inputText: string,
                     recoveryPath: Option<string>, isAb: bool): (r: Option<Op>)
    ensures r.Some? <==> name in StepCommands
  {
    var recovery := Show(recoveryPath);
    if name == "adb_reboot" then Some(AdbRebootOp)
    else if name == "adb_reboot_bootloader" then Some(AdbRebootBootloaderOp)
    else if name == "adb_reboot_download" then Some(AdbRebootDownloadOp)
    else if name == "adb_sideload" then Some(AdbSideloadOp(Show(imagePath)))
    else if name == "adb_twrp_copy_partitions" then Some(CopyPartitionsOp(configPath))
    else if name == "fastboot_unlock" then Some(FastbootUnlockOp)
    else if name == "fastboot_unlock_with_code" then Some(UnlockWithCodeOp(inputText))
    else if name == "fastboot_oem_unlock" then Some(FastbootOemUnlockOp)
    else if name == "fastboot_get_unlock_data" then Some(GetUnlockDataOp)
    else if name == "fastboot_boot_recovery" then Some(BootRecoveryOp(recovery, isAb))
    else if name == "fastboot_flash_boot" then Some(FlashBootOp(recovery))
    else if name == "fastboot_reboot" then Some(FastbootRebootOp)
    else if name == "heimdall_flash_recovery" then Some(HeimdallRecoveryOp(recovery))
    else None
  }

  /**
   * A command the config validator admits but the table lacks (such as
   * `adb_twrp_wipe_and_install` or `fastboot_flash_recovery`) passes
   * validation and then stops the step with the unknown-command error.
   */
  lemma ValidatedButUnknown(name: string, imagePath: Option<string>, configPath: string, inputText: string,
                            recoveryPath: Option<string>, isAb: bool)
    requires name in InstallerConfig.CommandNames && name !in StepCommands
    ensures InstallerConfig.MatchesSome(InstallerConfig.CommandNames, Document.Str(name))
    ensures CommandOp(name, imagePath, configPath, inputText, recoveryPath, isAb).None?
  {
    var i :| 0 <= i < |InstallerConfig.CommandNames| && InstallerConfig.CommandNames[i] == name;
    PyStr.ContainsInfix("", name, "");
  }

  /** The one tool command an operation runs, for those that run exactly one. */
  function SingleCall(op: Op): Option<Call>
  {
    match op
    case AdbRebootOp => Some(AdbRebootCall)
    case AdbRebootBootloaderOp => Some(AdbRebootBootloaderCall)
    case AdbRebootDownloadOp => Some(AdbRebootDownloadCall)
    case AdbSideloadOp(target) => Some(SideloadCall(target))
    case FastbootUnlockOp => Some(FastbootUnlockCall)
    case UnlockWithCodeOp(code) => Some(UnlockWithCodeCall(code))
    case FastbootOemUnlockOp => Some(FastbootOemUnlockCall)
    case GetUnlockDataOp => Some(GetUnlockDataCall)
    case FastbootRebootOp => Some(FastbootRebootCall)
    case HeimdallRecoveryOp(recovery) => Some(HeimdallRecoveryCall(recovery))
    case _ => None
  }

  /**
   * The stream and invocations of an operation. `fastboot_boot_recovery` is
   * not part of the tooling module of this revision; its stream is the
   * oracle `bootRecovery`, which issues nothing that is tracked.
   */
  function OpTrace(env: Env, hist: seq<Invocation>, op: Op, bootRecovery: (string, bool, string) -> seq<Item>): Trace
  {
    match op
    case CopyPartitionsOp(configPath) => Script(env, hist, CopyPartitionsCalls(configPath))
    case BootRecoveryOp(recovery, isAb) => Trace(bootRecovery(recovery, isAb, env.binPath), [])
    case FlashBootOp(recovery) => FlashBoot(env, hist, recovery)
    case _ => RunCall(env, hist, SingleCall(op).value)
  }

  /** `cmd_mapping.get(command)(bin_path=...)`: the tooling operation for an entry of the table. */
  method RunOp(env: Env, hist: seq<Invocation>, op: Op, bootRecovery: (string, bool, string) -> seq<Item>) returns (t: Trace)
    ensures t == OpTrace(env, hist, op, bootRecovery)
  {
    match op {
      case AdbRebootOp => t := AdbReboot(env, hist);
      case AdbRebootBootloaderOp => t := AdbRebootBootloader(env, hist);
      case AdbRebootDownloadOp => t := AdbRebootDownload(env, hist);
      case AdbSideloadOp(target) => t := AdbSideload(env, hist, target);
      case CopyPartitionsOp(configPath) => t := AdbTwrpCopyPartitions(env, hist, configPath);
      case FastbootUnlockOp => t := FastbootUnlock(env, hist);
      case UnlockWithCodeOp(code) => t := FastbootUnlockWithCode(env, hist, code);
      case FastbootOemUnlockOp => t := FastbootOemUnlock(env, hist);
      case GetUnlockDataOp => t := FastbootGetUnlockData(env, hist);
      case BootRecoveryOp(recovery, isAb) => t := Trace(bootRecovery(recovery, isAb, env.binPath), []);
      case FlashBootOp(recovery) => t := FastbootFlashBoot(env, hist, recovery);
      case FastbootRebootOp => t := FastbootReboot(env, hist);
      case HeimdallRecoveryOp(recovery) => t := HeimdallFlashRecovery(env, hist, recovery);
    }
  }

  /** For an operation that runs one tool command, the view's verdict is that command's exit status. */
  lemma SingleCallVerdict(env: Env, hist: seq<Invocation>, op: Op, bootRecovery: (string, bool, string) -> seq<Item>)
    requires SingleCall(op).Some?
    ensures var t := OpTrace(env, hist, op, bootRecovery);
            var line := LastOf(t.items, None);
            t.issued == [InvocationOf(env, SingleCall(op).value)] && line.Some? &&
            (Truthy(line.value) <==> env.device(hist, t.issued[0]).exitCode == 0)
  {
    var c := SingleCall(op).value;
    assert Known(c);
    RunVerdict(env, hist, c);
    RunShape(env, hist, c);
  }

  /** Flashing the boot partition succeeds in the view exactly when the reboot after it exits with 0. */
  lemma FlashBootStepVerdict(env: Env, hist: seq<Invocation>, recovery: string, bootRecovery: (string, bool, string) -> seq<Item>)
    ensures var t := OpTrace(env, hist, FlashBootOp(recovery), bootRecovery);
            var line := LastOf(t.items, None);
            |t.issued| == 2 && line.Some? &&
            (Truthy(line.value) <==> env.device(hist + [t.issued[0]], t.issued[1]).exitCode == 0)
  {
    FlashBootVerdict(env, hist, recovery);
  }

  function UnknownStepType(kind: string): string
  {
    "Unknown step type: " + kind
  }

  function UnknownCommand(command: string): string
  {
    "Unknown command type: " + command + ". Stopping."
  }

  function CommandFailed(command: string): string
  {
    "Command " + command + " failed! Try again or make sure everything is setup correctly."
  }

  /** The step kinds `build` knows. */
  datatype Kind = TextKind | ConfirmKind | CallKind | CallWithInputKind | LinkKind

  /** The kind a step's `type` names, if `build` knows it. */
  function KindOf(kind: string): Option<Kind>
  {
    if kind == "confirm_button" then Some(ConfirmKind)
    else if kind == "call_button" then Some(CallKind)
    else if kind == "call_button_with_input" then Some(CallWithInputKind)
    else if kind == "link_button_with_confirm" then Some(LinkKind)
    else if kind == "text" then Some(TextKind)
    else None
  }

  /** The kinds `build` knows are exactly those the config validator admits as a whole word. */
  lemma KindsValidated(kind: string)
    ensures KindOf(kind).Some? <==> kind in InstallerConfig.StepKinds
  {
  }

  /** The step kinds that get a call button. */
  predicate IsCall(k: Option<Kind>)
  {
    k == Some(CallKind) || k == Some(CallWithInputKind)
  }

  class StepView {
    const step: Step
    const state: AppState
    /** The attached device, answering the invocations this view issues. */
    const device: Device
    /** The stream of `fastboot_boot_recovery(bin_path, recovery, is_ab)`. */
    const bootRecovery: (string, bool, string) -> seq<Item>

    /** The invocations issued from this view so far. */
    var history: seq<Invocation>
    var inputText: string
    var errorText: string
    var confirmShown: bool
    var confirmDisabled: bool
    var hasCallButton: bool
    var callDisabled: bool
    var inputShown: bool
    var skipShown: bool
    var terminalVisible: bool

    constructor(step: Step, state: AppState, device: Device, bootRecovery: (string, bool, string) -> seq<Item>)
      ensures this.step == step && this.state == state && this.device == device && this.bootRecovery == bootRecovery
      ensures history == [] && inputText == ""
    {
      this.step := step;
      this.state := state;
      this.device := device;
      this.bootRecovery := bootRecovery;
      history := [];
      inputText := "";
    }

    /** The environment the view's commands run in. */
    function Env(): Tooling.Env
      reads state
    {
      Tooling.Env(state.binPath, state.platform, device)
    }

    /**
     * `build`: the confirm button is shown for a confirm, call or link step
     * and starts disabled only on a call step, which also gets the call
     * button (and the text field for the code, with input); a text step
     * shows neither. Any other kind raises. Skipping is offered when the
     * step allows it or in test mode.
     */
    method Build() returns (raised: Option<string>)
      modifies this
      ensures var kind := step.kind;
              var k := KindOf(kind);
              (raised.Some? <==> k.None?) &&
              (raised.Some? ==> raised == Some(UnknownStepType(kind)) && !skipShown) &&
              errorText == "" && terminalVisible == state.advanced &&
              confirmShown == (k.Some? && k != Some(TextKind)) &&
              confirmDisabled == IsCall(k) &&
              hasCallButton == IsCall(k) && !callDisabled &&
              inputShown == (k == Some(CallWithInputKind)) &&
              (raised.None? ==> skipShown == (step.allowSkip || state.test))
      ensures history == old(history) && inputText == old(inputText)
    {
      var k := KindOf(step.kind);
      var call := k == Some(CallKind) || k == Some(CallWithInputKind);
      errorText, terminalVisible := "", state.advanced;
      confirmShown, confirmDisabled := k.Some? && k != Some(TextKind), call;
      hasCallButton, callDisabled, inputShown := call, false, k == Some(CallWithInputKind);
      if k.None? {
        skipShown := false;
        return Some(UnknownStepType(step.kind));
      }
      skipShown := step.allowSkip || state.test;
      raised := None;
    }

    /** `check_advanced_switch`: the state follows the switch and the terminal box flips its visibility. */
    method CheckAdvancedSwitch(value: bool)
      modifies this, state
      ensures state.advanced == value && terminalVisible == !old(terminalVisible)
      ensures state.config == old(state.config) && state.steps == old(state.steps)
      ensures history == old(history) && errorText == old(errorText)
      ensures confirmDisabled == old(confirmDisabled) && callDisabled == old(callDisabled)
      ensures inputText == old(inputText) && confirmShown == old(confirmShown) && hasCallButton == old(hasCallButton) &&
              inputShown == old(inputShown) && skipShown == old(skipShown)
      ensures unchanged(state`imagePath, state`recoveryPath, state`numTotalSteps,
                        state`installAddons, state`addonPaths, state`defaultViews)
    {
      state.advanced := value;
      terminalVisible := !terminalVisible;
    }

    /**
     * `call_to_phone`: clear the error and disable the call button; build
     * the command table (which reads the config's a/b flag, so a missing
     * config raises); an unknown command shows and raises its error; a
     * known one runs to the end of its stream, whose last element is the
     * verdict (none at all leaves the loop variable unbound). Failure lets
     * the user retry; success lets them continue.
     */
    method CallToPhone() returns (raised: Option<string>)
      requires hasCallButton
      modifies this
      ensures hasCallButton && inputText == old(inputText) && confirmShown == old(confirmShown)
      ensures inputShown == old(inputShown) && skipShown == old(skipShown) && terminalVisible == old(terminalVisible)
      ensures old(state.config).None? ==>
                raised == Some("AttributeError") && errorText == "" && callDisabled &&
                confirmDisabled == old(confirmDisabled) && history == old(history)
      ensures old(state.config).Some? ==>
                var name := Show(step.command);
                var op := if step.command.Some?
                          then CommandOp(step.command.value, state.imagePath, state.configPath, inputText,
                                         state.recoveryPath, state.config.value.isAb)
                          else None;
                (op.None? ==>
                   raised == Some(UnknownCommand(name)) && errorText == UnknownCommand(name) && callDisabled &&
                   confirmDisabled == old(confirmDisabled) && history == old(history)) &&
                (op.Some? ==>
                   var t := OpTrace(Env(), old(history), op.value, bootRecovery);
                   var line := LastOf(t.items, None);
                   history == old(history) + t.issued &&
                   (line.None? ==> raised == Some("UnboundLocalError") && errorText == "" && callDisabled &&
                                   confirmDisabled == old(confirmDisabled)) &&
                   (line.Some? && !Truthy(line.value) ==>
                      raised.None? && !callDisabled && errorText == CommandFailed(name) &&
                      confirmDisabled == old(confirmDisabled)) &&
                   (line.Some? && Truthy(line.value) ==>
                      raised.None? && callDisabled && !confirmDisabled && errorText == ""))
    {
      errorText := "";
      callDisabled := true;
      if state.config.None? {
        return Some("AttributeError");
      }
      var name := Show(step.command);
      var op := None;
      if step.command.Some? {
        op := CommandOp(step.command.value, state.imagePath, state.configPath, inputText,
                        state.recoveryPath, state.config.value.isAb);
      }
      if op.None? {
        errorText := UnknownCommand(name);
        return Some(UnknownCommand(name));
      }
      var t := RunOp(Env(), history, op.value, bootRecovery);
      history := history + t.issued;
      var line := Drain(t.items, None);
      if line.None? {
        return Some("UnboundLocalError");
      }
      raised := None;
      if !Truthy(line.value) {
        callDisabled := false;
        errorText := CommandFailed(name);
      } else {
        confirmDisabled := false;
        callDisabled := true;
      }
    }
  }
}
