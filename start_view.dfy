/**
 * The start view: the device search that loads the device's config, and
 * the switch that drops the bootloader-unlock steps from the queue.
 */
module StartViews {
  import opened Wrappers
  import opened Document
  import opened Session
  import Tooling

  /** The placeholder name shown when a config has no `devicename`. */
  const NoDeviceName: string := "No device name in config."

  /** The device name the view shows for a loaded config; `Null` when none was loaded. */
  function DeviceNameOf(config: Option<SessionConfig>): Value
  {
    if config.Some? then Get(config.value.metadata, "devicename", Str(NoDeviceName)) else Null
  }

  /** A config was found and names a device, so continuing is allowed. */
  predicate Recognised(config: Option<SessionConfig>)
  {
    Truthy(DeviceNameOf(config))
  }

  /** A config without a `devicename` entry still lets the user continue. */
  lemma MissingNameRecognised(config: Option<SessionConfig>)
    requires config.Some? && "devicename" !in config.value.metadata
    ensures Recognised(config)
  {
  }

  /** `if device_code:` for the code the search produced */
  predicate Detected(code: Option<string>)
  {
    code.Some? && code.value != ""
  }

  class StartView {
    const state: AppState
    var continueDisabled: bool
    var switchDisabled: bool

    constructor(state: AppState)
      ensures this.state == state
    {
      this.state := state;
    }

    /** `build`: continuing and the bootloader switch both start disabled. */
    method Build()
      modifies this
      ensures continueDisabled && switchDisabled
    {
      continueDisabled := true;
      switchDisabled := true;
    }

    /**
     * `check_bootloader_unlocked`: the queue is rebuilt from the config
     * whatever it held, without the unlock steps when the switch is on. With
     * no config loaded, reading its sections raises AttributeError.
     */
    method CheckBootloaderUnlocked(value: bool) returns (raised: Option<string>)
      modifies state
      ensures state.config == old(state.config)
      ensures old(state.config).None? ==> raised == Some("AttributeError") && state.steps == old(state.steps)
                                           && state.numTotalSteps == old(state.numTotalSteps)
      ensures old(state.config).Some? ==>
                raised.None? &&
                state.steps == Some(if value then SkipUnlockSteps(state.config.value) else AllSteps(state.config.value)) &&
                state.numTotalSteps == |state.steps.value|
      ensures state.advanced == old(state.advanced) && state.imagePath == old(state.imagePath)
      ensures state.recoveryPath == old(state.recoveryPath) && state.installAddons == old(state.installAddons)
      ensures state.addonPaths == old(state.addonPaths) && state.defaultViews == old(state.defaultViews)
    {
      if state.config.None? {
        return Some("AttributeError");
      }
      var c := state.config.value;
      if value {
        state.steps := Some(c.flashRecovery + c.installOs);
      } else {
        state.steps := Some(c.unlockBootloader + c.flashRecovery + c.installOs);
      }
      state.numTotalSteps := |state.steps.value|;
      raised := None;
    }

    /**
     * `search_devices`: in test mode the code is the test config's name and
     * no device is queried; otherwise it is what `search_device` reads
     * (which raises for an unknown platform). A detected code loads its
     * config, and a config naming a device enables continuing and the
     * switch; nothing here disables them again.
     */
    method SearchDevices(probe: Tooling.Argv -> Tooling.Probe) returns (raised: Option<string>)
      modifies this, state
      ensures var search := Tooling.SearchDevice(state.platform, state.binPath, probe);
              var code := if state.test then state.testConfig
                          else if search.Success? then search.value else None;
              (raised.Some? <==> !state.test && search.Failure?) &&
              (raised.Some? ==> raised == Some(search.error)) &&
              (raised.None? && Detected(code) ==> state.config == state.loader(code.value, state.configPath)) &&
              (raised.None? && Detected(code) ==>
                 state.steps == if state.config.Some? then Some(AllSteps(state.config.value)) else old(state.steps)) &&
              (raised.Some? || !Detected(code) ==> state.config == old(state.config) && state.steps == old(state.steps)) &&
              var enabled := raised.None? && Detected(code) && Recognised(state.config);
              continueDisabled == (old(continueDisabled) && !enabled) &&
              switchDisabled == (old(switchDisabled) && !enabled)
      ensures state.advanced == old(state.advanced) && state.installAddons == old(state.installAddons)
      ensures state.imagePath == old(state.imagePath) && state.recoveryPath == old(state.recoveryPath)
      ensures state.addonPaths == old(state.addonPaths) && state.numTotalSteps == old(state.numTotalSteps)
      ensures state.defaultViews == old(state.defaultViews)
    {
      var code: Option<string>;
      if state.test {
        code := state.testConfig;
      } else {
        var search := Tooling.SearchDevice(state.platform, state.binPath, probe);
        if search.Failure? {
          return Some(search.error);
        }
        code := search.value;
      }
      raised := None;
      if code.Some? && code.value != "" {
        state.LoadConfig(code.value);
        var deviceName := if state.config.Some? then Get(state.config.value.metadata, "devicename", Str(NoDeviceName)) else Null;
        if Truthy(deviceName) {
          continueDisabled := false;
          switchDisabled := false;
        }
      }
    }
  }
}
