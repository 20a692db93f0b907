/**
 * The install view: the switch that queues the addon views, and the button
 * that wipes the phone and installs the selected OS image through TWRP.
 */
module InstallViews {
  import opened Wrappers
  import opened PyStr
  import opened Tooling
  import opened Streams
  import opened Session

  const InstallFailed: string := "Installation failed! Try again or make sure everything is setup correctly."

  /** The installation stream always has a first element, the echo of the factory reset. */
  lemma InstallNonEmpty(env: Env, hist: seq<Invocation>, target: string, configPath: string,
                        isAb: bool, installAddons: bool, recovery: Option<string>)
    ensures WipeAndInstall(env, hist, target, configPath, isAb, installAddons, recovery).items != []
  {
    var calls := PrepareCalls(target);
    var first := RunCall(env, hist, calls[0]);
    var prep := Script(env, hist, calls);
    assert prep == Then(first, Script(env, hist + first.issued, calls[1..]));
    RunShape(env, hist, calls[0]);
    assert prep.items != [];
  }

  /**
   * Without addons the view reports success exactly when the final
   * `adb reboot` exits with 0, whatever failed before it.
   */
  lemma InstallViewVerdict(env: Env, hist: seq<Invocation>, target: string, configPath: string,
                           isAb: bool, recovery: Option<string>)
    ensures var t := WipeAndInstall(env, hist, target, configPath, isAb, false, recovery);
            var line := LastOf(t.items, None);
            var n := |t.issued|;
            n >= 1 && t.issued[n - 1] == InvocationOf(env, AdbRebootCall) && line.Some? &&
            (Truthy(line.value) <==> env.device(hist + t.issued[..n - 1], t.issued[n - 1]).exitCode == 0)
  {
    WipeAndInstallVerdict(env, hist, PrepareCalls(target), ["dalvik", "cache"], HelperCall(configPath), isAb, recovery);
  }

  class InstallView {
    const state: AppState
    /** The attached device, answering the invocations this view issues. */
    const device: Device

    /** The invocations issued from this view so far. */
    var history: seq<Invocation>
    var errorText: string
    var confirmDisabled: bool
    var installDisabled: bool
    var addonsSwitchDisabled: bool
    var skipShown: bool

    constructor(state: AppState, device: Device)
      ensures this.state == state && this.device == device && history == []
    {
      this.state := state;
      this.device := device;
      history := [];
    }

    function Env(): Tooling.Env
      reads state
    {
      Tooling.Env(state.binPath, state.platform, device)
    }

    /** `build`: continuing waits for the installation; skipping is offered only in test mode. */
    method Build()
      modifies this
      ensures errorText == "" && confirmDisabled && !installDisabled && !addonsSwitchDisabled
      ensures skipShown == state.test && history == old(history)
    {
      errorText := "";
      confirmDisabled := true;
      installDisabled := false;
      addonsSwitchDisabled := false;
      skipShown := state.test;
    }

    /**
     * `check_addons_switch`: turning it on queues the addon views after the
     * default views and marks the addons for installation; turning it off
     * empties the queue of default views altogether.
     */
    method CheckAddonsSwitch(value: bool)
      modifies state
      ensures state.installAddons == value
      ensures value ==> state.defaultViews == old(state.defaultViews) + state.addonViews
      ensures !value ==> state.defaultViews == []
      ensures state.config == old(state.config) && state.steps == old(state.steps)
      ensures state.addonPaths == old(state.addonPaths) && state.advanced == old(state.advanced)
      ensures state.imagePath == old(state.imagePath) && state.recoveryPath == old(state.recoveryPath) &&
              state.numTotalSteps == old(state.numTotalSteps)
    {
      if value {
        state.AddDefaultViews(state.addonViews);
        state.installAddons := true;
      } else {
        state.defaultViews := [];
        state.installAddons := false;
      }
    }

    /**
     * `run_install`: both controls are disabled and the error cleared; the
     * arguments read the config's a/b flag, so a missing config raises. The
     * installation stream runs to its end and its last element decides: a
     * failure lets the user retry, a success lets them continue.
     */
    method RunInstall() returns (raised: Option<string>)
      modifies this
      ensures addonsSwitchDisabled && skipShown == old(skipShown)
      ensures old(state.config).None? ==>
                raised == Some("AttributeError") && installDisabled && errorText == "" &&
                confirmDisabled == old(confirmDisabled) && history == old(history)
      ensures old(state.config).Some? ==>
                var t := WipeAndInstall(Env(), old(history), Show(state.imagePath), state.configPath,
                                        state.config.value.isAb, state.installAddons, state.recoveryPath);
                var line := LastOf(t.items, None);
                history == old(history) + t.issued && line.Some? && raised.None? &&
                (!Truthy(line.value) ==> !installDisabled && errorText == InstallFailed &&
                                         confirmDisabled == old(confirmDisabled)) &&
                (Truthy(line.value) ==> installDisabled && !confirmDisabled && errorText == "")
    {
      installDisabled := true;
      addonsSwitchDisabled := true;
      errorText := "";
      if state.config.None? {
        return Some("AttributeError");
      }
      var env := Env();
      var t := AdbTwrpWipeAndInstall(env, history, Show(state.imagePath), state.configPath,
                                     state.config.value.isAb, state.installAddons, state.recoveryPath);
      InstallNonEmpty(env, history, Show(state.imagePath), state.configPath,
                      state.config.value.isAb, state.installAddons, state.recoveryPath);
      history := history + t.issued;
      var line := Drain(t.items, None);
      raised := Conclude(line);
    }

    /** The end of `run_install`: the drained last element decides the buttons and the error text. */
    method Conclude(line: Option<Item>) returns (raised: Option<string>)
      requires line.Some?
      modifies this
      ensures raised.None?
      ensures !Truthy(line.value) ==> !installDisabled && errorText == InstallFailed && confirmDisabled == old(confirmDisabled)
      ensures Truthy(line.value) ==> installDisabled && !confirmDisabled && errorText == ""
      ensures history == old(history) && addonsSwitchDisabled == old(addonsSwitchDisabled) && skipShown == old(skipShown)
    {
      raised := None;
      if !Truthy(line.value) {
        installDisabled := false;
        errorText := InstallFailed;
      } else {
        confirmDisabled := false;
        installDisabled := true;
        errorText := "";
      }
    }
  }
}
