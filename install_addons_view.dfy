/**
 * The addon installation view: each selected addon is flashed in turn,
 * then the phone reboots; without addons it simply reboots.
 */
module InstallAddonsViews {
  import opened Wrappers
  import opened PyStr
  import opened Tooling
  import opened Streams
  import opened Session

  const InstallFailed: string := "Installation failed! Try again or make sure everything is setup correctly."

  /** `f"{k + 1}/{n}: Installing {Path(path).name} ..."` */
  function InfoText(k: nat, n: nat, path: string): string
  {
    NatToString(k + 1) + "/" + NatToString(n) + ": Installing " + AfterLast(path, "/") + " ..."
  }

  /** The streams of `adb_twrp_install_addon` for the addons, one after another. */
  function AddonItems(paths: seq<string>, binPath: string, isAb: bool,
                      installAddon: (string, string, bool) -> seq<Item>): seq<Item>
    decreases |paths|
  {
    if paths == [] then []
    else AddonItems(paths[..|paths| - 1], binPath, isAb, installAddon) + installAddon(paths[|paths| - 1], binPath, isAb)
  }

  /**
   * What the loop variable holds after the addons and the final stream: the
   * final stream's last element if it has one, else the last element of the
   * latest addon stream that had any.
   */
  function Verdict(paths: seq<string>, binPath: string, isAb: bool,
                   installAddon: (string, string, bool) -> seq<Item>, final: seq<Item>): Option<Item>
  {
    LastOf(final, LastOf(AddonItems(paths, binPath, isAb, installAddon), None))
  }

  /** A final stream that yields anything decides the outcome alone; the addon streams only matter when it is empty. */
  lemma FinalStreamDecides(paths: seq<string>, binPath: string, isAb: bool,
                           installAddon: (string, string, bool) -> seq<Item>, final: seq<Item>)
    ensures final != [] ==> Verdict(paths, binPath, isAb, installAddon, final) == Some(final[|final| - 1])
    ensures final == [] ==> Verdict(paths, binPath, isAb, installAddon, final) ==
                            LastOf(AddonItems(paths, binPath, isAb, installAddon), None)
  {
  }

  /** The progress line numbers the addons from 1 and ends with the addon's file name. */
  lemma {:induction false} InfoTextNumbers(k: nat, n: nat, dir: string, name: string)
    requires !Contains(name, "/")
    ensures InfoText(k, n, dir + "/" + name) ==
            NatToString(k + 1) + "/" + NatToString(n) + ": Installing " + name + " ..."
  {
    AfterLastOf(dir, "/", name);
  }

  /**
   * The loop of `run_install_addons` over the selected addons: announce
   * each (`info` is the last announcement), then drain its stream, the loop
   * variable carrying over from one addon to the next. The a/b flag is read
   * in the first round.
   */
  method InstallEach(paths: seq<string>, binPath: string, config: Option<SessionConfig>,
                     installAddon: (string, string, bool) -> seq<Item>)
    returns (raised: Option<string>, line: Option<Item>, installed: seq<string>, info: Option<string>)
    ensures var n := |paths|;
            (n == 0 ==> raised.None? && line.None? && info.None?) &&
            (n > 0 && config.None? ==> raised == Some("AttributeError") && info == Some(InfoText(0, n, paths[0]))) &&
            (n > 0 && config.Some? ==>
               raised.None? && info == Some(InfoText(n - 1, n, paths[n - 1])) &&
               line == LastOf(AddonItems(paths, binPath, config.value.isAb, installAddon), None))
    ensures raised.None? ==> installed == paths
    ensures raised.Some? ==> installed == []
  {
    var n := |paths|;
    line, info := None, None;
    installed := [];
    if n == 0 {
      return None, None, [], None;
    }
    if config.None? {
      // The first round announces its addon and then fails reading the a/b flag.
      return Some("AttributeError"), None, [], Some(InfoText(0, n, paths[0]));
    }
    var isAb := config.value.isAb;
    for k := 0 to n
      invariant k > 0 ==> info == Some(InfoText(k - 1, n, paths[k - 1]))
      invariant installed == paths[..k]
      invariant line == LastOf(AddonItems(paths[..k], binPath, isAb, installAddon), None)
    {
      info := Some(InfoText(k, n, paths[k]));
      var items := installAddon(paths[k], binPath, isAb);
      AddonStep(paths, k, binPath, isAb, installAddon);
      line := Drain(items, line);
      installed := installed + [paths[k]];
    }
    assert paths[..n] == paths;
    raised := None;
  }

  /** One more round of the loop: the next addon's stream is drained after the earlier ones. */
  lemma AddonStep(paths: seq<string>, k: nat, binPath: string, isAb: bool, installAddon: (string, string, bool) -> seq<Item>)
    requires k < |paths|
    ensures LastOf(AddonItems(paths[..k + 1], binPath, isAb, installAddon), None) ==
            LastOf(installAddon(paths[k], binPath, isAb), LastOf(AddonItems(paths[..k], binPath, isAb, installAddon), None))
  {
    assert paths[..k + 1][..k] == paths[..k];
    LastOfConcat(AddonItems(paths[..k], binPath, isAb, installAddon), installAddon(paths[k], binPath, isAb), None);
  }

  class InstallAddonsView {
    const state: AppState
    /** The attached device, answering the invocations this view issues. */
    const device: Device
    /** The stream of `adb_twrp_install_addon(addon_path, bin_path, is_ab)`. */
    const installAddon: (string, string, bool) -> seq<Item>
    /** The stream of `adb_twrp_finish_install_addons(bin_path, is_ab)`. */
    const finishInstallAddons: (string, bool) -> seq<Item>

    /** The invocations issued from this view so far. */
    var history: seq<Invocation>
    var errorText: string
    var infoText: string
    var progress: nat
    var confirmDisabled: bool
    var installDisabled: bool
    var skipShown: bool

    constructor(state: AppState, device: Device, installAddon: (string, string, bool) -> seq<Item>,
                finishInstallAddons: (string, bool) -> seq<Item>)
      ensures this.state == state && this.device == device && this.installAddon == installAddon
      ensures this.finishInstallAddons == finishInstallAddons && history == [] && progress == 0
    {
      this.state := state;
      this.device := device;
      this.installAddon := installAddon;
      this.finishInstallAddons := finishInstallAddons;
      history := [];
      progress := 0;
    }

    function Env(): Tooling.Env
      reads state
    {
      Tooling.Env(state.binPath, state.platform, device)
    }

    /** `build`: continuing waits for the installation; skipping is offered only in test mode. */
    method Build()
      modifies this
      ensures errorText == "" && infoText == "" && confirmDisabled && !installDisabled
      ensures skipShown == state.test && history == old(history) && progress == old(progress)
    {
      errorText, infoText := "", "";
      confirmDisabled, installDisabled := true, false;
      skipShown := state.test;
    }

    /**
     * `run_install_addons`: flash every selected addon in order, announcing
     * each, then finish (switching slots on an a/b device) or, with no
     * addon selected, reboot. The config's a/b flag is read only when there
     * are addons, so only then does a missing config raise. The last
     * element of the last stream decides; success fills the progress bar.
     */
    method RunInstallAddons() returns (raised: Option<string>, installed: seq<string>)
      modifies this
      ensures skipShown == old(skipShown)
      ensures var paths := state.addonPaths;
              var n := |paths|;
              (paths == [] ==>
                 var t := RunCall(Env(), old(history), AdbRebootCall);
                 history == old(history) + t.issued && infoText == "" && installed == [] &&
                 OutcomeIs(LastOf(t.items, None), old(confirmDisabled), old(progress), raised)) &&
              (paths != [] && state.config.None? ==>
                 raised == Some("AttributeError") && installed == [] && installDisabled && errorText == "" &&
                 infoText == InfoText(0, n, paths[0]) && history == old(history) &&
                 confirmDisabled == old(confirmDisabled) && progress == old(progress)) &&
              (paths != [] && state.config.Some? ==>
                 var isAb := state.config.value.isAb;
                 installed == paths && history == old(history) && infoText == InfoText(n - 1, n, paths[n - 1]) &&
                 OutcomeIs(Verdict(paths, state.binPath, isAb, installAddon, finishInstallAddons(state.binPath, isAb)),
                           old(confirmDisabled), old(progress), raised))
    {
      installDisabled := true;
      errorText, infoText := "", "";
      var paths := state.addonPaths;
      var line, info;
      raised, line, installed, info := InstallEach(paths, state.binPath, state.config, installAddon);
      if info.Some? {
        infoText := info.value;
      }
      if raised.Some? {
        return;
      }
      if paths != [] {
        var final := finishInstallAddons(state.binPath, state.config.value.isAb);
        line := Drain(final, line);
      } else {
        var t := AdbReboot(Env(), history);
        history := history + t.issued;
        line := Drain(t.items, line);
      }
      raised := Finish(line);
    }

    /** The end of `run_install_addons`: no verdict at all leaves the loop variable unbound. */
    method Finish(line: Option<Item>) returns (raised: Option<string>)
      requires installDisabled && errorText == ""
      modifies this
      ensures OutcomeIs(line, old(confirmDisabled), old(progress), raised)
      ensures history == old(history) && infoText == old(infoText) && skipShown == old(skipShown)
    {
      if line.None? {
        return Some("UnboundLocalError");
      }
      raised := None;
      if !Truthy(line.value) {
        installDisabled := false;
        errorText := InstallFailed;
      } else {
        progress := 100;
        confirmDisabled := false;
        installDisabled := true;
      }
    }

    /** How the view ends for the verdict `line`. */
    ghost predicate OutcomeIs(line: Option<Item>, confirmBefore: bool, progressBefore: nat, raised: Option<string>)
      reads this
    {
      (line.None? ==> raised == Some("UnboundLocalError") && installDisabled && errorText == "" &&
                      confirmDisabled == confirmBefore && progress == progressBefore) &&
      (line.Some? && !Truthy(line.value) ==>
         raised.None? && !installDisabled && errorText == InstallFailed &&
         confirmDisabled == confirmBefore && progress == progressBefore) &&
      (line.Some? && Truthy(line.value) ==>
         raised.None? && installDisabled && !confirmDisabled && errorText == "" && progress == 100)
    }
  }

  /** With no addon selected the view's verdict is the exit status of `adb reboot`. */
  lemma NoAddonsVerdict(env: Env, hist: seq<Invocation>)
    ensures var t := RunCall(env, hist, AdbRebootCall);
            var line := LastOf(t.items, None);
            line.Some? && (Truthy(line.value) <==> env.device(hist, InvocationOf(env, AdbRebootCall)).exitCode == 0)
  {
    RunVerdict(env, hist, AdbRebootCall);
  }
}
