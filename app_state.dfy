/**
 * The application state shared by the wizard's views: the paths and flags
 * it is started with, the loaded device config and the queue of steps
 * still to show.
 */
module Session {
  import opened Wrappers
  import opened Document
  import InstallerConfig

  type Step = InstallerConfig.Step

  /**
   * The config object the state reads: the step sections, the metadata
   * mapping, the `requirements` entry (`Null` when absent) and the a/b flag.
   */
  datatype SessionConfig = SessionConfig(
    unlockBootloader: seq<Step>,
    flashRecovery: seq<Step>,
    installOs: seq<Step>,
    metadata: map<string, Value>,
    requirements: Value,
    isAb: bool)

  /** Every step, the bootloader unlock first. */
  function AllSteps(c: SessionConfig): seq<Step>
  {
    c.unlockBootloader + c.flashRecovery + c.installOs
  }

  /** The steps left once the bootloader is known to be unlocked. */
  function SkipUnlockSteps(c: SessionConfig): seq<Step>
  {
    c.flashRecovery + c.installOs
  }

  /** Skipping the unlock drops exactly the unlock section from the front of the queue. */
  lemma SkipUnlockIsSuffix(c: SessionConfig)
    ensures AllSteps(c) == c.unlockBootloader + SkipUnlockSteps(c)
    ensures |AllSteps(c)| == |c.unlockBootloader| + |SkipUnlockSteps(c)|
    ensures AllSteps(c)[|c.unlockBootloader|..] == SkipUnlockSteps(c)
  {
    assert AllSteps(c) == c.unlockBootloader + SkipUnlockSteps(c);
  }

  class AppState {
    const platform: string
    const configPath: string
    const binPath: string
    const test: bool
    const testConfig: Option<string>
    /** `_load_config(device_code, config_path)`: the config supporting the code, if any. */
    const loader: (string, string) -> Option<SessionConfig>
    /** The addon views that the install view puts into `default_views`. */
    const addonViews: seq<string>

    var advanced: bool
    var config: Option<SessionConfig>
    var imagePath: Option<string>
    var recoveryPath: Option<string>
    var steps: Option<seq<Step>>

    // Attributes the views set on the state.
    var numTotalSteps: nat
    var installAddons: bool
    var addonPaths: seq<string>
    var defaultViews: seq<string>

    /**
     * A fresh state keeps its arguments; nothing is selected or loaded yet.
     * The attributes that views set later are not created by this revision
     * of the constructor; here they start empty.
     */
    constructor(platform: string, configPath: string, binPath: string, test: bool, testConfig: Option<string>,
                loader: (string, string) -> Option<SessionConfig>, addonViews: seq<string>)
      ensures this.platform == platform && this.configPath == configPath && this.binPath == binPath
      ensures this.test == test && this.testConfig == testConfig
      ensures this.loader == loader && this.addonViews == addonViews
      ensures !advanced && config.None? && imagePath.None? && recoveryPath.None? && steps.None?
      ensures numTotalSteps == 0 && !installAddons && addonPaths == [] && defaultViews == []
    {
      this.platform := platform;
      this.configPath := configPath;
      this.binPath := binPath;
      this.test := test;
      this.testConfig := testConfig;
      this.loader := loader;
      this.addonViews := addonViews;
      advanced := false;
      config := None;
      imagePath := None;
      recoveryPath := None;
      steps := None;
      numTotalSteps := 0;
      installAddons := false;
      addonPaths := [];
      defaultViews := [];
    }

    /**
     * `load_config(device_code)`: the loader's answer always replaces the
     * config; only a found config replaces the step queue.
     */
    method LoadConfig(deviceCode: string)
      modifies this
      ensures config == loader(deviceCode, configPath)
      ensures config.Some? ==> steps == Some(AllSteps(config.value))
      ensures config.None? ==> steps == old(steps)
      ensures advanced == old(advanced) && imagePath == old(imagePath) && recoveryPath == old(recoveryPath)
      ensures numTotalSteps == old(numTotalSteps) && installAddons == old(installAddons)
      ensures addonPaths == old(addonPaths) && defaultViews == old(defaultViews)
    {
      config := loader(deviceCode, configPath);
      if config.Some? {
        steps := Some(config.value.unlockBootloader + config.value.flashRecovery + config.value.installOs);
      }
    }

    /**
     * `add_default_views(views)`, which this revision of the state does not
     * define: taken to queue the views after those already there.
     */
    method AddDefaultViews(views: seq<string>)
      modifies this
      ensures defaultViews == old(defaultViews) + views
      ensures advanced == old(advanced) && config == old(config) && steps == old(steps)
      ensures imagePath == old(imagePath) && recoveryPath == old(recoveryPath)
      ensures numTotalSteps == old(numTotalSteps) && installAddons == old(installAddons) && addonPaths == old(addonPaths)
    {
      defaultViews := defaultViews + views;
    }
  }
}
