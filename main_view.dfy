/**
 * The application of the early single-file layout (`openandroidinstaller.py`):
 * a main view that shows the welcome and file selection views and then the
 * config's steps one by one, and a step view that runs a step's command
 * through the shell after filling in its placeholders.
 */
module MainViews {
  import opened Wrappers
  import opened PyStr
  import InstallerConfig
  import SelectViews
  import StepViews

  type Step = InstallerConfig.Step
  type PickedFile = SelectViews.PickedFile

  /** What the main column shows. */
  datatype Screen = Welcome | SelectFiles | StepScreen(step: Step)

  const NoDevice: string := "No device detected! Connect to USB and try again."

  /**
   * The progress fraction `confirm` shows: the step counter less one over
   * the number of steps still queued plus the two default views.
   */
  function Progress(numSteps: int, queued: nat): (r: real)
    ensures numSteps >= 1 ==> 0.0 <= r
    ensures r <= 1.0 <==> numSteps <= queued + 3
  {
    AtMostWhole((numSteps - 1) as real, (queued + 2) as real);
    (numSteps - 1) as real / (queued + 2) as real
  }

  /** A fraction is at most one exactly when its numerator is at most its positive denominator. */
  lemma AtMostWhole(a: real, b: real)
    requires b > 0.0
    ensures a / b <= 1.0 <==> a <= b
    ensures a >= 0.0 ==> a / b >= 0.0
  {
    var q := a / b;
    assert q * b == a;
    if q <= 1.0 {
      assert (1.0 - q) * b >= 0.0;
      assert (1.0 - q) * b == b - a;
    } else {
      assert (q - 1.0) * b == a - b;
      assert a > b;
    }

  }

  /**
   * The queue shrinks while the counter grows, so the confirm that shows
   * the last of `n` steps (counter `n + 2`, one step queued) reports
   * `(n + 1) / 3`: beyond a full bar for any config of more than two steps.
   */
  lemma LastStepProgress(n: nat)
    ensures Progress(n + 2, 1) == (n + 1) as real / 3.0
    ensures n > 2 ==> Progress(n + 2, 1) > 1.0
  {
    if n > 2 {
      assert (n + 1) as real > 3.0;
    }
  }

  /** The fraction grows from one confirm to the next: the counter rises by one and the queue does not grow. */
  lemma ProgressGrows(numSteps: int, queued: nat, next: nat)
    requires numSteps >= 1 && next <= queued
    ensures Progress(numSteps, queued) < Progress(numSteps + 1, next)
  {
    var a, b, c := (numSteps - 1) as real, (queued + 2) as real, (next + 2) as real;
    SmallerDenominator(a, b, c);
    assert a / c < (a + 1.0) / c;
  }

  /** A non-negative numerator over a smaller positive denominator gives at least as much. */
  lemma SmallerDenominator(a: real, b: real, c: real)
    requires a >= 0.0 && b >= c > 0.0
    ensures a / b <= a / c
  {
    assert a * c <= a * b;
  }

  class MainView {
    /** `InstallerConfig.from_file(path)` of this revision: the steps of the config, or the error it raises. */
    const fromFile: string -> Result<Option<seq<Step>>>

    /** The loaded config, by its remaining steps (`None` until one loads). */
    var config: Option<seq<Step>>
    var progress: real
    var numSteps: int
    var defaultViews: seq<Screen>
    var shown: seq<Screen>
    var selectedImage: string
    var selectedRecovery: string
    var imagePath: string
    var recoveryPath: string
    var inputText: string

    /** `__init__`: no config, an empty bar, and the default views ordered for popping from the end. */
    constructor(fromFile: string -> Result<Option<seq<Step>>>)
      ensures this.fromFile == fromFile && config.None? && progress == 0.0 && shown == []
      ensures defaultViews == [SelectFiles, Welcome] && numSteps == 2
      ensures selectedImage == "" && selectedRecovery == "" && imagePath == "" && recoveryPath == "" && inputText == ""
    {
      this.fromFile := fromFile;
      config, progress, shown := None, 0.0, [];
      defaultViews, numSteps := [SelectFiles, Welcome], 2;
      selectedImage, selectedRecovery, imagePath, recoveryPath, inputText := "", "", "", "", "";
    }

    /** `build`: the last default view is shown, so the welcome view comes first. */
    method Build() returns (raised: Option<string>)
      modifies this
      ensures old(defaultViews) == [] ==> raised == Some("IndexError") && shown == old(shown) && defaultViews == []
      ensures old(defaultViews) != [] ==>
                raised.None? && shown == old(shown) + [old(defaultViews)[|old(defaultViews)| - 1]] &&
                defaultViews == old(defaultViews)[..|old(defaultViews)| - 1]
      ensures config == old(config) && numSteps == old(numSteps) && progress == old(progress)
      ensures selectedImage == old(selectedImage) && selectedRecovery == old(selectedRecovery)
      ensures imagePath == old(imagePath) && recoveryPath == old(recoveryPath) && inputText == old(inputText)
    {
      if defaultViews == [] {
        return Some("IndexError");
      }
      shown := shown + [defaultViews[|defaultViews| - 1]];
      defaultViews := defaultViews[..|defaultViews| - 1];
      raised := None;
    }

    /**
     * `confirm`: the column is cleared; with a config the bar moves to the
     * fraction of the counter before it is incremented and of the queue
     * before it is popped. Remaining default views come first; after them
     * each confirm shows the first queued step and takes it off the queue.
     */
    method Confirm() returns (raised: Option<string>)
      modifies this
      ensures old(config).Some? ==>
                progress == Progress(old(numSteps), |old(config).value|) && numSteps == old(numSteps) + 1
      ensures old(config).None? ==> progress == old(progress) && numSteps == old(numSteps)
      ensures old(defaultViews) != [] ==>
                raised.None? && shown == [old(defaultViews)[|old(defaultViews)| - 1]] &&
                defaultViews == old(defaultViews)[..|old(defaultViews)| - 1] && config == old(config)
      ensures old(defaultViews) == [] ==>
                defaultViews == [] &&
                (old(config).None? ==> raised == Some("AttributeError") && shown == [] && config.None?) &&
                (old(config) == Some([]) ==> raised == Some("IndexError") && shown == [] && config == Some([])) &&
                (old(config).Some? && old(config).value != [] ==>
                   raised.None? && shown == [StepScreen(old(config).value[0])] &&
                   config == Some(old(config).value[1..]))
      ensures selectedImage == old(selectedImage) && selectedRecovery == old(selectedRecovery)
      ensures imagePath == old(imagePath) && recoveryPath == old(recoveryPath) && inputText == old(inputText)
    {
      shown := [];
      if config.Some? {
        progress := Progress(numSteps, |config.value|);
        numSteps := numSteps + 1;
      }
      raised := None;
      if defaultViews != [] {
        shown := [defaultViews[|defaultViews| - 1]];
        defaultViews := defaultViews[..|defaultViews| - 1];
      } else if config.None? {
        raised := Some("AttributeError");
      } else if config.value == [] {
        raised := Some("IndexError");
      } else {
        shown := [StepScreen(config.value[0])];
        config := Some(config.value[1..]);
      }
    }

    /**
     * `load_config`: the config is whatever `from_file` gives, `None`
     * included, and the answer is true; only a missing file answers false
     * (leaving the config), and any other error propagates.
     */
    method LoadConfig(path: string) returns (ok: bool, raised: Option<string>)
      modifies this
      ensures var r := fromFile(path);
              (r.Success? ==> ok && raised.None? && config == r.value) &&
              (r.Failure? ==> !ok && config == old(config) &&
                              raised == (if r.error == "FileNotFoundError" then None else Some(r.error)))
      ensures shown == old(shown) && defaultViews == old(defaultViews) && numSteps == old(numSteps)
      ensures progress == old(progress) && selectedImage == old(selectedImage) && selectedRecovery == old(selectedRecovery)
      ensures imagePath == old(imagePath) && recoveryPath == old(recoveryPath) && inputText == old(inputText)
    {
      var r := fromFile(path);
      if r.Success? {
        config := r.value;
        return true, None;
      }
      ok := false;
      raised := if r.error == "FileNotFoundError" then None else Some(r.error);
    }

    /**
     * `pick_image_result`: the label shows the picked names, or that the
     * pick was cancelled; the path is then taken from the first file, which
     * raises when none was picked.
     */
    method PickImageResult(files: Option<seq<PickedFile>>) returns (raised: Option<string>)
      modifies this
      ensures selectedImage == PickedText(files)
      ensures raised == PickError(files)
      ensures raised.None? ==> imagePath == files.value[0].path
      ensures raised.Some? ==> imagePath == old(imagePath)
      ensures selectedRecovery == old(selectedRecovery) && recoveryPath == old(recoveryPath) && config == old(config)
      ensures progress == old(progress) && numSteps == old(numSteps) && defaultViews == old(defaultViews)
      ensures shown == old(shown) && inputText == old(inputText)
    {
      selectedImage := PickedText(files);
      raised := PickError(files);
      if raised.None? {
        imagePath := files.value[0].path;
      }
    }

    /** `pick_recovery_result`, the same for the recovery. */
    method PickRecoveryResult(files: Option<seq<PickedFile>>) returns (raised: Option<string>)
      modifies this
      ensures selectedRecovery == PickedText(files)
      ensures raised == PickError(files)
      ensures raised.None? ==> recoveryPath == files.value[0].path
      ensures raised.Some? ==> recoveryPath == old(recoveryPath)
      ensures selectedImage == old(selectedImage) && imagePath == old(imagePath) && config == old(config)
      ensures progress == old(progress) && numSteps == old(numSteps) && defaultViews == old(defaultViews)
      ensures shown == old(shown) && inputText == old(inputText)
    {
      selectedRecovery := PickedText(files);
      raised := PickError(files);
      if raised.None? {
        recoveryPath := files.value[0].path;
      }
    }
  }

  /** A label of this revision after a pick: the names joined by commas, or "Cancelled!". */
  function PickedText(files: Option<seq<PickedFile>>): (r: string)
    ensures !SelectViews.Picked(files) ==> r == "Cancelled!"
    ensures SelectViews.Picked(files) ==> r == JoinWith(SelectViews.Names(files.value), ", ")
  {
    if SelectViews.Picked(files) then JoinWith(SelectViews.Names(files.value), ", ") else "Cancelled!"
  }

  /** What `e.files[0]` raises: TypeError for no list, IndexError for an empty one. */
  function PickError(files: Option<seq<PickedFile>>): (r: Option<string>)
    ensures r.None? <==> SelectViews.Picked(files)
  {
    if files.None? then Some("TypeError") else if files.value == [] then Some("IndexError") else None
  }

  /**
   * A label after a pick of named files is never empty, and neither is a
   * cancelled one, so `enable_button_if_ready` treats a cancelled dialog
   * like a picked file.
   */
  lemma PickedTextNonEmpty(files: Option<seq<PickedFile>>)
    requires files.Some? ==> forall i :: 0 <= i < |files.value| ==> files.value[i].name != ""
    ensures PickedText(files) != ""
  {
    if SelectViews.Picked(files) {
      var names := SelectViews.Names(files.value);
      assert names[0] != "";
      assert |JoinWith(names, ", ")| >= |names[0]|;
    }
  }

  class WelcomeView {
    const main: MainView
    /** The directory of the bundled configs (`CONFIG_PATH`). */
    const configDir: string

    var deviceName: string
    var configFound: bool
    var continueDisabled: bool

    constructor(main: MainView, configDir: string)
      ensures this.main == main && this.configDir == configDir
    {
      this.main := main;
      this.configDir := configDir;
    }

    /** `build`: no device yet, the config box unticked and continuing disabled. */
    method Build()
      modifies this
      ensures deviceName == "" && !configFound && continueDisabled
    {
      deviceName, configFound, continueDisabled := "", false, true;
    }

    /**
     * `search_devices`, with `output` the device name the shell pipeline
     * prints (`None` when it fails): the name is shown and the config file
     * named after it is loaded; continuing is allowed when that load
     * answers true.
     */
    method SearchDevices(output: Option<string>) returns (raised: Option<string>)
      modifies this, main
      ensures output.None? ==> raised.None? && deviceName == NoDevice && main.config == old(main.config) &&
                               continueDisabled == old(continueDisabled) && configFound == old(configFound)
      ensures output.Some? ==>
                var r := main.fromFile(configDir + "/" + Strip(output.value) + ".yaml");
                deviceName == Strip(output.value) &&
                (r.Success? ==> raised.None? && main.config == r.value && configFound && !continueDisabled) &&
                (r.Failure? ==> main.config == old(main.config) && configFound == old(configFound) &&
                                continueDisabled == old(continueDisabled) &&
                                raised == (if r.error == "FileNotFoundError" then None else Some(r.error)))
      ensures main.shown == old(main.shown) && main.defaultViews == old(main.defaultViews)
      ensures main.numSteps == old(main.numSteps) && main.progress == old(main.progress)
      ensures main.selectedImage == old(main.selectedImage) && main.selectedRecovery == old(main.selectedRecovery)
      ensures main.imagePath == old(main.imagePath) && main.recoveryPath == old(main.recoveryPath)
      ensures main.inputText == old(main.inputText)
    {
      if output.None? {
        deviceName := NoDevice;
        return None;
      }
      var name := Strip(output.value);
      deviceName := name;
      var ok;
      ok, raised := main.LoadConfig(configDir + "/" + name + ".yaml");
      if ok {
        configFound, continueDisabled := true, false;
      }
    }
  }

  class SelectFilesView {
    const main: MainView
    var confirmDisabled: bool

    constructor(main: MainView)
      ensures this.main == main
    {
      this.main := main;
    }

    /** `build`: continuing starts disabled. */
    method Build()
      modifies this
      ensures confirmDisabled
    {
      confirmDisabled := true;
    }

    /** `enable_button_if_ready`: continuing is allowed exactly when both labels have text. */
    method EnableButtonIfReady()
      modifies this
      ensures !confirmDisabled <==> main.selectedImage != "" && main.selectedRecovery != ""
    {
      confirmDisabled := !(main.selectedImage != "" && main.selectedRecovery != "");
    }
  }

  /**
   * `call_to_phone`'s placeholders, filled in one after the other: every
   * `<recovery>`, then every `<image>`, then every `<inputtext>`.
   */
  function Substitute(command: string, recovery: string, image: string, input: string): string
  {
    ReplaceAll(ReplaceAll(ReplaceAll(command, "<recovery>", recovery), "<image>", image), "<inputtext>", input)
  }

  /** A command without placeholders runs as it is. */
  lemma SubstituteAbsent(command: string, recovery: string, image: string, input: string)
    requires !Contains(command, "<recovery>") && !Contains(command, "<image>") && !Contains(command, "<inputtext>")
    ensures Substitute(command, recovery, image, input) == command
  {
    ReplaceAbsent(command, "<recovery>", recovery);
    ReplaceAbsent(command, "<image>", image);
    ReplaceAbsent(command, "<inputtext>", input);
  }

  /** A string that is one whole pattern is replaced by the replacement. */
  lemma ReplaceWhole(p: string, q: string)
    requires p != []
    ensures ReplaceAll(p, p, q) == q
  {
    assert At(p, p, 0);
    assert p[|p|..] == [];
    assert Find([], p).None?;
    assert ReplaceAll([], p, q) == [];
  }

  /**
   * The substitution is sequential, not simultaneous: a recovery path that
   * itself reads `<image>` is replaced by the image path in turn.
   */
  lemma SubstituteChains(image: string, input: string)
    requires !Contains(image, "<inputtext>")
    ensures Substitute("<recovery>", "<image>", image, input) == image
  {
    ReplaceWhole("<recovery>", "<image>");
    ReplaceWhole("<image>", image);
    ReplaceAbsent(image, "<inputtext>", input);
  }

  /** The failure text as written: the braces lack the `f` prefix, so it reads `{command}` literally. */
  function FailedTextAsWritten(command: string): string
  {
    "Command {command} failed!"
  }

  /** As written the text is the same whatever command failed. */
  lemma FailedTextAsWrittenIgnoresCommand(a: string, b: string)
    ensures FailedTextAsWritten(a) == FailedTextAsWritten(b)
  {
  }

  /** The failure text as evidently intended: the command that failed, named. */
  function FailedText(command: string): string
  {
    "Command " + command + " failed!"
  }

  /** The intended text names the command and tells different commands apart. */
  lemma FailedTextNamesCommand(a: string, b: string)
    ensures Contains(FailedText(a), a)
    ensures FailedText(a) == FailedText(b) ==> a == b
  {
    ContainsInfix("Command ", a, " failed!");
    if FailedText(a) == FailedText(b) {
      assert |a| == |b|;
      assert a == FailedText(a)[8..8 + |a|];
      assert b == FailedText(b)[8..8 + |b|];
    }
  }

  /** What this revision appends below a step while and after its command runs. */
  datatype Widget = ProgressRing | FailText(text: string) | ContinueButton

  class StepView {
    const step: Step
    const main: MainView
    /** The paths as they were when the view was created; the unlock code field is shared. */
    const imagePath: string
    const recoveryPath: string
    /** `call(command, shell=True)`: the exit status of a shell command line. */
    const shell: string -> int

    var hasConfirm: bool
    var hasCall: bool
    var hasInput: bool
    var skipShown: bool
    var widgets: seq<Widget>

    /** `__init__`: the paths are copied from the main view when the step is shown. */
    constructor(step: Step, main: MainView, shell: string -> int)
      ensures this.step == step && this.main == main && this.shell == shell
      ensures imagePath == main.imagePath && recoveryPath == main.recoveryPath && widgets == []
    {
      this.step := step;
      this.main := main;
      this.shell := shell;
      imagePath, recoveryPath := main.imagePath, main.recoveryPath;
      widgets := [];
    }

    /**
     * `build`: four step types, each with its button (and the code field
     * for a call with input); any other type, the link type included,
     * raises. Skipping is offered exactly when the step allows it.
     */
    method Build() returns (raised: Option<string>)
      modifies this
      ensures var k := StepViews.KindOf(step.kind);
              (raised.Some? <==> k.None? || k == Some(StepViews.LinkKind)) &&
              (raised.Some? ==> raised == Some(StepViews.UnknownStepType(step.kind))) &&
              (raised.None? ==>
                 hasConfirm == (k == Some(StepViews.ConfirmKind)) &&
                 hasCall == (k == Some(StepViews.CallKind) || k == Some(StepViews.CallWithInputKind)) &&
                 hasInput == (k == Some(StepViews.CallWithInputKind)) &&
                 skipShown == step.allowSkip)
      ensures widgets == old(widgets)
    {
      var k := StepViews.KindOf(step.kind);
      hasConfirm := k == Some(StepViews.ConfirmKind);
      hasCall := k == Some(StepViews.CallKind) || k == Some(StepViews.CallWithInputKind);
      hasInput := k == Some(StepViews.CallWithInputKind);
      if k.None? || k == Some(StepViews.LinkKind) {
        return Some(StepViews.UnknownStepType(step.kind));
      }
      skipShown := step.allowSkip;
      raised := None;
    }

    /**
     * `call_to_phone`: the placeholders are filled in, the progress ring
     * goes up while the shell runs the command, and it is then replaced by
     * a failure text for a nonzero status or by a button to continue.
     */
    method CallToPhone(command: string)
      modifies this
      ensures var line := Substitute(command, recoveryPath, imagePath, main.inputText);
              (shell(line) != 0 ==> widgets == old(widgets) + [FailText(FailedTextAsWritten(line))]) &&
              (shell(line) == 0 ==> widgets == old(widgets) + [ContinueButton])
      ensures hasConfirm == old(hasConfirm) && hasCall == old(hasCall) && skipShown == old(skipShown)
      ensures hasInput == old(hasInput)
    {
      var line := Substitute(command, recoveryPath, imagePath, main.inputText);
      widgets := widgets + [ProgressRing];
      var status := shell(line);
      // the ring is popped on either outcome
      if status != 0 {
        widgets := widgets[..|widgets| - 1] + [FailText(FailedTextAsWritten(line))];
      } else {
        widgets := widgets[..|widgets| - 1] + [ContinueButton];
      }
    }
  }
}
