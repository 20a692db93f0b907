/**
 * The addon selection view: any number of addon packages is picked with
 * one file dialog; continuing is always allowed.
 */
module AddonViews {
  import opened Wrappers
  import opened PyStr
  import opened Session
  import opened SelectViews

  const AddonsLabel: string := "Selected addons: "

  /** `[file.path for file in files]` */
  function Paths(files: seq<PickedFile>): (r: seq<string>)
    ensures |r| == |files| && forall i :: 0 <= i < |files| ==> r[i] == files[i].path
  {
    seq(|files|, i requires 0 <= i < |files| => files[i].path)
  }

  class AddonsView {
    const state: AppState
    var addonsLabel: string
    var confirmDisabled: bool
    var dialogOpen: bool

    constructor(state: AppState)
      ensures this.state == state
    {
      this.state := state;
    }

    /** `build`: the label shows its caption and, unlike the file selection, continuing is never disabled. */
    method Build()
      modifies this
      ensures addonsLabel == AddonsLabel && !confirmDisabled && !dialogOpen
    {
      addonsLabel, confirmDisabled, dialogOpen := AddonsLabel, false, false;
    }

    /** `open_explain_addons_dlg` */
    method OpenExplainDialog()
      modifies this
      ensures dialogOpen && addonsLabel == old(addonsLabel) && confirmDisabled == old(confirmDisabled)
    {
      dialogOpen := true;
    }

    /** `close_close_explain_addons_dlg` */
    method CloseExplainDialog()
      modifies this
      ensures !dialogOpen && addonsLabel == old(addonsLabel) && confirmDisabled == old(confirmDisabled)
    {
      dialogOpen := false;
    }

    /**
     * `pick_addons_result`: the label shows the names picked (or that the
     * dialog was cancelled); a pick replaces the addons to install by all
     * the picked paths, in order, and a cancelled one keeps the old ones.
     */
    method PickAddonsResult(files: Option<seq<PickedFile>>)
      modifies this, state
      ensures addonsLabel == PickLabel(old(addonsLabel), files)
      ensures state.addonPaths == if Picked(files) then Paths(files.value) else old(state.addonPaths)
      ensures confirmDisabled == old(confirmDisabled) && dialogOpen == old(dialogOpen)
      ensures state.imagePath == old(state.imagePath) && state.recoveryPath == old(state.recoveryPath)
      ensures state.installAddons == old(state.installAddons) && state.defaultViews == old(state.defaultViews)
      ensures state.advanced == old(state.advanced) && state.config == old(state.config) &&
              state.steps == old(state.steps) && state.numTotalSteps == old(state.numTotalSteps)
    {
      addonsLabel := PickLabel(addonsLabel, files);
      if Picked(files) {
        state.addonPaths := Paths(files.value);
      }
    }
  }
}
