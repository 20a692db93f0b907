/**
 * The file selection view: the OS image and the recovery are picked with
 * file dialogs, and continuing is allowed once both are picked and they
 * work with the device.
 */
module SelectViews {
  import opened Wrappers
  import opened PyStr
  import opened Document
  import opened Session

  /** A file the dialog returns: its name and its full path. */
  datatype PickedFile = PickedFile(name: string, path: string)

  const ImageLabel: string := "Selected image: "
  const RecoveryLabel: string := "Selected recovery: "

  function Names(files: seq<PickedFile>): (r: seq<string>)
    ensures |r| == |files| && forall i :: 0 <= i < |files| ==> r[i] == files[i].name
  {
    seq(|files|, i requires 0 <= i < |files| => files[i].name)
  }

  /** The dialog returned at least one file (`if e.files:`). */
  predicate Picked(files: Option<seq<PickedFile>>)
  {
    files.Some? && files.value != []
  }

  /** What a selection label reads after a dialog closes: its caption and the picked names, or that it was cancelled. */
  function PickLabel(text: string, files: Option<seq<PickedFile>>): string
  {
    Before(text, ":") + ": " + (if Picked(files) then JoinWith(Names(files.value), ", ") else "Cancelled!")
  }

  /** A second pick replaces what the first one wrote: the label only ever shows the latest pick. */
  lemma PickLabelLatest(text: string, first: Option<seq<PickedFile>>, second: Option<seq<PickedFile>>)
    ensures PickLabel(PickLabel(text, first), second) == PickLabel(text, second)
  {
    var caption := Before(text, ":");
    var shown := if Picked(first) then JoinWith(Names(first.value), ", ") else "Cancelled!";
    assert !Contains(caption, ":");
    assert PickLabel(text, first) == caption + ":" + (" " + shown);
    BeforeFirst(caption, ":", " " + shown);
  }

  /** A label that already has a caption before its colon keeps it. */
  lemma PickLabelCaption(caption: string, rest: string, files: Option<seq<PickedFile>>)
    requires !Contains(caption, ":")
    ensures PickLabel(caption + ":" + rest, files) ==
            caption + ": " + (if Picked(files) then JoinWith(Names(files.value), ", ") else "Cancelled!")
  {
    BeforeFirst(caption, ":", rest);
  }

  class SelectFilesView {
    const state: AppState
    /** `image_recovery_works_with_device(device_code, image_path, recovery_path)` */
    const works: (Value, Option<string>, Option<string>) -> bool

    var imageLabel: string
    var recoveryLabel: string
    var confirmDisabled: bool
    /** The message that the files do not work with the device is shown. */
    var mismatchShown: bool

    constructor(state: AppState, works: (Value, Option<string>, Option<string>) -> bool)
      ensures this.state == state && this.works == works
    {
      this.state := state;
      this.works := works;
    }

    /**
     * `build`: both labels start with their caption and continuing is
     * disabled. The download link is looked up for the config's device
     * code, so a missing config raises.
     */
    method Build() returns (raised: Option<string>)
      modifies this
      ensures state.config.None? <==> raised == Some("AttributeError")
      ensures raised.None? ==> imageLabel == ImageLabel && recoveryLabel == RecoveryLabel &&
                               confirmDisabled && !mismatchShown
      ensures raised.Some? ==> imageLabel == old(imageLabel) && recoveryLabel == old(recoveryLabel) &&
                               confirmDisabled == old(confirmDisabled) && mismatchShown == old(mismatchShown)
    {
      if state.config.None? {
        return Some("AttributeError");
      }
      imageLabel, recoveryLabel := ImageLabel, RecoveryLabel;
      confirmDisabled, mismatchShown := true, false;
      raised := None;
    }

    /** `pick_image_result`: the label shows the pick; a picked file becomes the image to install. */
    method PickImageResult(files: Option<seq<PickedFile>>)
      modifies this, state
      ensures imageLabel == PickLabel(old(imageLabel), files)
      ensures state.imagePath == if Picked(files) then Some(files.value[0].path) else old(state.imagePath)
      ensures recoveryLabel == old(recoveryLabel) && state.recoveryPath == old(state.recoveryPath)
      ensures confirmDisabled == old(confirmDisabled) && mismatchShown == old(mismatchShown)
      ensures state.config == old(state.config)
      ensures unchanged(state`advanced, state`steps, state`numTotalSteps,
                        state`installAddons, state`addonPaths, state`defaultViews)
    {
      imageLabel := PickLabel(imageLabel, files);
      if Picked(files) {
        state.imagePath := Some(files.value[0].path);
      }
    }

    /** `pick_recovery_result`: the label shows the pick; a picked file becomes the recovery to flash. */
    method PickRecoveryResult(files: Option<seq<PickedFile>>)
      modifies this, state
      ensures recoveryLabel == PickLabel(old(recoveryLabel), files)
      ensures state.recoveryPath == if Picked(files) then Some(files.value[0].path) else old(state.recoveryPath)
      ensures imageLabel == old(imageLabel) && state.imagePath == old(state.imagePath)
      ensures confirmDisabled == old(confirmDisabled) && mismatchShown == old(mismatchShown)
      ensures state.config == old(state.config)
      ensures unchanged(state`advanced, state`steps, state`numTotalSteps,
                        state`installAddons, state`addonPaths, state`defaultViews)
    {
      recoveryLabel := PickLabel(recoveryLabel, files);
      if Picked(files) {
        state.recoveryPath := Some(files.value[0].path);
      }
    }

    /** Both labels name a file of the right kind. */
    predicate Ready()
      reads this
    {
      Contains(imageLabel, ".zip") && Contains(recoveryLabel, ".img")
    }

    /** The picked files work with the config's device code. */
    predicate FilesWork()
      reads this, state
      requires state.config.Some?
    {
      works(Get(state.config.value.metadata, "devicecode", Null), state.imagePath, state.recoveryPath)
    }

    /**
     * What the readiness check leaves, given the button and message flags
     * before it: not ready disables continuing; ready without a config
     * raises AttributeError and changes nothing; ready with a config shows
     * the mismatch message exactly when the files do not work, enables
     * continuing when they do, and otherwise keeps the button as it was.
     */
    predicate ReadinessChecked(raised: Option<string>, wasDisabled: bool, wasShown: bool)
      reads this, state
    {
      (!Ready() ==> raised.None? && confirmDisabled && mismatchShown == wasShown) &&
      (Ready() && state.config.None? ==>
         raised == Some("AttributeError") && confirmDisabled == wasDisabled && mismatchShown == wasShown) &&
      (Ready() && state.config.Some? ==>
         raised.None? && (mismatchShown <==> !FilesWork()) &&
         (FilesWork() ==> !confirmDisabled) && (!FilesWork() ==> confirmDisabled == wasDisabled))
    }

    /**
     * `enable_button_if_ready`: with a `.zip` in the image label and an
     * `.img` in the recovery label, the files are checked against the
     * config's device code; files that work enable continuing, others show
     * a message and leave the button as it was. Without both, continuing
     * is disabled.
     */
    method EnableButtonIfReady() returns (raised: Option<string>)
      modifies this
      ensures ReadinessChecked(raised, old(confirmDisabled), old(mismatchShown))
      ensures imageLabel == old(imageLabel) && recoveryLabel == old(recoveryLabel)
    {
      raised := None;
      if Contains(imageLabel, ".zip") && Contains(recoveryLabel, ".img") {
        if state.config.None? {
          return Some("AttributeError");
        }
        if !works(Get(state.config.value.metadata, "devicecode", Null), state.imagePath, state.recoveryPath) {
          mismatchShown := true;
          return;
        }
        mismatchShown := false;
        confirmDisabled := false;
      } else {
        confirmDisabled := true;
      }
    }

    /**
     * The image dialog closing: both handlers subscribed to it run, the
     * label update first and the readiness check second.
     */
    method OnImagePicked(files: Option<seq<PickedFile>>) returns (raised: Option<string>)
      modifies this, state
      ensures imageLabel == PickLabel(old(imageLabel), files) && recoveryLabel == old(recoveryLabel)
      ensures state.imagePath == if Picked(files) then Some(files.value[0].path) else old(state.imagePath)
      ensures state.config == old(state.config) && state.recoveryPath == old(state.recoveryPath)
      ensures unchanged(state`advanced, state`steps, state`numTotalSteps,
                        state`installAddons, state`addonPaths, state`defaultViews)
      ensures ReadinessChecked(raised, old(confirmDisabled), old(mismatchShown))
      ensures !Contains(imageLabel, ".zip") ==> raised.None? && confirmDisabled
      ensures !confirmDisabled && old(confirmDisabled) ==> Ready() && state.config.Some? && FilesWork()
    {
      PickImageResult(files);
      raised := EnableButtonIfReady();
    }

    /** The recovery dialog closing: the label update, then the readiness check. */
    method OnRecoveryPicked(files: Option<seq<PickedFile>>) returns (raised: Option<string>)
      modifies this, state
      ensures recoveryLabel == PickLabel(old(recoveryLabel), files) && imageLabel == old(imageLabel)
      ensures state.recoveryPath == if Picked(files) then Some(files.value[0].path) else old(state.recoveryPath)
      ensures state.config == old(state.config) && state.imagePath == old(state.imagePath)
      ensures unchanged(state`advanced, state`steps, state`numTotalSteps,
                        state`installAddons, state`addonPaths, state`defaultViews)
      ensures ReadinessChecked(raised, old(confirmDisabled), old(mismatchShown))
      ensures !Contains(recoveryLabel, ".img") ==> raised.None? && confirmDisabled
      ensures !confirmDisabled && old(confirmDisabled) ==> Ready() && state.config.Some? && FilesWork()
    {
      PickRecoveryResult(files);
      raised := EnableButtonIfReady();
    }
  }
}
