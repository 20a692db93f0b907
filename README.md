# openandroidinstaller in Dafny

This project models the decision logic of OpenAndroidInstaller, a
graphical wizard that installs a custom Android ROM on a phone by driving
`adb`, `fastboot` and `heimdall`. It also proves properties of that
model. The model covers these parts:

- **Device configs.** A YAML device config is checked against the
  installer's schema (`validate_config`). A validated config becomes a
  list of titled steps (`InstallerConfig.from_file`). The config for a
  device code is looked up first in the working directory and then in
  the bundled assets (`_find_config_file`, `_load_config`).
- **Tool runs.** A tool run (`run_command`) yields a stream of items: the
  echoed command, each output line stripped, and then exactly one
  boolean verdict. Following that stream contract, the model covers:
  - the `add_logging` stream decorator;
  - every single-command operation;
  - the composite operations (copy partitions, wipe and install, install
    addons, flash or boot the recovery);
  - command rewriting in the older `tool_utils.py`;
  - the `getprop` parsers of both `search_device` versions.
- **Shared state and views.** The application state (`AppState`) holds
  the queue of steps. The views are classes over the widget flags their
  handlers change:
  - the start view, the step view, the install view, the install-addons
    view, the requirements view, the file-selection view and the addons
    view;
  - the older `views.py` welcome and step views; its file-selection
    view has the same handlers and wiring as the later one, so the
    `SelectViews` members model both;
  - the single-file `openandroidinstaller.py` main view, with its
    welcome, file-selection and step views;
  - the six-page `openandroidinstaller_old.py` prototype.
- **Scripts.** `generate-python-requirements.py` covers continuation
  joining, requirement parsing, package-name cleaning, wheel-before-sdist
  source selection and the build command. `check-image-for-device.py`
  covers the `getprop` dictionary and the image check.

External effects become parameters:

- A device is an oracle `Env.device(history, argv)` that returns the
  output lines and the exit code of the next tool run. It sees every
  command issued before.
- A file-system lookup is a sequence of `ConfigFile`s.
- A shell call is a function from the command text to an exit code.
- Collaborators that the shown files do not define, or define in another
  shape, are function-valued constants of the class that uses them:
  - `fastboot_boot_recovery`, `adb_twrp_install_addon`,
    `adb_twrp_finish_install_addons` and the image check of the newer views;
  - `_load_config` of `AppState` (`loader`), since the state reads config
    sections that `InstallerConfig` lacks;
  - `InstallerConfig.from_file` of the `openandroidinstaller.py` revision
    (`MainViews.MainView.fromFile`), which yields that revision's steps;
  - the `tool_utils` operations that the `views.py` step view runs
    (`LegacyViews.LegacyStepView.run`), which the shown `tool_utils.py`
    does not define.

Python's string operations live in module `PyStr`:

- `strip`, `split()` (as `Words`), `split(sep)`, `splitlines`, `replace`,
  `in` and slicing;
- each one's own contract is proved, for example that `SplitOn` joins
  back to its input.

`shlex.split`, in the POSIX mode `run_command` uses, lives in module
`Shlex`. It is the as-written split of the arguments; the tool runs split
them on whitespace (see Findings and Left out).

Python's YAML values live in module `Document`. The file modules follow
the source files one to one.

## Model

The older `views.py` file-selection view has the same handlers and picker
wiring as `views/select_view.py`, so the `SelectViews.SelectFilesView`
rows below cover it too: `PickImageResult` models views.py:393-404,
`PickRecoveryResult` views.py:406-417, `EnableButtonIfReady`
views.py:419-443, and `OnImagePicked`/`OnRecoveryPicked` the wiring at
views.py:292-301.

| member | source | states |
|---|---|---|
| InstallerConfig.NewStep | openandroidinstaller/installer_config.py:28-48 | An explicit non-empty `img` wins. Without one, the unlock title gets "unlock-bootloader-default.png" and any other title gets "placeholder.png". Every other field is stored as given |
| InstallerConfig.StepKindSearch | openandroidinstaller/installer_config.py:150-153 | The step-type regex is a search: any text containing one of the five kinds is accepted |
| InstallerConfig.UnlockCriticalAdmitted | openandroidinstaller/installer_config.py:155-158 | The command alternative broken across the literal's newline is still admitted, because "fastboot_unlock" occurs inside "fastboot_unlock_critical" |
| InstallerConfig.ValidateConfigStrict | openandroidinstaller/installer_config.py:147-195 | The schema refuses a document that is not a mapping, one with a top-level key other than metadata, requirements and steps, and one missing metadata or steps; loading such a document gives no config |
| InstallerConfig.BoolAndroidRequirementRejected | openandroidinstaller/installer_config.py:179-182 | `Or(str, int)` admits a string or an integer android requirement and refuses a boolean one, since the `schema` library excludes bool where `int` is asked for |
| InstallerConfig.StepOf | openandroidinstaller/installer_config.py:32-48 | A validated raw step keeps its section's title and its type and content. `allow_skip` is True iff the entry is present and true. `command` and `link` are the entries or None. A present non-empty `img` is kept, and otherwise the title's default image is used |
| InstallerConfig.MinimalStep | openandroidinstaller/installer_config.py:32-48 | A raw step with only a type and a content has no skip, no command and no link, and it gets the title's default image |
| InstallerConfig.NewConfig | openandroidinstaller/installer_config.py:51-67 | The sections, metadata and requirements are stored. Each of the five attributes is its metadata entry when present; otherwise `is_ab` is False and the other four are None |
| InstallerConfig.FromFile | openandroidinstaller/installer_config.py:70-97 | A missing file raises FileNotFoundError; malformed YAML gives None; a YAML document gives a config exactly when the schema accepts it |
| InstallerConfig.FromFileSteps | openandroidinstaller/installer_config.py:70-97 | For a valid document, each section keeps its entries' count and order. Entry i of each section becomes the step built from raw entry i under the section's title, with that entry's content. A null unlock section gives no steps. The metadata and the requirements (None when absent) are kept. `is_ab`, `device_code` and `supported_device_codes` come from the metadata |
| InstallerConfig.FirstSupportingFrom | openandroidinstaller/installer_config.py:102-115 | The result is the first file from position i on that `dict` can take and whose metadata lists the code, or None when no file does |
| InstallerConfig.PairOf | openandroidinstaller/installer_config.py:103 | A two-item list is a key and a value, a two-character string a one-character key and value; anything else is refused |
| InstallerConfig.PairsDict | openandroidinstaller/installer_config.py:103 | `dict` of a list succeeds iff no element is refused |
| InstallerConfig.DictOf | openandroidinstaller/installer_config.py:103 | A mapping is taken as it is; only a mapping, a list or the empty string can succeed, a list exactly when every element is a pair |
| InstallerConfig.PairListChosen | openandroidinstaller/installer_config.py:102-140 | A top-level list of `[metadata, {supported_device_codes: [code]}]` is chosen by the search before any later file, and loading it gives no config |
| InstallerConfig.FindConfigFile | openandroidinstaller/installer_config.py:100-115 | The loop returns the first supporting file, which is one of the files; None means no file supports the code |
| InstallerConfig.WithAdditionalStepsDefault | openandroidinstaller/installer_config.py:137-139 | A config that has `additional_steps` is unchanged. Otherwise the key is added with the string "[]". Every other metadata entry, the steps and the attributes are kept |
| InstallerConfig.LoadConfig | openandroidinstaller/installer_config.py:118-144 | A match in the working directory wins, and a failed load of it raises. Otherwise a bundled match is loaded and gets the `additional_steps` default. With no match anywhere the result is None |
| Tooling.WordsParse | openandroidinstaller/tooling.py:40 | The parsed command's tool and rest together are the whitespace words of the command |
| Tooling.InvocationArgv | openandroidinstaller/tooling.py:40-50 | For a known tool, the argv is the platform path of the first word followed by the remaining words in order |
| Tooling.ParseCmd | openandroidinstaller/tooling.py:40-42 | A whitelisted tool name followed by a blank-started rest parses as that tool and rest |
| Tooling.StripLines | openandroidinstaller/tooling.py:62-65 | The output loop yields exactly `Stripped(output)` |
| Tooling.RunCommand | openandroidinstaller/tooling.py:34-68 | The run yields the stream of the parsed call; it raises exactly when the tool is not adb, fastboot or heimdall |
| Shlex.SkipWhitePlain | openandroidinstaller/tooling.py:40 | On plain text, the separators `shlex` skips before a token are exactly the leading whitespace that `str.lstrip` drops |
| Shlex.ReadTokenPlain | openandroidinstaller/tooling.py:40 | On plain text, a `shlex` token is the run of non-whitespace that `str.split` takes, and reading stops at the same character |
| Shlex.SplitPlain | openandroidinstaller/tooling.py:40 | On text without quotes, backslashes or whitespace other than space, tab, CR and LF, `shlex.split` succeeds and gives the whitespace words (`Words`) that the tool runs use |
| Shlex.ReadTokenWordChars | openandroidinstaller/tooling.py:40 | Characters other than quotes, backslashes and separators extend the token being read, unchanged and in order |
| Shlex.SplitCons | openandroidinstaller/tooling.py:40 | A word followed by a space is the first token, and the text after the space splits on its own; a failure there is a failure of the whole split |
| Shlex.BackslashDropped | openandroidinstaller/tooling.py:40 | A backslash between two words is read as an escape and vanishes: the split is the one token of both words joined |
| Shlex.SingleUnclosed | openandroidinstaller/tooling.py:40 | After an opening single quote with no closing one, reading the token fails |
| Shlex.ApostropheRaises | openandroidinstaller/tooling.py:38-40 | A word with an apostrophe that is never closed makes the split raise ValueError, which happens after the `$command` echo |
| Shlex.WordCharsOneToken | openandroidinstaller/tooling.py:40 | Text of word characters is one token, even where it holds whitespace such as U+00A0 that `str.split` separates on |
| Shlex.CommandPathBackslash | openandroidinstaller/tooling.py:114-118 | The command `adb sideload a\b`, and any tool and verb in place of `adb sideload`, splits into the tool, the verb and `ab` |
| Tooling.CommandPathArgv | openandroidinstaller/tooling.py:40-50 | In the model, `tool verb path` with a whitespace-free path gives the argv of the tool's path, the verb and the path unchanged, backslashes and apostrophes included |
| Tooling.RunShape | openandroidinstaller/tooling.py:38-68 | A known tool's stream has exactly one verdict, at the end; it equals `exit code == 0`; exactly one invocation is issued |
| Tooling.AddLogging | openandroidinstaller/tooling.py:71-90 | The decorated stream is `Logged(items, return_if_fail)` |
| Tooling.UpToFailurePrefix | openandroidinstaller/tooling.py:80-86 | With `return_if_fail`, the output is a prefix of the input that contains no earlier False. If it is cut short, it ends with the first False |
| Tooling.UpToFailureOfRun | openandroidinstaller/tooling.py:80-86 | A single-verdict stream passes the short-circuit unchanged |
| Tooling.Decorate | openandroidinstaller/tooling.py:71-90 | Decorating a single tool run leaves its stream and its invocations unchanged |
| Tooling.AdbReboot | openandroidinstaller/tooling.py:93-97 | The stream is the run of `adb reboot` |
| Tooling.AdbRebootBootloader | openandroidinstaller/tooling.py:100-105 | The stream is the run of `adb reboot bootloader` |
| Tooling.AdbRebootDownload | openandroidinstaller/tooling.py:108-112 | The stream is the run of `adb reboot download` |
| Tooling.AdbSideload | openandroidinstaller/tooling.py:115-119 | The stream is the run of `adb sideload <target>` |
| Tooling.ActivateSideload | openandroidinstaller/tooling.py:122-126 | The stream is the run of the TWRP sideload activation |
| Tooling.AdbTwrpFormatData | openandroidinstaller/tooling.py:152-156 | The stream is the run of the TWRP data format |
| Tooling.AdbTwrpWipePartition | openandroidinstaller/tooling.py:159-163 | The stream is the run of the TWRP wipe of the given partition |
| Tooling.FastbootSwitchPartition | openandroidinstaller/tooling.py:281-285 | The stream is the run of the active-slot switch |
| Tooling.FastbootUnlockWithCode | openandroidinstaller/tooling.py:288-292 | The stream is the run of the OEM unlock with the given code |
| Tooling.FastbootUnlock | openandroidinstaller/tooling.py:295-299 | The stream is the run of `fastboot flashing unlock` |
| Tooling.FastbootOemUnlock | openandroidinstaller/tooling.py:302-306 | The stream is the run of `fastboot oem unlock` |
| Tooling.FastbootGetUnlockData | openandroidinstaller/tooling.py:309-313 | The stream is the run of the unlock-data query |
| Tooling.FastbootReboot | openandroidinstaller/tooling.py:316-320 | The stream is the run of `fastboot reboot` |
| Tooling.HeimdallFlashRecovery | openandroidinstaller/tooling.py:368-374 | The stream is the run of the heimdall recovery flash with the given image |
| Tooling.ScriptAppend | openandroidinstaller/tooling.py:166-278 | Running two command lists one after the other is running their concatenation; the second sees the first's invocations in its history |
| Tooling.ScriptSnoc | openandroidinstaller/tooling.py:166-278 | Appending one command appends its run, made after all earlier invocations |
| Tooling.ScriptIssues | openandroidinstaller/tooling.py:166-278 | A list of known commands issues exactly one invocation per command, in list order |
| Tooling.ScriptVerdict | openandroidinstaller/tooling.py:166-278 | A composite stream ends with the last command's verdict, given every earlier invocation |
| Tooling.FindLast | openandroidinstaller/tooling.py:140 | The result is the last position of the character, or None when it does not occur |
| Tooling.AdbTwrpCopyPartitions | openandroidinstaller/tooling.py:129-149 | The stream runs activate sideload, the copy-partitions zip beside the config and reboot-to-bootloader. It does not stop on a failure |
| Tooling.AddonCalls | openandroidinstaller/tooling.py:248-257 | There is one activate-sideload and sideload pair per addon, in list order |
| Tooling.AdbTwrpInstallAddons | openandroidinstaller/tooling.py:240-278 | The stream runs the addon pairs and then the reboot stage for the a/b flag |
| Tooling.RebootAfterAddons | openandroidinstaller/tooling.py:259-278 | An a/b device does reboot-bootloader, two slot switches and fastboot reboot; any other device does adb reboot |
| Tooling.InstallAddonsIssues | openandroidinstaller/tooling.py:240-278 | The invocations are the pairs in order, then 4 (a/b) or 1 reboot commands, and the a/b slot is switched exactly twice |
| Tooling.FastbootFlashRecovery | openandroidinstaller/tooling.py:323-344 | The stream is `FlashRecovery`, passed through the logging decorator unchanged |
| Tooling.FlashRecoveryShape | openandroidinstaller/tooling.py:328-344 | An a/b device issues only the recovery boot. Any other device issues flash-recovery and then reboot-recovery. The flash verdict is repeated between the two runs, and the reboot verdict comes last |
| Tooling.FastbootFlashBoot | openandroidinstaller/tooling.py:347-365 | The stream is flash-boot and its repeated verdict, then reboot and its repeated verdict |
| Tooling.FlashBootVerdict | openandroidinstaller/tooling.py:347-365 | Two invocations are issued, and the final verdict is the reboot's exit status alone |
| Tooling.AdbTwrpWipeAndInstall | openandroidinstaller/tooling.py:166-237 | The stream is the preparing script, then the cache-wiping loop with its fallback, then the last stage |
| Tooling.PrepareInstall | openandroidinstaller/tooling.py:181-198 | The stream is the preparing script of five commands |
| Tooling.WipeCachePartitions | openandroidinstaller/tooling.py:202-216 | The loop stops at the first failed wipe. It sideloads the helper file and adds False if that also fails |
| Tooling.FinishInstall | openandroidinstaller/tooling.py:220-237 | The last stage is adb reboot without addons, nothing on a non-a/b device with addons, and reboot-bootloader plus a recovery boot on an a/b device with addons |
| Tooling.WipeAndInstallPrepares | openandroidinstaller/tooling.py:181-205 | Whatever the tools answer, the first six invocations are: format data, wipe cache, wipe system, activate sideload, sideload the target and wipe dalvik |
| Tooling.PrepareIssues | openandroidinstaller/tooling.py:181-198 | The preparing script issues exactly those five commands in order, whatever the earlier verdicts |
| Tooling.WipeCachesFirst | openandroidinstaller/tooling.py:202-205 | The wipe loop issues the wipe of its first partition first |
| Tooling.WipeFallback | openandroidinstaller/tooling.py:206-216 | A failed dalvik wipe is followed only by the helper sideload; the cache wipe is never issued |
| Tooling.WipeAndInstallVerdict | openandroidinstaller/tooling.py:220-237 | Without addons, the last invocation is adb reboot, and the stream's last item is its verdict |
| Tooling.LastRun | openandroidinstaller/tooling.py:220-237 | A stream that ends with a run of a known command ends with that command's verdict |
| Tooling.SearchDevice | openandroidinstaller/tooling.py:377-414 | An unknown platform raises. A process error gives None. Otherwise the result is the device code parsed from the getprop output |
| Tooling.GetpropTail | openandroidinstaller/tooling.py:409 | Of a getprop line, the text after the last "[" is the code, "]" and the line end |
| Tooling.DeviceCodeOfGetprop | openandroidinstaller/tooling.py:409 | Whatever blank line end follows, the parser returns exactly the device code ("\n" and "\r\n" alike) |
| Tooling.DeviceCodeOf | openandroidinstaller/tooling.py:409 | The parsed code never contains "[" |
| ToolUtils.CallToolWithCommand | openandroidinstaller/tool_utils.py:24-36 | Each tool path is read as a `re.sub` template. A refused template raises `re.error` before the shell runs. Otherwise the issued text is the rewritten command, and the result is True iff the shell exit code is 0 |
| ToolUtils.ExpandPlain | openandroidinstaller/tool_utils.py:26 | A replacement template without backslashes stands for itself |
| ToolUtils.ExpandPlainPrefix | openandroidinstaller/tool_utils.py:26 | Backslash-free text in front of a template is copied in front of what the template stands for |
| ToolUtils.ExpandEscape | openandroidinstaller/tool_utils.py:26 | An accepted escape at the front of a template is replaced by its character |
| ToolUtils.ExpandConcat | openandroidinstaller/tool_utils.py:26 | Two templates placed one after the other expand on their own, when the first is valid |
| ToolUtils.ExpandStep | openandroidinstaller/tool_utils.py:26 | Text without backslashes, then an accepted escape: both are replaced, and the rest expands on its own |
| ToolUtils.RewriteBackslashFree | openandroidinstaller/tool_utils.py:26-28 | With a bin path and separator free of backslashes, Python's rewrite equals the literal rewrite |
| ToolUtils.WindowsCallRaises | openandroidinstaller/tool_utils.py:26-28 | With the Windows separator and a bin path that is itself a valid template, every command raises `re.error`, because the heimdall path contains `\h` |
| ToolUtils.AdbPathMangled | openandroidinstaller/tool_utils.py:26 | The adb path under a bin path of the form `x\ty\bz` reads as x, a tab, y, a backspace, z, a bell and "db" |
| ToolUtils.UsersPathRaises | openandroidinstaller/tool_utils.py:26 | A bin path under `C:\Users` contains the refused escape `\U`, so every command raises |
| ToolUtils.RewriteLeading | openandroidinstaller/tool_utils.py:26-28 | A leading tool name becomes the tool's path under `bin_path`, with the rest of the command unchanged. This holds for the literal rewrite, and for Python's rewrite when the bin path and separator have no backslash |
| ToolUtils.SubHit | openandroidinstaller/tool_utils.py:26 | An anchored substitution replaces a leading match with the text the template stands for, and a refused template raises `re.error` |
| ToolUtils.SubMiss | openandroidinstaller/tool_utils.py:26 | An anchored substitution leaves text whose first character differs unchanged, unless the template itself raises |
| ToolUtils.RewriteOther | openandroidinstaller/tool_utils.py:26-28 | A command starting with no tool name passes unchanged: always under the literal rewrite, and under Python's rewrite when the bin path and separator have no backslash |
| ToolUtils.RewriteCascade | openandroidinstaller/tool_utils.py:26-28 | The three substitutions run in order, so a `bin_path` starting with "fastboot" is rewritten a second time. This holds for the literal rewrite, and for Python's rewrite when the bin path and separator have no backslash |
| ToolUtils.SearchDevice | openandroidinstaller/tool_utils.py:39-74 | An unknown platform raises; a process error gives None; otherwise the result is the `[:-2]` parse of the output |
| ToolUtils.DeviceCodeOfNewline | openandroidinstaller/tool_utils.py:71 | On a getprop line ending in "\n", the parse returns the code |
| ToolUtils.DeviceCodeOfCrlf | openandroidinstaller/tool_utils.py:71 | On a line ending in "\r\n", the parse keeps the closing "]". The newer parser returns the bare code |
| ToolUtils.DeviceCodeOfBare | openandroidinstaller/tool_utils.py:71 | On output with no line end, the parse cuts the code's last character |
| ToolUtils.DeviceCodeOf | openandroidinstaller/tool_utils.py:71 | The parsed code never contains "[" |
| ToolUtils.Expand | openandroidinstaller/tool_utils.py:26 | A refused template raises `re.error` and contains a backslash; an accepted one never expands to something longer |
| Streams.Drain | openandroidinstaller/views/step_view.py:240-250 | The drain loop leaves `LastOf(items, prev)` |
| Streams.LastOfConcat | openandroidinstaller/views/install_addons_view.py:164-196 | Draining two streams one after the other is draining their concatenation |
| Streams.RunVerdict | openandroidinstaller/tooling.py:62-68 | The last item of a known tool's stream is truthy iff the exit code is 0 |
| Session.SkipUnlockIsSuffix | openandroidinstaller/app_state.py:51-56 | The queue without the unlock section is the full queue minus its unlock prefix |
| Session.AppState.constructor | openandroidinstaller/app_state.py:25-46 | The arguments are stored; `advanced` is False, and config, paths and steps are None. The attributes that views set later start empty (see Left out) |
| Session.AppState.LoadConfig | openandroidinstaller/app_state.py:48-56 | `config` is always overwritten with the loader's result. A found config sets `steps` to unlock, then flash-recovery, then install-os. Otherwise `steps` is kept |
| Session.AppState.AddDefaultViews | openandroidinstaller/views/install_view.py:83 | Taken to append the views to `default_views` and change nothing else. `add_default_views` is not defined in the shown `app_state.py` (see Left out) |
| StartViews.MissingNameRecognised | openandroidinstaller/views/start_view.py:216-225 | A loaded config without "devicename" still counts as recognised, through the non-empty default |
| StartViews.StartView.Build | openandroidinstaller/views/start_view.py:50-99 | Continue and the bootloader switch start disabled |
| StartViews.StartView.CheckBootloaderUnlocked | openandroidinstaller/views/start_view.py:78-93 | On: steps are flash-recovery plus install-os. Off: the unlock steps come first. `num_total_steps` is the new length. Without a config it raises AttributeError |
| StartViews.StartView.SearchDevices | openandroidinstaller/views/start_view.py:188-237 | Test mode uses `test_config`; otherwise the search result is used, and a search error raises with config and steps kept. A detected code loads the config, and a found config sets the step queue to all its steps. Continue and the switch are enabled iff the config loaded with a truthy name. The paths, `num_total_steps`, the addons and the default views are kept |
| StepViews.CommandOp | openandroidinstaller/views/step_view.py:210-236 | A command name has an operation iff it is one of the 13 table entries |
| StepViews.ValidatedButUnknown | openandroidinstaller/views/step_view.py:240-249 | A command the validator admits but the table lacks, such as adb_twrp_wipe_and_install, has no operation |
| StepViews.RunOp | openandroidinstaller/views/step_view.py:240-244 | Running the operation yields its stream, `OpTrace` |
| StepViews.SingleCallVerdict | openandroidinstaller/views/step_view.py:240-250 | For a one-command operation, exactly that invocation is issued, and the drained verdict is truthy iff it exits 0 |
| StepViews.FlashBootStepVerdict | openandroidinstaller/views/step_view.py:229-232 | The flash-boot step issues two commands, and its verdict is the second one's exit status |
| StepViews.KindsValidated | openandroidinstaller/views/step_view.py:126-173 | The view knows a step type iff it is one of the five validated kinds |
| StepViews.StepView.constructor | openandroidinstaller/views/step_view.py:65-78 | The step, state and collaborators are stored; the history and input text are empty |
| StepViews.StepView.Build | openandroidinstaller/views/step_view.py:80-190 | An unknown type raises. Confirm is shown for every type but text, and starts disabled for call types. The terminal follows the advanced flag. Skip is shown iff `allow_skip` or test mode |
| StepViews.StepView.CheckAdvancedSwitch | openandroidinstaller/views/step_view.py:86-96 | `state.advanced` takes the switch value, the terminal visibility flips, and nothing else changes |
| StepViews.StepView.CallToPhone | openandroidinstaller/views/step_view.py:192-266 | An unknown command sets its error text and raises before any tool runs. Otherwise the drained last item decides. A falsy item leaves call enabled, confirm unchanged and the error naming the command. A truthy item enables confirm and disables call. An empty stream is UnboundLocalError. The input, skip and terminal flags are unchanged |
| InstallViews.InstallNonEmpty | openandroidinstaller/tooling.py:166-237 | The install stream is never empty |
| InstallViews.InstallViewVerdict | openandroidinstaller/views/install_view.py:189-203 | Without addons, the view's verdict is the final adb reboot's exit status |
| InstallViews.InstallView.constructor | openandroidinstaller/views/install_view.py:46-52 | The state and device are stored, and the history is empty |
| InstallViews.InstallView.Build | openandroidinstaller/views/install_view.py:54-170 | Confirm starts disabled and install enabled; Skip is shown only in test mode |
| InstallViews.InstallView.CheckAddonsSwitch | openandroidinstaller/views/install_view.py:78-88 | On: the addon views are appended and `install_addons` is True. Off: `default_views` is emptied and `install_addons` is False |
| InstallViews.InstallView.RunInstall | openandroidinstaller/views/install_view.py:172-217 | The addons switch stays disabled. The install runs with image, config path, a/b flag, addons flag and recovery. Failure re-enables only install and sets the error. Success enables confirm and disables install |
| InstallViews.InstallView.Conclude | openandroidinstaller/views/install_view.py:203-216 | A falsy last element re-enables only install and sets the error; a truthy one enables confirm and disables install |
| InstallAddonsViews.FinalStreamDecides | openandroidinstaller/views/install_addons_view.py:184-196 | A non-empty final stream decides alone; per-addon results matter only when it is empty |
| InstallAddonsViews.InfoTextNumbers | openandroidinstaller/views/install_addons_view.py:168 | The info text is "k/n: Installing <basename> ...", with k counted from 1 |
| InstallAddonsViews.InstallEach | openandroidinstaller/views/install_addons_view.py:164-182 | One install stream per path, in order. The info text names the last addon. Without a config, the first iteration raises AttributeError |
| InstallAddonsViews.AddonStep | openandroidinstaller/views/install_addons_view.py:164-182 | Draining one more addon's stream continues from the earlier addons' last item |
| InstallAddonsViews.InstallAddonsView.constructor | openandroidinstaller/views/install_addons_view.py:47-53 | The collaborators are stored; the history is empty and progress is 0 |
| InstallAddonsViews.InstallAddonsView.Build | openandroidinstaller/views/install_addons_view.py:55-146 | The error and info texts are empty; confirm is disabled and install enabled; Skip is shown only in test mode |
| InstallAddonsViews.InstallAddonsView.RunInstallAddons | openandroidinstaller/views/install_addons_view.py:148-212 | No addons: adb reboot decides. Otherwise the addons are installed in order and the finish stream decides, with failure re-enabling install and success setting progress to 100 |
| InstallAddonsViews.InstallAddonsView.Finish | openandroidinstaller/views/install_addons_view.py:196-211 | The verdict's outcome sets the flags, the error text and the progress |
| InstallAddonsViews.NoAddonsVerdict | openandroidinstaller/views/install_addons_view.py:191-196 | With no addons, the verdict is adb reboot's exit status |
| RequirementsViews.ConfigChecks | openandroidinstaller/views/requirements_view.py:79-135 | The android check is present iff its requirement is truthy, and likewise the firmware check |
| RequirementsViews.Checks | openandroidinstaller/views/requirements_view.py:78-182 | Battery and lock always end the list. No requirements gives exactly those two. A truthy non-mapping raises |
| RequirementsViews.RequirementsView.constructor | openandroidinstaller/views/requirements_view.py:39-45 | The state is stored |
| RequirementsViews.RequirementsView.Build | openandroidinstaller/views/requirements_view.py:47-186 | Continue starts disabled, and the checkboxes are `Checks` of the config's requirements, none ticked |
| RequirementsViews.RequirementsView.EnableContinueButton | openandroidinstaller/views/requirements_view.py:68-76 | Continue is disabled iff some box is unticked |
| RequirementsViews.RequirementsView.Tick | openandroidinstaller/views/requirements_view.py:68-76 | Ticking a box updates that box alone and re-evaluates the gate |
| RequirementsViews.TickAllEnables | openandroidinstaller/views/requirements_view.py:68-76 | Ticking every box, in any order, opens the gate, and unticking any one of them closes it again |
| RequirementsViews.TickEach | openandroidinstaller/views/requirements_view.py:68-76 | Ticking a sequence of boxes keeps the number of boxes |
| RequirementsViews.TickInvariant | openandroidinstaller/views/requirements_view.py:68-76 | Boxes already ticked stay ticked, so ticking the rest opens the gate |
| SelectViews.PickLabelLatest | openandroidinstaller/views/select_view.py:156-159 | Relabelling twice is relabelling once with the second pick |
| SelectViews.PickLabelCaption | openandroidinstaller/views/select_view.py:156-159 | The label keeps its caption before ":" and shows the comma-joined names, or "Cancelled!" |
| SelectViews.SelectFilesView.constructor | openandroidinstaller/views/select_view.py:39-45 | The state and compatibility oracle are stored |
| SelectViews.SelectFilesView.Build | openandroidinstaller/views/select_view.py:47-153 | Without a config it raises AttributeError; otherwise the labels are the captions and confirm is disabled |
| SelectViews.SelectFilesView.PickImageResult | openandroidinstaller/views/select_view.py:155-166 | The image label is relabelled; the image path is the first pick's, and is unchanged on cancel |
| SelectViews.SelectFilesView.PickRecoveryResult | openandroidinstaller/views/select_view.py:168-179 | The recovery label is relabelled; the recovery path is the first pick's, and is unchanged on cancel |
| SelectViews.SelectFilesView.EnableButtonIfReady | openandroidinstaller/views/select_view.py:181-207 | A missing ".zip" or ".img" disables confirm. With both, a missing config raises AttributeError and changes nothing. Otherwise the message is shown iff the oracle rejects the pair: an accepted pair enables confirm, and a rejected one leaves the button as it was |
| SelectViews.SelectFilesView.OnImagePicked | openandroidinstaller/views/select_view.py:52-61 | The label and path are updated, and then the readiness check runs on the new labels with its full outcome. Confirm is enabled when the pair is ready and accepted; a rejected pair shows the message and keeps the button. Without a config it raises AttributeError, and without a ".zip" confirm is disabled |
| SelectViews.SelectFilesView.OnRecoveryPicked | openandroidinstaller/views/select_view.py:53-60 | The label and path are updated, and then the readiness check runs on the new labels with its full outcome. Confirm is enabled when the pair is ready and accepted; a rejected pair shows the message and keeps the button. Without a config it raises AttributeError, and without an ".img" confirm is disabled |
| AddonViews.AddonsView.constructor | openandroidinstaller/views/addon_view.py:46-52 | The state is stored |
| AddonViews.AddonsView.Build | openandroidinstaller/views/addon_view.py:54-205 | The label is the caption, confirm is enabled and the dialog is closed |
| AddonViews.AddonsView.OpenExplainDialog | openandroidinstaller/views/addon_view.py:207-211 | The dialog opens, and nothing else changes |
| AddonViews.AddonsView.CloseExplainDialog | openandroidinstaller/views/addon_view.py:213-216 | The dialog closes, and nothing else changes |
| AddonViews.AddonsView.PickAddonsResult | openandroidinstaller/views/addon_view.py:218-232 | The label is relabelled. A pick sets `addon_paths` to all picked paths in order, and a cancel leaves it alone. Confirm is never touched |
| LegacyViews.MapCodeSettles | openandroidinstaller/views.py:232-247 | Exactly "C6603" and "yuga" map to "yuga", no code maps to "C6603", and mapping twice is mapping once |
| LegacyViews.WelcomeView.constructor | openandroidinstaller/views.py:85-91 | The state is stored |
| LegacyViews.WelcomeView.Build | openandroidinstaller/views.py:93-216 | The label is empty and the config box is unticked; continue and the bootloader box start disabled |
| LegacyViews.WelcomeView.SetDialog | openandroidinstaller/views.py:218-227 | Opening or closing the help dialog changes nothing else |
| LegacyViews.WelcomeView.CheckBootloaderUnlocked | openandroidinstaller/views.py:125-147 | Steps are recomputed from the config, with or without the unlock prefix, and `num_total_steps` is their length |
| LegacyViews.WelcomeView.CheckAdvancedBox | openandroidinstaller/views.py:149-156 | `state.advanced` becomes the box value |
| LegacyViews.WelcomeView.SearchDevices | openandroidinstaller/views.py:229-275 | A detected code is mapped and its config loaded, and a found config sets the step queue to all its steps. A truthy name enables continue and the bootloader box; a falsy name only reports the failure; a missing config raises AttributeError. With no device nothing but the label changes. The other state fields and the dialog are kept |
| LegacyViews.LegacyCommands | openandroidinstaller/views.py:551-599 | Six commands run without arguments and five more are special-cased; no other name has an operation |
| LegacyViews.EchoedLines | openandroidinstaller/views.py:563-565 | Every terminal line is ">" followed by a non-empty stripped line |
| LegacyViews.EchoedConcat | openandroidinstaller/views.py:561-599 | The echo of a concatenated stream is the concatenation of the echoes |
| LegacyViews.EchoedVerdicts | openandroidinstaller/views.py:563 | Verdict items are never echoed |
| LegacyViews.EchoDrain | openandroidinstaller/views.py:561-599 | The loop leaves the last item and appends the echoed lines exactly when advanced output is on |
| LegacyViews.CallEffectMeaning | openandroidinstaller/views.py:601-616 | Success iff the last item is truthy, and then the progress bar is removed. Failure replaces it with one failure text. An empty stream raises |
| LegacyViews.LegacyStepView.constructor | openandroidinstaller/views.py:447-460 | The step, state and runner are stored; terminal and widgets are empty |
| LegacyViews.LegacyStepView.Build | openandroidinstaller/views.py:462-531 | An unknown type raises. Call types start with confirm disabled. The terminal is shown for call buttons in advanced mode. Skip is shown iff `allow_skip` or test mode |
| LegacyViews.LegacyStepView.CallToPhone | openandroidinstaller/views.py:533-617 | An unknown command raises after the progress bar is added. Otherwise the echo goes to the terminal and the last item decides: success enables confirm and disables call |
| MainViews.LastStepProgress | openandroidinstaller/openandroidinstaller.py:267-271 | At the last step the bar reads (n+1)/3, more than full once more than two steps were shown |
| MainViews.ProgressGrows | openandroidinstaller/openandroidinstaller.py:267-271 | Each confirm raises the progress fraction |
| MainViews.Progress | openandroidinstaller/openandroidinstaller.py:267-271 | The fraction is never negative once a step was counted, and it is at most 1 iff the counter has not run more than three past the number of steps |
| MainViews.MainView.constructor | openandroidinstaller/openandroidinstaller.py:214-256 | The default views are select-files then welcome, so `num_steps` is 2; no config is loaded and the paths are empty |
| MainViews.MainView.Build | openandroidinstaller/openandroidinstaller.py:258-260 | The view shows the default view popped from the back, so welcome comes first |
| MainViews.MainView.Confirm | openandroidinstaller/openandroidinstaller.py:262-286 | With a config, progress is `(num_steps-1)/(len(steps)+2)` from the pre-pop length, and `num_steps` grows by one. A remaining default view is shown next; otherwise the first step is popped from the front. No config raises AttributeError, and an empty queue raises IndexError |
| MainViews.MainView.LoadConfig | openandroidinstaller/openandroidinstaller.py:288-294 | True with the loaded config unless `from_file` raises FileNotFoundError; any other error propagates |
| MainViews.MainView.PickImageResult | openandroidinstaller/openandroidinstaller.py:296-301 | The label shows the joined names or "Cancelled!"; a cancel raises at `e.files[0]` and keeps the path |
| MainViews.MainView.PickRecoveryResult | openandroidinstaller/openandroidinstaller.py:303-308 | The same as the image pick, for the recovery label and path |
| MainViews.PickError | openandroidinstaller/openandroidinstaller.py:300 | An error occurs exactly when nothing was picked |
| MainViews.PickedTextNonEmpty | openandroidinstaller/openandroidinstaller.py:204-210 | A pick with named files, or a cancel, leaves a non-empty label, so the gate sees it |
| MainViews.WelcomeView.constructor | openandroidinstaller/openandroidinstaller.py:40-43 | The main view and config directory are stored |
| MainViews.WelcomeView.Build | openandroidinstaller/openandroidinstaller.py:45-99 | The device name is empty, the config box is unticked and continue is disabled |
| MainViews.WelcomeView.SearchDevices | openandroidinstaller/openandroidinstaller.py:101-132 | A detected name loads `<config dir>/<name>.yaml`, and success enables continue. A missing file changes nothing, and no device shows the message. The step counter, progress, selections and paths of the main view are kept |
| MainViews.SelectFilesView.constructor | openandroidinstaller/openandroidinstaller.py:136-151 | The main view is stored |
| MainViews.SelectFilesView.Build | openandroidinstaller/openandroidinstaller.py:153-202 | Confirm starts disabled |
| MainViews.SelectFilesView.EnableButtonIfReady | openandroidinstaller/openandroidinstaller.py:204-210 | Confirm is enabled iff both labels are non-empty |
| MainViews.SubstituteAbsent | openandroidinstaller/openandroidinstaller.py:365-367 | A command with no placeholder is unchanged |
| MainViews.ReplaceWhole | openandroidinstaller/openandroidinstaller.py:365 | Replacing a whole text by another gives the other |
| MainViews.SubstituteChains | openandroidinstaller/openandroidinstaller.py:365-367 | The replacements run in order, so a recovery path reading "<image>" becomes the image path |
| MainViews.FailedTextAsWrittenIgnoresCommand | openandroidinstaller/openandroidinstaller.py:378 | As written, the failure text is the same whatever the command |
| MainViews.FailedTextNamesCommand | openandroidinstaller/openandroidinstaller.py:378 | The corrected text contains the command and tells different commands apart |
| MainViews.StepView.constructor | openandroidinstaller/openandroidinstaller.py:312-327 | The step, main view and shell are stored, with the main view's paths |
| MainViews.StepView.Build | openandroidinstaller/openandroidinstaller.py:329-362 | A link step or an unknown type raises. Confirm is shown for confirm steps, call for both call types and the input for call-with-input. Skip is shown iff `allow_skip` |
| MainViews.StepView.CallToPhone | openandroidinstaller/openandroidinstaller.py:364-385 | The substituted command runs. Exit 0 adds the continue button, and any other code adds line 378's literal failure text "Command {command} failed!", which does not name the command |
| OldMain.RouteParses | openandroidinstaller/openandroidinstaller_old.py:63-133 | Each route is the decimal text of the page's index, and `int(route)` reads the index back |
| OldMain.NextIndex | openandroidinstaller/openandroidinstaller_old.py:15-17 | The next index is one more than the current one, clamped to at most 6 |
| OldMain.BackIndex | openandroidinstaller/openandroidinstaller_old.py:23-25 | The previous index is one less than the current one, clamped to at least 0 |
| OldMain.NextStaysInPages | openandroidinstaller/openandroidinstaller_old.py:15-21 | From a page with Next, `go_next` reaches a page. From the last page it would aim at index 6, past the list |
| OldMain.BackStaysInPages | openandroidinstaller/openandroidinstaller_old.py:23-29 | `go_back` always reaches a page, one back except on the welcome page |
| OldMain.App.constructor | openandroidinstaller/openandroidinstaller_old.py:8-11 | The welcome page is shown and nothing is blocked |
| OldMain.App.GoNext | openandroidinstaller/openandroidinstaller_old.py:15-21 | The shown page is replaced by the clamped next one, or IndexError past the list; exactly one page is shown |
| OldMain.App.GoBack | openandroidinstaller/openandroidinstaller_old.py:23-29 | The shown page is replaced by the clamped previous one; exactly one page is shown |
| OldMain.App.CheckDevices | openandroidinstaller/openandroidinstaller_old.py:31-39 | The current page gains the detected text and a confirm row, or the no-device text |
| OldMain.App.Confirm | openandroidinstaller/openandroidinstaller_old.py:42-44 | `blocked` is left as it was, because the handler assigns a local |
| OldMain.ButtonsKeepOnePage | openandroidinstaller/openandroidinstaller_old.py:15-29 | Every button press moves at most one page and stays on the list |
| Requirements.SpaceEnd | scripts/generate-python-requirements.py:13-15 | The end of the whitespace run starting at i |
| Requirements.JoinContinued | scripts/generate-python-requirements.py:11-16 | The joined text is never longer than the input, and text without a newline is unchanged |
| Requirements.JoinContinuedPrefix | scripts/generate-python-requirements.py:11-16 | Text without a backslash is copied unchanged in front of the rest |
| Requirements.JoinContinuedNoBackslash | scripts/generate-python-requirements.py:11-16 | Text with no backslash is unchanged |
| Requirements.SpaceEndAt | scripts/generate-python-requirements.py:13-15 | The run ends at the first non-blank |
| Requirements.JoinContinuedLine | scripts/generate-python-requirements.py:11-16 | A backslash, blanks containing a newline, and the next text become one space |
| Requirements.ContinuationStep | scripts/generate-python-requirements.py:13-15 | A continuation at the front becomes one space |
| Requirements.GatherMeaning | scripts/generate-python-requirements.py:27-56 | The loop succeeds iff every kept line succeeds, with one value per kept line in order; otherwise the first failure's error |
| Requirements.GatherFailed | scripts/generate-python-requirements.py:27-56 | Once a line raised, later lines change nothing |
| Requirements.GatherSnoc | scripts/generate-python-requirements.py:27-56 | One more line is skipped, raises or appends its value |
| Requirements.HashesMeaning | scripts/generate-python-requirements.py:48-53 | Each hash segment gives its token, with any "sha256:" prefix removed, in order. An empty segment raises IndexError |
| Requirements.KeptAll | scripts/generate-python-requirements.py:48-53 | No hash segment is skipped |
| Requirements.CollectHashes | scripts/generate-python-requirements.py:48-53 | The hash loop computes `Hashes(parts)` |
| Requirements.ParseLine | scripts/generate-python-requirements.py:27-56 | One line gives nothing when skipped, or else its package |
| Requirements.ParseRequirements | scripts/generate-python-requirements.py:19-56 | The whole loop computes `Parsed` of the split lines |
| Requirements.ParsedMeaning | scripts/generate-python-requirements.py:27-56 | Every non-skipped line yields exactly one package, in input order; a failure is the first failing line's |
| Requirements.NameVersionOf | scripts/generate-python-requirements.py:39-45 | `name==version` gives both parts, stripped |
| Requirements.NameWithoutVersion | scripts/generate-python-requirements.py:39-45 | Without "==" the version is "" |
| Requirements.MarkerDropped | scripts/generate-python-requirements.py:34-37 | Everything from the first ";" on is dropped |
| Requirements.HashTokenOf | scripts/generate-python-requirements.py:50-52 | A segment's first word gives the hash, without "sha256:" |
| Requirements.CleanPackageNameOf | scripts/generate-python-requirements.py:59-66 | The stripped text before "[" is kept; a name without "[" is unchanged |
| Requirements.CleanPackageName | scripts/generate-python-requirements.py:59-66 | The cleaned name has no "[" and is no longer than the input |
| Requirements.GetPypiSource | scripts/generate-python-requirements.py:69-116 | A missing version raises. The first py3 wheel with a listed hash wins; otherwise the first source sdist with a listed hash; otherwise it raises |
| Requirements.WordsAppend | scripts/generate-python-requirements.py:119-128 | Splitting words of two texts joined by a space gives both word lists |
| Requirements.BuildCommandWords | scripts/generate-python-requirements.py:119-128 | The build command's words are the fixed prefix's words followed by exactly the package names |
| Requirements.MakeBuildCommand | scripts/generate-python-requirements.py:119-128 | The command starts with the fixed builder prefix and a space, and contains every package name |
| CheckImage.WithoutConcat | scripts/check-image-for-device.py:30 | Removing a character distributes over concatenation |
| CheckImage.WithoutMeaning | scripts/check-image-for-device.py:30 | Removing a character keeps every other character and drops only that one |
| CheckImage.ReplaceChar | scripts/check-image-for-device.py:30 | `replace(c, "")` removes every occurrence of c |
| CheckImage.StripBracketsMeaning | scripts/check-image-for-device.py:30 | No "[" or "]" is left, and every other character is kept |
| CheckImage.KeptConcat | scripts/check-image-for-device.py:31-33 | The line filter distributes over concatenation |
| CheckImage.ShortLineIgnored | scripts/check-image-for-device.py:32 | A line of length 2 or less never contributes |
| CheckImage.KeptMeaning | scripts/check-image-for-device.py:31-33 | A line is kept iff it is longer than two characters |
| CheckImage.Pieces | scripts/check-image-for-device.py:30 | A line splits into one or two pieces |
| CheckImage.PiecesMeaning | scripts/check-image-for-device.py:30 | A line splits into two pieces iff it contains ":"; the split is at the first ":" and no bracket remains |
| CheckImage.DictDefined | scripts/check-image-for-device.py:28-34 | `dict()` succeeds iff every element is a pair, and otherwise raises ValueError |
| CheckImage.DictKeys | scripts/check-image-for-device.py:28-34 | The keys are exactly the first pieces |
| CheckImage.DictLaterWins | scripts/check-image-for-device.py:28-34 | For a repeated key, the value comes from its last line |
| CheckImage.SelectMeaning | scripts/check-image-for-device.py:36-37 | Exactly the relevant keys, their values stripped; a missing key raises KeyError |
| CheckImage.DeviceInfo | scripts/check-image-for-device.py:21-37 | It raises only ValueError or KeyError, and on success its keys are exactly the three relevant keys |
| CheckImage.DeviceInfoMeaning | scripts/check-image-for-device.py:21-37 | From the getprop text: ValueError iff some kept line does not split into two pieces; KeyError iff all do and a relevant key is on no line; otherwise each key has the stripped value of its last line |
| CheckImage.ImageWorks | scripts/check-image-for-device.py:40-45 | An empty device code works with any file; a code longer than the file text never does |
| CheckImage.ImageWorksMeaning | scripts/check-image-for-device.py:40-45 | True iff the device code occurs in the file text |

## Findings

| source | as written | input that shows it | evidently intended | confidence | as-written member | corrected member |
|---|---|---|---|---|---|---|
| openandroidinstaller/openandroidinstaller.py:378 | The failure text lacks the `f` prefix, so it shows "{command}" literally | Any failing command, for example exit code 1 for `adb reboot` | The text names the command that failed, as in views/step_view.py:257 | not executed | MainViews.FailedTextAsWrittenIgnoresCommand | MainViews.FailedTextNamesCommand |
| openandroidinstaller/tool_utils.py:71 | `[:-2]` assumes a one-character line end | A getprop line ending in `\r\n`, `[ro.product.device]: [yuga]\r\n`, gives "yuga]" | The bare device code, as the `tooling.py:409` parser returns | not executed | ToolUtils.DeviceCodeOfCrlf | Tooling.DeviceCodeOfGetprop |
| openandroidinstaller/tooling.py:40 | `shlex.split` reads the command line as POSIX shell syntax, and `adb_sideload` (tooling.py:118) puts the picked file's path into that line unquoted | The Windows image path `C:\Users\me\los.zip`: `adb sideload C:\Users\me\los.zip` splits into `adb`, `sideload`, `C:Usersmelos.zip` | The path reaches adb as one argument, unchanged | not executed; the splitting rules are those of Python's `shlex` module in POSIX mode | Shlex.CommandPathBackslash | Tooling.CommandPathArgv |
| openandroidinstaller/tool_utils.py:26-28 | The tool path is passed to `re.sub` as the replacement, so its backslashes are read as template escapes | Bin path `C:\tools\bin` on Windows: the `\h` of the heimdall path raises `re.error` for every command, and the adb path alone would already read `\t`, `\b` and `\a` as control characters | The command starts with the literal tool path, as the argv that `tooling.py` builds does | not executed; the template rules are those of Python's `re` module | ToolUtils.WindowsCallRaises | ToolUtils.RewriteLeading |

The step view of `openandroidinstaller.py` appends the as-written `MainViews.FailedTextAsWritten`; `MainViews.FailedText` is the corrected text. The start view uses the corrected parser, `Tooling.SearchDevice`. The older `views.py` welcome view calls `tool_utils.search_device` in its source, so it keeps the as-written parser. `ToolUtils.CallToolWithCommand` is modelled as written, since no other member calls it. Its corrected, literal rewrite is `ToolUtils.Rewrite`, and `ToolUtils.RewriteBackslashFree` shows that the two agree on POSIX paths. The tool runs split their arguments the corrected way, on whitespace (`Words`); `Shlex.Split` is the as-written `shlex.split`, which no other member calls, and `Shlex.SplitPlain` shows that the two agree on plain text.

## Left out

- Process execution, `sleep` and logging are left out. A tool run is the oracle's answer (output lines plus an exit code). A `check_output` call is an oracle `probe` that returns either text or a process error.
- Reading text is left out. `.decode()` and latin-1 decoding are outside the model, and the text is an input.
- GUI rendering is left out: flet widgets, `update()`, colours, dialogs as pages, `launch_url` and the label texts. Only the flags and values that handlers change are kept.
- `ProgressIndicator` and `TerminalBox` are left out of the step views, because `widgets.py` does not define them. Progress and terminal output appear only as the drained stream.
- The oracle collaborators named above carry no contract: `fastboot_boot_recovery`, `adb_twrp_install_addon`, `adb_twrp_finish_install_addons`, `image_recovery_works_with_device`, `_load_config` (as `AppState.loader`), the `from_file` of `openandroidinstaller.py` and the `views.py` step operations.
- Session.AppState.AddDefaultViews: `add_default_views` is called at views/install_view.py:83 but defined in no shown file. The model takes it to append the views to `default_views` and to change nothing else.
- Session.AppState.constructor: `num_total_steps`, `install_addons`, `addon_paths`, `default_views` and `addon_views` are not set by the shown app_state.py:25-46. In that revision, a read before any view sets them raises AttributeError. For example, the install view reads `install_addons` even when its switch was never toggled. The model starts them at 0, False, the empty list and a constructor argument, so it does not capture that AttributeError.
- `views.py` shows `state.progressbar`, which the shown `app_state.py` does not define. The progress bar is left out of the `views.py` views, except as the `ProgressBar` widget that the step view pushes while a command runs.
- SelectViews.SelectFilesView.Build: views/select_view.py:68, and views.py:308 in the older file-selection view whose build is otherwise the same, also append `state.progressbar`, so with a config loaded this revision raises AttributeError there. The model takes the attribute to exist, as for the other view attributes of `Session.AppState.constructor`, and does not capture that AttributeError.
- `app_state.py` reads `flash_recovery` and `install_os`, which `InstallerConfig` lacks. `Session.SessionConfig` carries them as given, and the two config shapes are not reconciled.
- InstallerConfig.PairOf: a two-entry mapping inside a top-level list is refused, while `dict` would take its two keys as a pair in insertion order, which the model's maps do not keep; such a file is skipped by the search.
- YAML parsing is left out. A file is `Malformed` or a `Document.Value`, and floats and non-string keys are not modelled.
- The internals of the `schema` and `regex` libraries are left out. `Regex` is a substring search over the alternatives. The `android` entry follows the `schema` library's type rule that a bool is refused where `int` is asked for; a `schema` release without that rule would admit booleans there.
- ToolUtils.Expand follows the replacement-template rules of Python's `re` module, which the `regex` library that `tool_utils.py` imports is taken to share: `\\`, the escapes `\a \b \f \n \r \t \v`, and a backslash before any other non-alphanumeric character, which is kept. Every other ASCII letter or digit after a backslash is refused, and so is a trailing backslash. The hex (`\x`, `\u`, `\U`), named (`\N{...}`), octal (`\0`) and group (`\g<0>`) forms are therefore modelled as refused, including their well-formed uses.
- Globbing and `pathlib` are left out. A config directory is the sequence of its files. `Path.parent`, `joinpath` and `Path.name` are modelled for POSIX paths without trailing or repeated slashes. `Path.name` is the text after the last "/", so InstallAddonsViews.InfoText gives "" for a path ending in "/", where Python names the last component. On win32, `tooling.py` adds ".exe" to the tool path and joins it with a backslash; that path is an argv entry of its own and is never split. The arguments after it are split by `shlex.split` on every platform (see the `Tooling.RunCommand` line). `tool_utils.py` passes the path to `re.sub` as a template, and that case is modelled by `ToolUtils.Expand` (see Findings).
- Tooling.RunCommand: the text after the tool is split into arguments on whitespace (`Words`), not with `shlex.split`. `Shlex.Split` models `shlex.split`, and `Shlex.SplitPlain` proves that the two agree on text without quotes, backslashes or whitespace other than space, tab, CR and LF. They differ in four ways, all reachable through a picked file's path:
  - A backslash escapes the next character and disappears, so the Windows path `C:\Users\me\los.zip` reaches adb as `C:Usersmelos.zip` (`Shlex.BackslashDropped`; see Findings).
  - An unclosed quote, such as one apostrophe in a path, makes `shlex.split` raise ValueError right after the `$command` echo (`Shlex.ApostropheRaises`). For such a command the source raises although the tool is known, so this method's "raises exactly when the tool is unknown" holds only for the model.
  - Quotes are consumed and group words into one argument; the model keeps them as characters.
  - Only space, tab, CR and LF separate arguments, while `Words` also splits on other Unicode whitespace such as U+00A0 (`Shlex.WordCharsOneToken`).
- Tooling.InvocationArgv: its "remaining words" are the whitespace words of the command. They equal the `shlex.split` tokens only on the plain text of `Shlex.SplitPlain`; the four differences in the `Tooling.RunCommand` line apply to the argv too.
- `check_ab_partition` (openandroidinstaller/tooling.py:417-454) is not part of this model.
- Requirements.GetPypiSource: the network fetch and JSON decoding become a parameter mapping versions to their files. A missing "releases" key is the same as an empty map. `digests.sha256` is taken to be present, and a JSON `null` python version is not modelled.
- The `main` functions and argument parsing of both scripts are left out, and so are the JSON dump and the `print` of `get_device_info`.
- MainViews.MainView.Confirm: the progress fraction is a Dafny `real`, not a float.
- flet's event wiring is left out. The rebinding of `on_result` in views/select_view.py:60-61 is modelled as both handlers running, the label handler first (`OnImagePicked`, `OnRecoveryPicked`); flet's own dispatch is not visible.
