# A Dafny model of the Packer pwsh provisioner

This project models `provisioner/provisioner.go`, the Packer provisioner that
runs PowerShell scripts on the machine being built. It covers:

- Prepare: lower-case the OS type, fill every empty setting with that OS's
  default, and validate.
- Staging the scripts to run: the temporary file an inline script is written
  to, and the list of local script paths.
- Running one script: the choice of the plain or elevated command, the
  expansion of a directory remote path, upload, remote command, and removal
  of the local file.
- The reboot cycle: initiate, poll progress, then validate.
- The provisioning run: the optional PowerShell auto-update, then each script
  in order, each followed by the optional pending-reboot check.

The model has two layers.

1. Specification functions over values. `Configuration.Prepared`,
   `Staging.InlineScript`, `Staging.ScriptCollection`,
   `Execution.UploadAndExecute`, `Rebooting.Reboot`,
   `Orchestration.RunScripts`, `Orchestration.AutoUpdate` and
   `Orchestration.Provision` describe what each step does to a value of the
   collaborators' state (`Host.Env`). That state is the local file system
   (`Host.Disk`) and the communicator (`Host.Channel`).
2. The Go `Provisioner` struct as the class `Provisioning.Provisioner`. It
   has the fields `config`, `communicator` and `generatedData`, and its
   methods change them step by step as the Go code does: assignments, loops
   and calls to the collaborator classes `Host.Communicator` and
   `Host.LocalFiles`. Each method is proved to leave exactly the state its
   specification function computes. The properties of the run are lemmas
   about those functions.

Collaborators are modelled as follows:

- The communicator is scripted. Uploads and remote commands alike take their
  answer from a finite queue of `Response(failed, exitCode)` values, and every
  call is appended to a log of `Uploaded`/`Ran` events. Once the queue is
  empty, every call fails in transport.
- `interpolate.Render` and `guestexec.GenerateElevatedRunner` are
  function-valued parameters (`Host.Oracles`); `None` means they failed.
- `tmp.File` takes its names from a queue of candidates (`Disk.tempNames`).
- `uuid.TimeOrderedUUID` is a parameter (`Configuration.PathIds`).
- The texts the embedded auto-update and pending-reboot templates render to
  are a parameter (`Configuration.Templates`).

The model follows the code as written in these places:

- At line 283 the result of `ValidExitCode` is discarded. The condition then
  tests an `e` that is already nil, so no exit code ends the run. See
  `Orchestration.NoExitCodeRejected`.
- At lines 179 and 201 the template errors are checked through `e`, not
  `err`. A template's output is therefore always used.
- There is no reboot after the whole run. The only reboot is the one the
  per-script pending-reboot check triggers, on exit code 1.
- `defaultTries` is 1, so the retried upload-and-run body runs once.
- Every script that ran successfully is deleted afterwards, whether it was
  staged from inline lines or given by the user (line 481).
- `generatedData["Path"]` holds the remote path as configured, before a
  directory path is expanded by the script's base name.

## Model

| member | source | states |
|---|---|---|
| Configuration.DefaultsFor | provisioner/provisioner.go:103-158 | The defaults the OS type selects. The Unix defaults hold for every OS but debian, ubuntu and windows. Debian and ubuntu add their auto-update template, and windows replaces the commands, the extension, both templates and the directory. Its meaning is stated by DefaultsDirectory, DefaultElevatedCommandShape and WindowsOnlyRebootDefaults. |
| Configuration.DefaultRemotePath | provisioner/provisioner.go:160-162 | The formatRemotePath closure followed by the Sprintf with the identifier. Its shape is stated by DefaultRemotePathShape. |
| Configuration.ApplyDefaults | provisioner/provisioner.go:164-226 | Each defaulted setting keeps a non-empty given value and takes the OS default only when it was empty. An empty auto-update or pending-reboot command becomes the OS template's text with line endings normalised, or stays empty when the OS has no template. A non-empty one is kept. An empty inline list becomes nil. Scripts, exit codes, user, password and both flags are untouched. |
| Configuration.ProblemsOf | provisioner/provisioner.go:236-244 | Each of the three validation errors is reported exactly when its condition holds. There are no errors exactly when a password comes with a user and exactly one of inline lines (non-nil) and script files is given. |
| Configuration.Prepared | provisioner/provisioner.go:103-250 | The prepared configuration is the decoded one with its OS type lower-cased and defaults applied for that OS. The errors are stated on the decoded settings: an empty inline list counts as none, so preparation succeeds exactly when a password has a user and exactly one script source is given. |
| Configuration.DefaultElevatedCommandShape | provisioner/provisioner.go:103-109 | The Unix default elevated command echoes the user name (or "packer") into `sudo -S`, which reads it as the password, and leaves a %s for the command sudo runs under `sh -e -c`. |
| Configuration.RemotePathTemplate | provisioner/provisioner.go:120-162 | formatRemotePath leaves dir/packer-pwsh-role-%s.ext, with one %s still open for the identifier. |
| Configuration.DefaultRemotePathShape | provisioner/provisioner.go:160-226 | A default remote path is dir/packer-pwsh-role-id.ext. |
| Configuration.DefaultsDirectory | provisioner/provisioner.go:115-158 | Windows puts default paths in C:/Windows/Temp and gives the installer the ps1 extension. Every other OS uses /tmp and sh. |
| Configuration.DefaultedRemotePath | provisioner/provisioner.go:216-226 | A remote path filled from its default is never empty, and it has the default shape when none was given. |
| Configuration.DefaultedRemotePaths | provisioner/provisioner.go:216-226 | After defaulting, all three remote paths are non-empty. Each one that was empty is the default path of its role (variables, script, installer) with its identifier. |
| Configuration.PreparedRemotePaths | provisioner/provisioner.go:115-226 | After Prepare every remote path is set, and a defaulted one lies in the OS's temporary directory. |
| Configuration.WindowsOnlyRebootDefaults | provisioner/provisioner.go:116-215 | With the reboot commands unset, Prepare fills the initiate, progress and complete commands exactly when the OS type is "windows" in any letter case. On any other OS the pending-reboot command stays empty. |
| Configuration.PreparedTemplatesUseLineFeeds | provisioner/provisioner.go:175-206 | A command filled from a template holds no carriage return. |
| Configuration.OrTemplateIdempotent | provisioner/provisioner.go:175-206 | Filling a template-backed command a second time changes nothing. |
| Configuration.ApplyDefaultsIdempotent | provisioner/provisioner.go:164-226 | Applying the defaults to an already defaulted configuration changes nothing. |
| Configuration.PrepareIdempotent | provisioner/provisioner.go:103-250 | Preparing a prepared configuration again yields the same configuration and the same errors. |
| GoText.ToLower | provisioner/provisioner.go:126 | Lower-casing keeps the length, maps each character through the ASCII lower-case map, and leaves no upper-case ASCII letter. |
| GoText.ToLowerIdempotent | provisioner/provisioner.go:126 | Lower-casing twice is lower-casing once. |
| GoText.ReplaceAll | provisioner/provisioner.go:182 | strings.ReplaceAll, left to right and without overlaps. Its meaning is stated by ReplaceAllWithoutMatch and ReplaceCharRemoves. |
| GoText.NormalizeNewlines | provisioner/provisioner.go:182 | CRLF, then a lone CR, become LF (the same expression is at line 204). Its meaning is stated by the three Normalize lemmas. |
| GoText.ReplaceAllWithoutMatch | provisioner/provisioner.go:182 | strings.ReplaceAll leaves a text alone when the pattern's first character is absent from it. |
| GoText.ReplaceCharRemoves | provisioner/provisioner.go:182 | Replacing a character by a text without it leaves no occurrence of it. |
| GoText.NormalizeRemovesCarriageReturns | provisioner/provisioner.go:182 | The CRLF-then-CR normalisation (here and at line 204) leaves no carriage return. |
| GoText.NormalizeKeepsCleanText | provisioner/provisioner.go:182 | A text without carriage returns is unchanged by the normalisation. |
| GoText.NormalizeIdempotent | provisioner/provisioner.go:182 | Normalising twice is normalising once. |
| GoText.IsPathSeparator | provisioner/provisioner.go:439 | os.IsPathSeparator on a Unix host: only '/' is a separator. Its use is stated by ExpandedRemotePathIff. |
| GoText.TrimmedIsPrefix | provisioner/provisioner.go:440 | Dropping trailing separators keeps a prefix of the path and drops only separators. |
| GoText.LastElementIsSuffix | provisioner/provisioner.go:440 | The last element is a suffix of the path, and it is preceded by a separator unless it is the whole path. |
| GoText.BaseName | provisioner/provisioner.go:440 | filepath.Base is never empty, and it is either "/" or holds no separator. |
| GoText.BaseNameCases | provisioner/provisioner.go:440 | filepath.Base is "." for the empty path and "/" exactly for a path of separators only. Otherwise it is the last element once trailing separators are dropped. |
| GoText.BaseNameOfJoin | provisioner/provisioner.go:440 | The base name of a directory joined by "/" with a name without separators is that name. |
| GoText.BaseNameIdempotent | provisioner/provisioner.go:440 | The base name of FileInfo.Name() equals the base name of the path. |
| GoText.Sprintf | provisioner/provisioner.go:74 | fmt.Sprintf with string operands: %s and %v print the operand, %% prints '%', a missing operand, a bad verb and unused operands print Go's annotations. Its meaning is stated by SprintfOneVerb and SprintfWithoutVerb. |
| GoText.SprintfOneVerb | provisioner/provisioner.go:73-75 | A template with one %s and no other '%' has its operand put in place of the %s. |
| GoText.SprintfWithoutVerb | provisioner/provisioner.go:73-75 | A template without '%' prints itself followed by Go's EXTRA annotation for the unused operand. |
| Staging.LinesOfJoined | provisioner/provisioner.go:313-322 | Text written line by line, each line followed by "\n", splits back into the same lines. |
| Staging.InlineScript | provisioner/provisioner.go:307-331 | With no lines there is no file and no error. Otherwise a fresh, previously absent temporary file holds the lines, each followed by "\n", and no other file changes. A failed tmp.File is the error. |
| Staging.InlineScriptRoundTrip | provisioner/provisioner.go:307-331 | A staged inline script reads back as exactly the configured lines. |
| Staging.SingleLineScript | provisioner/provisioner.go:289 | The one-line pending-reboot script, and the auto-update script of line 411, hold that line and a line feed. |
| Staging.CopyInto | provisioner/provisioner.go:342 | Go's copy overwrites the first min(len) elements and keeps the rest. |
| Staging.AssembledScripts | provisioner/provisioner.go:336-342 | make, then append of the inline path, then copy give the configured scripts followed by the inline script when there is one. |
| Staging.ScriptCollection | provisioner/provisioner.go:332-346 | On error there are no scripts and no file was added. Without inline lines the collection is the configured scripts and nothing changes. With inline lines it is the configured scripts plus a freshly staged inline file, the file holds the joined lines, and no other file changes. |
| Staging.CollectionOfValidConfig | provisioner/provisioner.go:332-346 | For a configuration that passed validation, the collection is the script files alone or the inline script alone, holding the inline lines. |
| Execution.ElevatedCommand | provisioner/provisioner.go:73-75 | ElevatedExecuteCommand: the elevated template with the plain command as its operand. Stated by WindowsElevatedCommand and UnixElevatedCommand. |
| Execution.SelectedCommand | provisioner/provisioner.go:427-431 | The elevated command when an elevated user is set, otherwise the plain command. Stated by SelectedCommandOf. |
| Execution.SelectedCommandOf | provisioner/provisioner.go:427-431 | With an elevated user the command is the elevated template with the plain command put in its %s. Without one it is the plain command. |
| Execution.WindowsElevatedCommand | provisioner/provisioner.go:138 | The Windows default elevated template "%s", used through ElevatedExecuteCommand (lines 73-75), leaves the plain command unchanged. |
| Execution.UnixElevatedCommand | provisioner/provisioner.go:103-109 | With the Unix default elevated template, the command is the echo of the user name piped into `sudo -S sh -e -c '<command>'`. sudo reads the user name as its password, and the command runs as sudo's default target user, not as that user. |
| Execution.ExpandedRemotePath | provisioner/provisioner.go:439-441 | A remote path ending in a separator gets the base name of the stat'ed file's name appended. Stated by ExpandedRemotePathIff, ExpandedIntoDirectory and ExpandedRemotePathIdempotent. |
| Execution.ExpandedRemotePathIff | provisioner/provisioner.go:439-441 | The script's base name is appended exactly when the remote path ends in a separator. |
| Execution.ExpandedIntoDirectory | provisioner/provisioner.go:439-441 | A script dir/name uploaded to a remote directory path ending in "/" lands at that directory path followed by name. |
| Execution.ExpandedRemotePathIdempotent | provisioner/provisioner.go:439-441 | An expanded remote path is not expanded again unless the base name is a separator. |
| Execution.RenderedPassword | provisioner/provisioner.go:76-80 | The rendered elevated password, or empty when rendering fails. |
| Execution.Runnable | provisioner/provisioner.go:457-461 | On windows with an elevated user the command goes through the elevated runner, which may fail. Otherwise it runs as rendered. Its place in the run is stated by UploadAndExecuteTranscript. |
| Execution.UploadAndExecute | provisioner/provisioner.go:422-490 | Errors return exit code -1 and leave the local files alone. Render, stat and empty-path errors touch nothing. Success removes exactly the local script, takes two answers from the communicator (the upload and the command), and returns the command's exit code. The log only grows, by at most two calls. |
| Execution.UploadAndExecuteTranscript | provisioner/provisioner.go:433-470 | A successful run logs exactly one upload of the script's content to the expanded path, then the one rendered (and, where required, elevated) command. |
| Execution.RemotePathOnlyNamesTheUpload | provisioner/provisioner.go:433-470 | The remote path decides only where the script goes. The command, the exit code, the local files and the outcome do not depend on it. |
| Execution.SecondRunOfSameScriptFails | provisioner/provisioner.go:436-481 | After a successful run the local script is gone, so running it again fails at os.Stat. |
| Rebooting.Poll | provisioner/provisioner.go:362-383 | The polling loop as a recursion over the answers. Stated by PollClosedForm and PollGrows. |
| Rebooting.PollClosedForm | provisioner/provisioner.go:362-383 | The progress command is issued once for each answer up to and including the first 0, 1 or transport error. The complete command follows exactly when that answer was a successful 0. |
| Rebooting.PollGrows | provisioner/provisioner.go:362-383 | Polling only appends to the log, and its first command is the progress command. |
| Rebooting.Validate | provisioner/provisioner.go:387-399 | The validation loop as a recursion over the answers. Stated by ValidateClosedForm and ValidateSucceedsIff. |
| Rebooting.ValidateClosedForm | provisioner/provisioner.go:387-399 | The validation command runs once for each answer up to the first successful exit 0 and succeeds there. Without such an answer the answers run out. |
| Rebooting.ValidateGrows | provisioner/provisioner.go:387-399 | Validation only appends to the log, and a successful one ends with the validation command. |
| Rebooting.ValidateSucceedsIff | provisioner/provisioner.go:387-399 | Validation succeeds exactly when some remaining answer is a successful exit 0. |
| Rebooting.Reboot | provisioner/provisioner.go:347-406 | The reboot only appends to the log, starting with the initiate command. A successful reboot has issued at least three commands: the progress command right after the initiation, and the validation command last. |
| Rebooting.RebootInitiationFails | provisioner/provisioner.go:350-358 | A failed or non-zero initiation is an error, and no further command is issued. |
| Rebooting.RebootSucceedsIff | provisioner/provisioner.go:347-406 | The reboot succeeds exactly when the initiation exits 0 and some answer after the polling passes validation. |
| Rebooting.RebootScenario | provisioner/provisioner.go:347-406 | One concrete answer queue: initiate, poll 2, poll 0 then complete, a failed validation, a passing validation. It yields exactly that command log and leaves the unused answer. |
| Orchestration.PendingRebootCheck | provisioner/provisioner.go:286-298 | The pending-reboot check only appends to the communicator's log. |
| Orchestration.ScriptStep | provisioner/provisioner.go:277-301 | A script step only appends to the communicator's log. |
| Orchestration.NoExitCodeRejected | provisioner/provisioner.go:277-285 | Without reboots, a script step has exactly the outcome of uploading and running the script, whatever exit code it returns. |
| Orchestration.RebootOnlyOnExitOne | provisioner/provisioner.go:286-298 | If the pending-reboot check exits with anything but 1, it adds only its upload and command. If it exits 1, the reboot follows and decides the error. |
| Orchestration.RunScripts | provisioner/provisioner.go:275-306 | Running the scripts only appends to the communicator's log. The order and the stop at the first error are stated by RunScriptsAppend and RunScriptsTranscript. |
| Orchestration.RunScriptsAppend | provisioner/provisioner.go:275-306 | Running two lists of scripts is running the first, then, unless it failed, the second. |
| Orchestration.ScriptStepTranscript | provisioner/provisioner.go:277-285 | Without reboots, a step whose upload and command go through logs the upload and the command, consumes two answers and removes the script. |
| Orchestration.RunScriptsTranscript | provisioner/provisioner.go:271-306 | Without reboots, when every upload and command goes through, the run succeeds. It logs each script's upload and command in list order and removes every script. |
| Orchestration.TranscriptOfFewerFiles | provisioner/provisioner.go:275-281 | Removing a file the remaining scripts do not name leaves their transcript unchanged. |
| Orchestration.DuplicateScriptFails | provisioner/provisioner.go:275-281 | A script listed twice fails at os.Stat the second time, because its first run deleted it (line 481). |
| Orchestration.AutoUpdate | provisioner/provisioner.go:407-421 | A successful auto-update logs exactly two calls, the first an upload of the auto-update command and a line feed. |
| Orchestration.AutoUpdateTranscript | provisioner/provisioner.go:407-421 | A successful auto-update stages a fresh one-line file and uploads its content to the expanded installer path. It then runs the auto-update execute command, selected and elevated as for any script and rendered with Path set to the installer's remote path. The local files end as they began. |
| Orchestration.Provision | provisioner/provisioner.go:253-269 | A failed auto-update ends the run with its error and its collaborators, leaving Path at the installer's remote path. A successful run leaves Path at the scripts' remote path. |
| Orchestration.ProvisionWithoutAutoUpdate | provisioner/provisioner.go:253-269 | With the auto-update off, a collection error ends the run with Path untouched. Otherwise provisioning is exactly running the collected scripts with Path set to the remote path. |
| Orchestration.ProvisionAfterAutoUpdate | provisioner/provisioner.go:253-269 | After a successful auto-update, the scripts are collected and run from the collaborators it left. A collection error keeps Path at the installer's remote path, and running the scripts sets it to the scripts' remote path. |
| Host.Communicator.Upload | provisioner/provisioner.go:454 | An upload consumes one answer and logs the upload. |
| Host.Communicator.Run | provisioner/provisioner.go:463-469 | A remote command consumes one answer, logs the command, and reports that answer's failure and exit status. |
| Host.LocalFiles.Stat | provisioner/provisioner.go:436-440 | os.Stat finds exactly the existing files and names the base name. |
| Host.LocalFiles.ReadAll | provisioner/provisioner.go:443-454 | os.Open, Seek to the start and the read that feeds the upload give exactly the file's content. |
| Host.LocalFiles.CreateTemp | provisioner/provisioner.go:311 | tmp.File creates an empty file under the next candidate name, and fails without changing the files when none is usable. |
| Host.LocalFiles.Write | provisioner/provisioner.go:314-324 | The buffered WriteString calls and Flush leave the file holding exactly the written content, and no other file or candidate name changes. |
| Host.LocalFiles.Remove | provisioner/provisioner.go:481 | os.Remove removes exactly that file. |
| Provisioning.Provisioner.constructor | provisioner/provisioner.go:62-66 | A new provisioner has a zero configuration, no communicator and no generated data. |
| Provisioning.Provisioner.ElevatedExecuteCommand | provisioner/provisioner.go:73-75 | The accessor over the configuration; it is Execution.ElevatedCommand. |
| Provisioning.Provisioner.ElevatedPassword | provisioner/provisioner.go:76-80 | The accessor over the configuration and the generated data; it is Execution.RenderedPassword. |
| Provisioning.Provisioner.ElevatedUser | provisioner/provisioner.go:81-83 | The configured elevated user. |
| Provisioning.Provisioner.Prepare | provisioner/provisioner.go:103-250 | The configuration becomes the prepared one, and the error is the validation errors when there are any. Communicator and generated data are unchanged. |
| Provisioning.Provisioner.FillDefaults | provisioner/provisioner.go:164-226 | The statements that fill each empty setting leave exactly the defaulted configuration. |
| Provisioning.Provisioner.Problems | provisioner/provisioner.go:236-244 | The checks collect exactly the validation errors of the configuration. |
| Provisioning.Provisioner.GetInlineScriptFilePath | provisioner/provisioner.go:307-331 | The write loop and temporary file leave the path, file system and error that InlineScript specifies. |
| Provisioning.Provisioner.InitializeScriptCollection | provisioner/provisioner.go:332-346 | The scripts, file system and error are those ScriptCollection specifies for the configured inline lines and scripts. |
| Provisioning.Provisioner.UploadAndExecuteScript | provisioner/provisioner.go:422-490 | The exit code, both collaborators and the error are those UploadAndExecute specifies. |
| Provisioning.Provisioner.RebootMachine | provisioner/provisioner.go:347-406 | The two loops leave the communicator and error that Reboot specifies. |
| Provisioning.Provisioner.ExecuteScriptCollection | provisioner/provisioner.go:271-306 | Path becomes the remote path, and the loop leaves the collaborators and error that RunScripts specifies. |
| Provisioning.Provisioner.UpdatePwshInstallation | provisioner/provisioner.go:407-421 | The configuration is restored after the swap of the execute command, Path becomes the installer's remote path, and the collaborators and error are those AutoUpdate specifies. |
| Provisioning.Provisioner.Provision | provisioner/provisioner.go:253-269 | The communicator is stored, and the generated data, collaborators and error are those Provision specifies. |

## Left out

- config.Decode and its interpolation filter: `Provisioning.Provisioner.Prepare` receives the configuration already decoded, so decoding errors are not modelled.
- ui.Say and every other message to the user: they have no effect on the state.
- Error message texts and the wrapping of errors (fmt.Errorf formats, MultiErrorAppend, the retry package's error): errors are the constructors of `Outcomes.Error`.
- Time: the start timeout, the sleeps in the reboot loops and the context. The retry runs its body once (`defaultTries` is 1).
- `ResponsesExhausted` stands in for the endless validation loop once the communicator has no answers left.
- `EmptyRemotePath` stands in for the index-out-of-range panic on an empty remote path (line 439).
- `GoText.ToLower` maps ASCII letters only; Go's Unicode case mapping is not modelled.
- `GoText.Sprintf` models %s, %v, %%, a bad verb, missing and extra operands; flags, widths and other verbs are not modelled.
- `GoText.BaseName` and the separator test use '/' only; Windows host separators are not modelled.
- Opening, seeking, writing, flushing, closing and removing files do not fail in the model. Only tmp.File (no usable name) and os.Stat (missing file) fail.
- tmp.File's own retries over random names: a candidate that is taken is a failure.
- The uploads and commands of guestexec.GenerateElevatedRunner itself: the runner is a function parameter that rewrites the command or fails.
- ValidExitCode and the accepted exit codes: the result is discarded at line 283, so the configured codes have no effect; the function's own package is not part of this model.
- Vars, ElevatedEnvVarFormat, RemoteEnvVarPath's use and the nil-to-empty normalisation of Scripts and Vars: a Dafny sequence has no nil, and nothing in the core reads Vars.
- The aliasing of `generatedData` with the caller's map: the class holds its own copy, so the caller does not see the Path entries.
- The embedded template texts: the rendered texts are a parameter of Prepare.
- Communicator() and ConfigSpec(): accessors with nothing to prove.
- `Provisioning.Provisioner.FillDefaults` writes each "if empty, take the default" statement of Prepare as one update with `OrDefault`, in the source's order.
