/** The Provisioner of provisioner.go:63-67 and its methods, step by step as
    the source takes them, each proved to produce what the specification
    functions of the other modules describe. */
module Provisioning {
  import opened Outcomes
  import opened GoText
  import opened Host
  import opened Configuration
  import opened Staging
  import opened Execution
  import opened Rebooting
  import opened Orchestration

  /** A Config as Go zeroes it: nil slices, empty strings, false flags. */
  function ZeroConfig(): Config {
    Config(None, [], [], "", "", "", "", "", "", "", "", false, "", "", false, "", "", "", "", "")
  }

  class Provisioner {
    var config: Config
    var communicator: Communicator?
    var generatedData: map<string, string>

    constructor ()
      ensures config == ZeroConfig() && communicator == null && generatedData == map[]
    {
      config := ZeroConfig();
      communicator := null;
      generatedData := map[];
    }

    /** ElevatedExecuteCommand (provisioner.go:73-75). */
    function ElevatedExecuteCommand(): string
      reads this
    {
      ElevatedCommand(config)
    }

    /** ElevatedUser (provisioner.go:81-83). */
    function ElevatedUser(): string
      reads this
    {
      config.elevatedUser
    }

    /** ElevatedPassword (provisioner.go:76-80), rendered against the generated data. */
    function ElevatedPassword(orc: Oracles): string
      reads this
    {
      RenderedPassword(config, generatedData, orc)
    }

    /** Prepare on an already decoded configuration (provisioner.go:103-250):
        the OS type is lower-cased, each empty field gets the default the OS
        type selects, and the problems found are reported together. */
    method Prepare(decoded: Config, t: Templates, ids: PathIds) returns (err: Option<Error>)
      modifies this
      ensures config == Prepared(decoded, t, ids).config
      ensures err == if Prepared(decoded, t, ids).problems == [] then None
                     else Some(Invalid(Prepared(decoded, t, ids).problems))
      ensures communicator == old(communicator) && generatedData == old(generatedData)
    {
      config := decoded;
      config := config.(osType := ToLower(config.osType));
      var d := DefaultsFor(config.osType, config.elevatedUser, t);
      FillDefaults(d, ids);
      ApplyDefaultsSetsOsType(decoded, ToLower(decoded.osType), d, ids);
      var problems := Problems();
      err := if problems == [] then None else Some(Invalid(problems));
    }

    /** The "if empty, take the default" statements of Prepare
        (provisioner.go:159-226), each one an OrDefault (or, for the two
        template texts, an OrTemplate) update of its own field. */
    method FillDefaults(d: OsDefaults, ids: PathIds)
      modifies this
      ensures config == ApplyDefaults(old(config), old(config).osType, d, ids)
      ensures communicator == old(communicator) && generatedData == old(generatedData)
    {
      var c := config;
      c := c.(elevatedExecuteCommand := OrDefault(c.elevatedExecuteCommand, d.elevatedExecuteCommand));
      c := c.(executeCommand := OrDefault(c.executeCommand, d.executeCommand));
      if c.inline == Some([]) {
        c := c.(inline := None);
      }
      c := c.(pwshAutoUpdateCommand := OrTemplate(c.pwshAutoUpdateCommand, d.autoUpdateTemplate));
      c := c.(pwshAutoUpdateExecuteCommand := OrDefault(c.pwshAutoUpdateExecuteCommand, d.autoUpdateExecuteCommand));
      c := c.(rebootCompleteCommand := OrDefault(c.rebootCompleteCommand, d.rebootCompleteCommand));
      c := c.(rebootInitiateCommand := OrDefault(c.rebootInitiateCommand, d.rebootInitiateCommand));
      c := c.(rebootPendingCommand := OrTemplate(c.rebootPendingCommand, d.rebootPendingTemplate));
      c := c.(rebootProgressCommand := OrDefault(c.rebootProgressCommand, d.rebootProgressCommand));
      c := c.(rebootValidateCommand := OrDefault(c.rebootValidateCommand, d.rebootValidateCommand));
      c := c.(remoteEnvVarPath :=
        OrDefault(c.remoteEnvVarPath, DefaultRemotePath(d.remoteDirectory, "variables", "ps1", ids.variables)));
      c := c.(remotePath :=
        OrDefault(c.remotePath, DefaultRemotePath(d.remoteDirectory, "script", "ps1", ids.script)));
      c := c.(remotePwshAutoUpdatePath :=
        OrDefault(c.remotePwshAutoUpdatePath,
                  DefaultRemotePath(d.remoteDirectory, "installer", d.autoUpdateExtension, ids.installer)));
      config := c;
    }

    /** The checks at the end of Prepare (provisioner.go:236-244): a password
        needs a user, and exactly one of inline lines and script files. */
    method Problems() returns (problems: seq<Problem>)
      ensures problems == ProblemsOf(config)
    {
      problems := [];
      if config.elevatedPassword != "" && config.elevatedUser == "" {
        problems := problems + [PasswordWithoutUser];
      }
      if config.inline.None? && |config.scripts| == 0 {
        problems := problems + [NoScript];
      } else if config.inline.Some? && 0 < |config.scripts| {
        problems := problems + [InlineAndScripts];
      }
    }

    /** getInlineScriptFilePath (provisioner.go:307-331): no lines, no file;
        otherwise a fresh temporary file holding each line and a line feed. */
    method GetInlineScriptFilePath(fs: LocalFiles, lines: seq<string>) returns (path: string, err: Option<Error>)
      modifies fs
      ensures Staged(path, fs.State(), err) == InlineScript(lines, old(fs.State()))
    {
      if lines == [] {
        return "", None;
      }
      var created;
      path, created := fs.CreateTemp();
      if !created {
        return "", Some(TempFileFailed);
      }
      var buffer := "";
      for i := 0 to |lines|
        invariant buffer == Joined(lines[..i])
        modifies {}
      {
        assert lines[..i + 1] == lines[..i] + [lines[i]];
        JoinedSnoc(lines[..i], lines[i]);
        buffer := buffer + (lines[i] + "\n");
      }
      assert lines[..|lines|] == lines;
      fs.Write(path, buffer);
      err := None;
    }

    /** initializeScriptCollection (provisioner.go:332-346), with its make,
        append and copy. */
    method InitializeScriptCollection(fs: LocalFiles) returns (scripts: seq<string>, err: Option<Error>)
      modifies fs
      ensures Collection(scripts, fs.State(), err)
           == ScriptCollection(InlineLines(config.inline), config.scripts, old(fs.State()))
    {
      var inlinePath;
      inlinePath, err := GetInlineScriptFilePath(fs, InlineLines(config.inline));
      if err.Some? {
        return [], err;
      }
      scripts := seq(|config.scripts|, _ => "");
      if inlinePath != "" {
        scripts := scripts + [inlinePath];
      }
      scripts := CopyInto(scripts, config.scripts);
    }

    /** uploadAndExecuteScript (provisioner.go:422-490). */
    method UploadAndExecuteScript(fs: LocalFiles, orc: Oracles, remotePath: string, scriptPath: string)
      returns (exitCode: int, err: Option<Error>)
      requires communicator != null
      modifies fs, communicator
      ensures Execution(exitCode, EnvOf(fs, communicator), err)
           == UploadAndExecute(config, generatedData, orc, remotePath, scriptPath, old(EnvOf(fs, communicator)))
    {
      ghost var env := EnvOf(fs, communicator);
      exitCode := -1;
      var command := if config.elevatedUser != "" then ElevatedExecuteCommand() else config.executeCommand;
      var rendered := orc.render(command, generatedData);
      if rendered.None? {
        return exitCode, Some(RenderFailed);
      }
      var found, name := fs.Stat(scriptPath);
      if !found {
        return exitCode, Some(StatFailed(scriptPath));
      }
      if remotePath == "" {
        return exitCode, Some(EmptyRemotePath);
      }
      var target := remotePath;
      if IsPathSeparator(target[|target| - 1]) {
        target := target + BaseName(name);
      }
      assert target == ExpandedRemotePath(remotePath, scriptPath);
      var content := fs.ReadAll(scriptPath);
      var failed := communicator.Upload(target, content);
      assert fs.State() == env.disk && communicator.State() == UploadedTo(env.channel, target, content);
      if failed {
        return exitCode, Some(UploadFailed(target));
      }
      var runnable := rendered.value;
      if config.osType == "windows" && config.elevatedUser != "" {
        var elevated := orc.elevate(runnable, ElevatedUser(), ElevatedPassword(orc));
        if elevated.None? {
          return exitCode, Some(ElevationFailed);
        }
        runnable := elevated.value;
      }
      assert Some(runnable) == Runnable(config, generatedData, orc, rendered.value);
      var status;
      failed, status := communicator.Run(runnable);
      if failed {
        return exitCode, Some(CommandFailed);
      }
      exitCode := status;
      fs.Remove(scriptPath);
      err := None;
    }

    /** rebootMachine (provisioner.go:347-406). The validation loop stops when
        the scripted communicator has no answer left. */
    method RebootMachine() returns (err: Option<Error>)
      requires communicator != null
      modifies communicator
      ensures Rebooted(communicator.State(), err) == Reboot(config, old(communicator.State()))
    {
      var failed, exitCode := communicator.Run(config.rebootInitiateCommand);
      if failed {
        return Some(CommandFailed);
      }
      if exitCode != 0 {
        return Some(RebootRefused(exitCode));
      }
      ghost var initiated := communicator.State();
      while true
        invariant Poll(config.rebootProgressCommand, config.rebootCompleteCommand, communicator.State())
               == Poll(config.rebootProgressCommand, config.rebootCompleteCommand, initiated)
        decreases |communicator.responses|
      {
        failed, exitCode := communicator.Run(config.rebootProgressCommand);
        if failed {
          break;
        } else if exitCode == 0 {
          var _, _ := communicator.Run(config.rebootCompleteCommand);
          break;
        } else if exitCode == 1 {
          break;
        }
      }
      ghost var polled := communicator.State();
      while true
        invariant Validate(config.rebootValidateCommand, communicator.State())
               == Validate(config.rebootValidateCommand, polled)
        decreases |communicator.responses|
      {
        if communicator.responses == [] {
          return Some(ResponsesExhausted);
        }
        failed, exitCode := communicator.Run(config.rebootValidateCommand);
        if !failed && exitCode == 0 {
          break;
        }
      }
      err := None;
    }

    /** executeScriptCollection (provisioner.go:271-306). The exit code is
        handed to nothing that could reject it. */
    method ExecuteScriptCollection(fs: LocalFiles, orc: Oracles, scripts: seq<string>) returns (err: Option<Error>)
      requires communicator != null
      modifies this, fs, communicator
      ensures config == old(config) && communicator == old(communicator)
      ensures generatedData == old(generatedData)["Path" := config.remotePath]
      ensures Step(EnvOf(fs, communicator), err)
           == RunScripts(config, generatedData, orc, config.remotePath, scripts, old(EnvOf(fs, communicator)))
    {
      var remotePath := config.remotePath;
      generatedData := generatedData["Path" := remotePath];
      ghost var start := EnvOf(fs, communicator);
      var i := 0;
      while i < |scripts|
        invariant 0 <= i <= |scripts|
        invariant config == old(config) && communicator == old(communicator)
        invariant generatedData == old(generatedData)["Path" := remotePath]
        invariant RunScripts(config, generatedData, orc, remotePath, scripts, start)
               == RunScripts(config, generatedData, orc, remotePath, scripts[i..], EnvOf(fs, communicator))
      {
        ghost var before := EnvOf(fs, communicator);
        assert scripts[i..][0] == scripts[i] && scripts[i..][1..] == scripts[i + 1..];
        var exitCode, e := UploadAndExecuteScript(fs, orc, remotePath, scripts[i]);
        if e.Some? {
          return e;
        }
        if config.rebootIsEnabled {
          ghost var ran := EnvOf(fs, communicator);
          var rebootScriptPath;
          rebootScriptPath, e := GetInlineScriptFilePath(fs, [config.rebootPendingCommand]);
          if e.Some? {
            return e;
          }
          exitCode, e := UploadAndExecuteScript(fs, orc, remotePath, rebootScriptPath);
          if e.Some? {
            return e;
          }
          if exitCode == 1 {
            e := RebootMachine();
            if e.Some? {
              return e;
            }
          }
          assert ScriptStep(config, generatedData, orc, remotePath, scripts[i], before).env == EnvOf(fs, communicator);
        }
        i := i + 1;
      }
      assert scripts[|scripts|..] == [];
      err := None;
    }

    /** updatePwshInstallation (provisioner.go:407-421): the execute command is
        swapped for the auto-update one and restored, failure or not. */
    method UpdatePwshInstallation(fs: LocalFiles, orc: Oracles) returns (err: Option<Error>)
      requires communicator != null
      modifies this, fs, communicator
      ensures config == old(config) && communicator == old(communicator)
      ensures generatedData == old(generatedData)["Path" := config.remotePwshAutoUpdatePath]
      ensures Step(EnvOf(fs, communicator), err) == AutoUpdate(config, old(generatedData), orc, old(EnvOf(fs, communicator)))
    {
      var remotePath := config.remotePwshAutoUpdatePath;
      generatedData := generatedData["Path" := remotePath];
      var updateScriptPath;
      updateScriptPath, err := GetInlineScriptFilePath(fs, [config.pwshAutoUpdateCommand]);
      if err.Some? {
        return err;
      }
      var originalExecuteCommand := config.executeCommand;
      config := config.(executeCommand := config.pwshAutoUpdateExecuteCommand);
      var _, e := UploadAndExecuteScript(fs, orc, remotePath, updateScriptPath);
      config := config.(executeCommand := originalExecuteCommand);
      err := e;
    }

    /** Provision (provisioner.go:253-269). */
    method Provision(comm: Communicator, fs: LocalFiles, orc: Oracles, data: map<string, string>)
      returns (err: Option<Error>)
      modifies this, fs, comm
      ensures config == old(config) && communicator == comm
      ensures Provisioned(generatedData, EnvOf(fs, comm), err) == Orchestration.Provision(config, data, orc, old(EnvOf(fs, comm)))
    {
      communicator := comm;
      generatedData := data;
      if config.pwshAutoUpdateIsEnabled {
        err := UpdatePwshInstallation(fs, orc);
        if err.Some? {
          return err;
        }
      }
      var scriptPaths;
      scriptPaths, err := InitializeScriptCollection(fs);
      if err.Some? {
        return err;
      }
      err := ExecuteScriptCollection(fs, orc, scriptPaths);
    }
  }
}
