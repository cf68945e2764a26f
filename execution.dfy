/** Running one local script on the remote machine: the command selection of
    ElevatedExecuteCommand (provisioner.go:73-75) and uploadAndExecuteScript
    (provisioner.go:422-490), with the remote path expanded by the script's
    base name when it names a directory. */
module Execution {
  import opened Outcomes
  import opened GoText
  import opened Host
  import opened Configuration
  import DefaultCommands

  // ---------------------------------------------------------------------------
  // Command selection

  /** ElevatedExecuteCommand: the plain command substituted into the elevated template. */
  function ElevatedCommand(cfg: Config): string {
    Sprintf(cfg.elevatedExecuteCommand, [cfg.executeCommand])
  }

  /** The command template uploadAndExecuteScript starts from (provisioner.go:427-431). */
  function SelectedCommand(cfg: Config): string {
    if cfg.elevatedUser != "" then ElevatedCommand(cfg) else cfg.executeCommand
  }

  /** With an elevated user and a template holding one %s and no other '%',
      the plain command takes the place of the %s; without one, the plain
      command is used as it is. */
  lemma SelectedCommandOf(cfg: Config, prefix: string, suffix: string)
    requires cfg.elevatedExecuteCommand == prefix + "%s" + suffix
    requires '%' !in prefix && '%' !in suffix
    ensures cfg.elevatedUser != "" ==> SelectedCommand(cfg) == prefix + cfg.executeCommand + suffix
    ensures cfg.elevatedUser == "" ==> SelectedCommand(cfg) == cfg.executeCommand
  {
    SprintfOneVerb(prefix, suffix, cfg.executeCommand);
  }

  /** The Windows default elevated template "%s" leaves the command as it is. */
  lemma WindowsElevatedCommand(cfg: Config)
    requires cfg.elevatedExecuteCommand == "%s"
    ensures ElevatedCommand(cfg) == cfg.executeCommand
  {
    assert "" + "%s" + "" == "%s";
    SprintfOneVerb("", "", cfg.executeCommand);
    assert "" + cfg.executeCommand + "" == cfg.executeCommand;
  }

  /** The Unix default elevated template, built for a user name without '%',
      echoes that name into `sudo -S` as the password and has sudo run the
      plain command under `sh -e -c` as its default target user. */
  lemma UnixElevatedCommand(cfg: Config, user: string)
    requires cfg.elevatedExecuteCommand == Sprintf(DefaultCommands.SudoFormat, [user])
    requires '%' !in user
    ensures ElevatedCommand(cfg) == "echo \"" + user + "\" | sudo -S sh -e -c '" + cfg.executeCommand + "'"
  {
    DefaultElevatedCommandShape(user);
    PlainPieces();
    var prefix := "echo \"" + (user + "\" | sudo -S sh -e -c '");
    assert "echo \"" + (user + ("\" | sudo -S sh -e -c '" + "%s'")) == prefix + "%s" + "'";
    SprintfOneVerb(prefix, "'", cfg.executeCommand);
  }

  // ---------------------------------------------------------------------------
  // Remote path expansion

  /** A remote path ending in a separator names a directory: the base name of
      the local script (filepath.Base of FileInfo.Name()) is appended to it. */
  function ExpandedRemotePath(remotePath: string, scriptPath: string): string
    requires remotePath != ""
  {
    if IsPathSeparator(remotePath[|remotePath| - 1]) then remotePath + BaseName(BaseName(scriptPath))
    else remotePath
  }

  /** The base name is appended exactly when the remote path ends in a separator. */
  lemma ExpandedRemotePathIff(remotePath: string, scriptPath: string)
    requires remotePath != ""
    ensures ExpandedRemotePath(remotePath, scriptPath) == remotePath <==> !EndsWithSeparator(remotePath)
    ensures EndsWithSeparator(remotePath) ==>
      ExpandedRemotePath(remotePath, scriptPath) == remotePath + BaseName(scriptPath)
  {
    BaseNameIdempotent(scriptPath);
    if EndsWithSeparator(remotePath) {
      assert |ExpandedRemotePath(remotePath, scriptPath)| > |remotePath|;
    }
  }

  /** A script uploaded to a directory lands under its own file name. */
  lemma ExpandedIntoDirectory(remoteDirectory: string, localDirectory: string, name: string)
    requires name != [] && forall i :: 0 <= i < |name| ==> !IsPathSeparator(name[i])
    ensures ExpandedRemotePath(remoteDirectory + "/", localDirectory + "/" + name) == remoteDirectory + "/" + name
  {
    BaseNameOfJoin(localDirectory, name);
    ExpandedRemotePathIff(remoteDirectory + "/", localDirectory + "/" + name);
  }

  /** Expanding an expanded path changes nothing more, unless the script's
      base name is itself a separator. */
  lemma ExpandedRemotePathIdempotent(remotePath: string, scriptPath: string)
    requires remotePath != "" && BaseName(scriptPath) != "/"
    ensures ExpandedRemotePath(ExpandedRemotePath(remotePath, scriptPath), scriptPath)
         == ExpandedRemotePath(remotePath, scriptPath)
  {
    BaseNameIdempotent(scriptPath);
    var base := BaseName(scriptPath);
    if EndsWithSeparator(remotePath) {
      var once := remotePath + base;
      assert once[|once| - 1] == base[|base| - 1];
    }
  }

  // ---------------------------------------------------------------------------
  // uploadAndExecuteScript

  /** The elevated password as GenerateElevatedRunner reads it: rendered, or
      empty when rendering fails (provisioner.go:76-80). */
  function RenderedPassword(cfg: Config, data: map<string, string>, orc: Oracles): string {
    var rendered := orc.render(cfg.elevatedPassword, data);
    if rendered.Some? then rendered.value else ""
  }

  /** On Windows with an elevated user the rendered command is wrapped by the
      elevated runner; otherwise it runs as rendered (provisioner.go:457-461). */
  function Runnable(cfg: Config, data: map<string, string>, orc: Oracles, command: string): Option<string> {
    if cfg.osType == "windows" && cfg.elevatedUser != "" then
      orc.elevate(command, cfg.elevatedUser, RenderedPassword(cfg, data, orc))
    else Some(command)
  }

  /** The exit code, the collaborators afterwards, and the error. */
  datatype Execution = Execution(exitCode: int, env: Env, err: Option<Error>)

  /** Render the command, stat the script, expand the remote path, upload the
      script, run the command, and remove the local script. The data map is
      rendered before the path is expanded, so {{.Path}} is the remote path
      as given. */
  function UploadAndExecute(cfg: Config, data: map<string, string>, orc: Oracles,
                            remotePath: string, scriptPath: string, env: Env): (r: Execution)
    ensures r.err.Some? ==> r.exitCode == -1 && r.env.disk == env.disk
    ensures r.err.None? ==>
      && scriptPath in env.disk.files
      && r.env.disk == Disk(env.disk.files - {scriptPath}, env.disk.tempNames)
    ensures r.err.None? ==>
      && remotePath != "" && |env.channel.responses| >= 2
      && !env.channel.responses[0].failed && !env.channel.responses[1].failed
      && r.exitCode == env.channel.responses[1].exitCode
      && r.env.channel.responses == env.channel.responses[2..]
    ensures r.err in {Some(RenderFailed), Some(StatFailed(scriptPath)), Some(EmptyRemotePath)} ==> r.env == env
    ensures |env.channel.log| <= |r.env.channel.log| <= |env.channel.log| + 2
    ensures r.env.channel.log[..|env.channel.log|] == env.channel.log
  {
    var command := orc.render(SelectedCommand(cfg), data);
    if command.None? then Execution(-1, env, Some(RenderFailed))
    else if scriptPath !in env.disk.files then Execution(-1, env, Some(StatFailed(scriptPath)))
    else if remotePath == "" then Execution(-1, env, Some(EmptyRemotePath))
    else
      var target := ExpandedRemotePath(remotePath, scriptPath);
      var uploaded := UploadedTo(env.channel, target, env.disk.files[scriptPath]);
      if Next(env.channel.responses).failed then Execution(-1, env.(channel := uploaded), Some(UploadFailed(target)))
      else
        var runnable := Runnable(cfg, data, orc, command.value);
        if runnable.None? then Execution(-1, env.(channel := uploaded), Some(ElevationFailed))
        else
          var answer := Next(uploaded.responses);
          var ran := Issued(uploaded, runnable.value);
          if answer.failed then Execution(-1, env.(channel := ran), Some(CommandFailed))
          else Execution(answer.exitCode, Env(Disk(env.disk.files - {scriptPath}, env.disk.tempNames), ran), None)
  }

  /** A successful run records exactly one upload of the script's content to
      the expanded path, then the one command, rendered from the data map. */
  lemma UploadAndExecuteTranscript(cfg: Config, data: map<string, string>, orc: Oracles,
                                   remotePath: string, scriptPath: string, env: Env)
    requires UploadAndExecute(cfg, data, orc, remotePath, scriptPath, env).err.None?
    ensures var r := UploadAndExecute(cfg, data, orc, remotePath, scriptPath, env);
      var command := orc.render(SelectedCommand(cfg), data);
      && command.Some? && Runnable(cfg, data, orc, command.value).Some?
      && r.env.channel.log == env.channel.log
           + [Uploaded(ExpandedRemotePath(remotePath, scriptPath), env.disk.files[scriptPath]),
              Ran(Runnable(cfg, data, orc, command.value).value)]
  {
  }

  /** The remote path only decides where the script is uploaded: the command,
      the exit code and the local files do not depend on it. */
  lemma RemotePathOnlyNamesTheUpload(cfg: Config, data: map<string, string>, orc: Oracles,
                                     remotePath: string, otherPath: string, scriptPath: string, env: Env)
    requires remotePath != "" && otherPath != ""
    ensures var r := UploadAndExecute(cfg, data, orc, remotePath, scriptPath, env);
      var o := UploadAndExecute(cfg, data, orc, otherPath, scriptPath, env);
      && r.exitCode == o.exitCode && r.env.disk == o.env.disk
      && r.env.channel.responses == o.env.channel.responses
      && |r.env.channel.log| == |o.env.channel.log|
      && (r.err.None? <==> o.err.None?)
      && (r.err.None? ==> r.env.channel.log[|env.channel.log| + 1] == o.env.channel.log[|env.channel.log| + 1])
  {
  }

  /** A local script is gone after it ran successfully, whoever supplied it:
      running the same path a second time fails when stat'ing it. */
  lemma SecondRunOfSameScriptFails(cfg: Config, data: map<string, string>, orc: Oracles,
                                   remotePath: string, scriptPath: string, env: Env)
    requires UploadAndExecute(cfg, data, orc, remotePath, scriptPath, env).err.None?
    requires orc.render(SelectedCommand(cfg), data).Some?
    ensures var once := UploadAndExecute(cfg, data, orc, remotePath, scriptPath, env);
      UploadAndExecute(cfg, data, orc, remotePath, scriptPath, once.env).err == Some(StatFailed(scriptPath))
  {
  }
}
