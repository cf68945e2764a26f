/** The provisioning run: the optional PowerShell auto-update
    (updatePwshInstallation, provisioner.go:407-421), then the scripts in
    order, each followed by the optional pending-reboot check
    (executeScriptCollection, provisioner.go:271-306), all driven by
    Provision (provisioner.go:253-269). */
module Orchestration {
  import opened Outcomes
  import opened GoText
  import opened Host
  import opened Configuration
  import opened Staging
  import opened Execution
  import opened Rebooting

  /** The collaborators after a part of the run, and its error. */
  datatype Step = Step(env: Env, err: Option<Error>)

  // ---------------------------------------------------------------------------
  // One script and the pending-reboot check after it

  /** Stage the pending-reboot command as a one-line script and run it from
      the same remote path; exit code 1 means a reboot is pending, and only
      then is the machine rebooted (provisioner.go:289-298). */
  function PendingRebootCheck(cfg: Config, data: map<string, string>, orc: Oracles,
                              remotePath: string, env: Env): (r: Step)
    ensures |r.env.channel.log| >= |env.channel.log| && r.env.channel.log[..|env.channel.log|] == env.channel.log
  {
    var staged := InlineScript([cfg.rebootPendingCommand], env.disk);
    if staged.err.Some? then Step(Env(staged.disk, env.channel), staged.err)
    else
      var check := UploadAndExecute(cfg, data, orc, remotePath, staged.path, Env(staged.disk, env.channel));
      if check.err.Some? then Step(check.env, check.err)
      else if check.exitCode == 1 then
        var rebooted := Reboot(cfg, check.env.channel);
        Step(Env(check.env.disk, rebooted.channel), rebooted.err)
      else Step(check.env, None)
  }

  /** Upload and run one script; its exit code is never checked (the result of
      ValidExitCode is discarded at provisioner.go:283), and with reboots
      enabled the pending-reboot check follows. */
  function ScriptStep(cfg: Config, data: map<string, string>, orc: Oracles,
                      remotePath: string, script: string, env: Env): (r: Step)
    ensures |r.env.channel.log| >= |env.channel.log| && r.env.channel.log[..|env.channel.log|] == env.channel.log
  {
    var ran := UploadAndExecute(cfg, data, orc, remotePath, script, env);
    if ran.err.Some? then Step(ran.env, ran.err)
    else if !cfg.rebootIsEnabled then Step(ran.env, None)
    else
      var checked := PendingRebootCheck(cfg, data, orc, remotePath, ran.env);
      assert checked.env.channel.log[..|env.channel.log|] == ran.env.channel.log[..|env.channel.log|];
      checked
  }

  /** Whatever exit code a script ends with, a step without reboots fails only
      when uploading or running the script fails. */
  lemma NoExitCodeRejected(cfg: Config, data: map<string, string>, orc: Oracles,
                           remotePath: string, script: string, env: Env)
    requires !cfg.rebootIsEnabled
    ensures var ran := UploadAndExecute(cfg, data, orc, remotePath, script, env);
      ScriptStep(cfg, data, orc, remotePath, script, env) == Step(ran.env, ran.err)
  {
  }

  /** The pending-reboot check reboots only when it exits 1: with any other
      exit code it adds just its own upload and command to the log. */
  lemma RebootOnlyOnExitOne(cfg: Config, data: map<string, string>, orc: Oracles,
                            remotePath: string, env: Env)
    requires InlineScript([cfg.rebootPendingCommand], env.disk).err.None?
    ensures var staged := InlineScript([cfg.rebootPendingCommand], env.disk);
      var check := UploadAndExecute(cfg, data, orc, remotePath, staged.path, Env(staged.disk, env.channel));
      var r := PendingRebootCheck(cfg, data, orc, remotePath, env);
      && (check.err.None? && check.exitCode != 1 ==>
            r.err.None? && |r.env.channel.log| == |env.channel.log| + 2)
      && (check.err.None? && check.exitCode == 1 ==>
            r.err == Reboot(cfg, check.env.channel).err
            && r.env.channel.log[|env.channel.log| + 2] == Ran(cfg.rebootInitiateCommand))
  {
  }

  // ---------------------------------------------------------------------------
  // executeScriptCollection

  /** The scripts in order; the first error ends the run. */
  function RunScripts(cfg: Config, data: map<string, string>, orc: Oracles,
                      remotePath: string, scripts: seq<string>, env: Env): (r: Step)
    ensures |r.env.channel.log| >= |env.channel.log| && r.env.channel.log[..|env.channel.log|] == env.channel.log
    decreases |scripts|
  {
    if scripts == [] then Step(env, None)
    else
      var first := ScriptStep(cfg, data, orc, remotePath, scripts[0], env);
      if first.err.Some? then first
      else
        var rest := RunScripts(cfg, data, orc, remotePath, scripts[1..], first.env);
        assert rest.env.channel.log[..|env.channel.log|] == first.env.channel.log[..|env.channel.log|];
        rest
  }

  /** Running two lists is running the first, then, unless it failed, the second. */
  lemma {:induction false} RunScriptsAppend(cfg: Config, data: map<string, string>, orc: Oracles,
                                            remotePath: string, first: seq<string>, second: seq<string>, env: Env)
    ensures var a := RunScripts(cfg, data, orc, remotePath, first, env);
      RunScripts(cfg, data, orc, remotePath, first + second, env)
      == if a.err.Some? then a else RunScripts(cfg, data, orc, remotePath, second, a.env)
    decreases |first|
  {
    if first == [] {
      assert first + second == second;
    } else {
      assert (first + second)[0] == first[0];
      assert (first + second)[1..] == first[1..] + second;
      var step := ScriptStep(cfg, data, orc, remotePath, first[0], env);
      if step.err.None? {
        RunScriptsAppend(cfg, data, orc, remotePath, first[1..], second, step.env);
      }
    }
  }

  /** The upload and the command of each script, in list order. */
  function Transcript(remotePath: string, scripts: seq<string>, files: map<string, string>, command: string): seq<Event>
    requires remotePath != ""
    requires forall i :: 0 <= i < |scripts| ==> scripts[i] in files
    decreases |scripts|
  {
    if scripts == [] then []
    else [Uploaded(ExpandedRemotePath(remotePath, scripts[0]), files[scripts[0]]), Ran(command)]
         + Transcript(remotePath, scripts[1..], files, command)
  }

  /** Without reboots, a script whose upload and command go through is
      uploaded, run and deleted, whatever its exit code. */
  lemma ScriptStepTranscript(cfg: Config, data: map<string, string>, orc: Oracles,
                             remotePath: string, script: string, env: Env, command: string)
    requires !cfg.rebootIsEnabled && remotePath != ""
    requires orc.render(SelectedCommand(cfg), data).Some?
    requires Runnable(cfg, data, orc, orc.render(SelectedCommand(cfg), data).value) == Some(command)
    requires script in env.disk.files
    requires |env.channel.responses| >= 2 && !env.channel.responses[0].failed && !env.channel.responses[1].failed
    ensures ScriptStep(cfg, data, orc, remotePath, script, env)
         == Step(Env(Disk(env.disk.files - {script}, env.disk.tempNames),
                     Channel(env.channel.responses[2..],
                             env.channel.log + [Uploaded(ExpandedRemotePath(remotePath, script), env.disk.files[script]),
                                                Ran(command)])),
                 None)
  {
    assert env.channel.responses[1..][1..] == env.channel.responses[2..];
  }

  /** Without reboots, when every upload and command goes through, each of a
      list of distinct local scripts is uploaded and run once, in order,
      whatever its exit code, and each is deleted afterwards. */
  lemma {:induction false} RunScriptsTranscript(cfg: Config, data: map<string, string>, orc: Oracles,
                                                remotePath: string, scripts: seq<string>, env: Env, command: string)
    requires !cfg.rebootIsEnabled && remotePath != ""
    requires orc.render(SelectedCommand(cfg), data).Some?
    requires Runnable(cfg, data, orc, orc.render(SelectedCommand(cfg), data).value) == Some(command)
    requires forall i :: 0 <= i < |scripts| ==> scripts[i] in env.disk.files
    requires forall i, j :: 0 <= i < j < |scripts| ==> scripts[i] != scripts[j]
    requires |env.channel.responses| >= 2 * |scripts|
    requires forall i :: 0 <= i < 2 * |scripts| ==> !env.channel.responses[i].failed
    ensures var r := RunScripts(cfg, data, orc, remotePath, scripts, env);
      && r.err.None?
      && r.env.channel == Channel(env.channel.responses[2 * |scripts|..],
                                  env.channel.log + Transcript(remotePath, scripts, env.disk.files, command))
      && r.env.disk == Disk(env.disk.files - (set s | s in scripts), env.disk.tempNames)
    decreases |scripts|
  {
    if scripts == [] {
      assert env.channel.log + [] == env.channel.log;
      assert env.disk.files - (set s | s in scripts) == env.disk.files;
    } else {
      var s := scripts[0];
      var rest := scripts[1..];
      ScriptStepTranscript(cfg, data, orc, remotePath, s, env, command);
      var step := ScriptStep(cfg, data, orc, remotePath, s, env);
      RestPremises(scripts, env.disk.files, env.channel.responses);
      RunScriptsTranscript(cfg, data, orc, remotePath, rest, step.env, command);
      assert RunScripts(cfg, data, orc, remotePath, scripts, env) == RunScripts(cfg, data, orc, remotePath, rest, step.env);
      assert env.channel.responses[2..][2 * |rest|..] == env.channel.responses[2 * |scripts|..];
      TranscriptOfFewerFiles(remotePath, rest, env.disk.files, s, command);
      var head := [Uploaded(ExpandedRemotePath(remotePath, s), env.disk.files[s]), Ran(command)];
      var tail := Transcript(remotePath, rest, env.disk.files, command);
      assert Transcript(remotePath, scripts, env.disk.files, command) == head + tail;
      AppendAssociates(env.channel.log, head, tail);
      RemoveEach(env.disk.files, scripts);
    }
  }

  /** What the premises of RunScriptsTranscript leave for the scripts after
      the first: still on disk once the first is deleted, still distinct, and
      answered without failure by the responses after the first two. */
  lemma RestPremises(scripts: seq<string>, files: map<string, string>, responses: seq<Response>)
    requires scripts != []
    requires forall i :: 0 <= i < |scripts| ==> scripts[i] in files
    requires forall i, j :: 0 <= i < j < |scripts| ==> scripts[i] != scripts[j]
    requires |responses| >= 2 * |scripts|
    requires forall i :: 0 <= i < 2 * |scripts| ==> !responses[i].failed
    ensures forall i :: 0 <= i < |scripts[1..]| ==> scripts[1..][i] in files - {scripts[0]}
    ensures forall i, j :: 0 <= i < j < |scripts[1..]| ==> scripts[1..][i] != scripts[1..][j]
    ensures |responses[2..]| >= 2 * |scripts[1..]|
    ensures forall i :: 0 <= i < 2 * |scripts[1..]| ==> !responses[2..][i].failed
  {
    forall i | 0 <= i < |scripts[1..]| ensures scripts[1..][i] in files - {scripts[0]} {
      assert scripts[1..][i] == scripts[i + 1];
    }
    forall i | 0 <= i < 2 * |scripts[1..]| ensures !responses[2..][i].failed {
      assert responses[2..][i] == responses[i + 2];
    }
  }

  /** Regrouping a concatenation; stated on its own so that the transcript
      proof above stays within the solver's budget. */
  lemma AppendAssociates(a: seq<Event>, b: seq<Event>, c: seq<Event>)
    ensures a + b + c == a + (b + c)
  {
  }

  /** Removing the first script, then the others, removes them all. */
  lemma RemoveEach(files: map<string, string>, scripts: seq<string>)
    requires scripts != []
    ensures (files - {scripts[0]}) - (set x | x in scripts[1..]) == files - (set x | x in scripts)
  {
    assert (set x | x in scripts) == {scripts[0]} + (set x | x in scripts[1..]);
  }

  /** Removing a file the scripts do not name leaves their transcript alone. */
  lemma {:induction false} TranscriptOfFewerFiles(remotePath: string, scripts: seq<string>, files: map<string, string>,
                                                  gone: string, command: string)
    requires remotePath != ""
    requires forall i :: 0 <= i < |scripts| ==> scripts[i] in files - {gone}
    ensures Transcript(remotePath, scripts, files - {gone}, command) == Transcript(remotePath, scripts, files, command)
    decreases |scripts|
  {
    if scripts != [] {
      TranscriptOfFewerFiles(remotePath, scripts[1..], files, gone, command);
    }
  }

  /** A script named twice fails the second time, since the first run deleted it. */
  lemma DuplicateScriptFails(cfg: Config, data: map<string, string>, orc: Oracles,
                             remotePath: string, script: string, env: Env)
    requires !cfg.rebootIsEnabled
    requires orc.render(SelectedCommand(cfg), data).Some?
    requires UploadAndExecute(cfg, data, orc, remotePath, script, env).err.None?
    ensures RunScripts(cfg, data, orc, remotePath, [script, script], env).err == Some(StatFailed(script))
  {
    var once := UploadAndExecute(cfg, data, orc, remotePath, script, env);
    SecondRunOfSameScriptFails(cfg, data, orc, remotePath, script, env);
    assert [script, script][1..] == [script];
  }

  // ---------------------------------------------------------------------------
  // updatePwshInstallation and Provision

  /** Stage the auto-update command as a one-line script and run it to the
      auto-update remote path with the auto-update execute command in place of
      the execute command. The data map's Path is that remote path. */
  function AutoUpdate(cfg: Config, data: map<string, string>, orc: Oracles, env: Env): (r: Step)
    ensures r.err.None? ==>
      |r.env.channel.log| == |env.channel.log| + 2
      && r.env.channel.log[|env.channel.log|].Uploaded?
      && r.env.channel.log[|env.channel.log|].content == cfg.pwshAutoUpdateCommand + "\n"
  {
    var staged := InlineScript([cfg.pwshAutoUpdateCommand], env.disk);
    if staged.err.Some? then Step(Env(staged.disk, env.channel), staged.err)
    else
      SingleLineScript(cfg.pwshAutoUpdateCommand, env.disk);
      var ran := UploadAndExecute(cfg.(executeCommand := cfg.pwshAutoUpdateExecuteCommand),
                                  data["Path" := cfg.remotePwshAutoUpdatePath], orc,
                                  cfg.remotePwshAutoUpdatePath, staged.path, Env(staged.disk, env.channel));
      Step(ran.env, ran.err)
  }

  /** A successful auto-update uploads the staged one-line script to the
      installer's remote path, expanded as for any script, then runs the
      auto-update execute command. That command is chosen and elevated as for
      any script, and rendered with Path set to the installer's remote path.
      The staged local file is gone again afterwards. */
  lemma AutoUpdateTranscript(cfg: Config, data: map<string, string>, orc: Oracles, env: Env)
    requires AutoUpdate(cfg, data, orc, env).err.None?
    ensures cfg.remotePwshAutoUpdatePath != ""
    ensures var r := AutoUpdate(cfg, data, orc, env);
      var staged := InlineScript([cfg.pwshAutoUpdateCommand], env.disk);
      var updater := cfg.(executeCommand := cfg.pwshAutoUpdateExecuteCommand);
      var data' := data["Path" := cfg.remotePwshAutoUpdatePath];
      var command := orc.render(SelectedCommand(updater), data');
      && staged.err.None? && staged.path !in env.disk.files
      && command.Some? && Runnable(updater, data', orc, command.value).Some?
      && r.env.channel.log == env.channel.log
           + [Uploaded(ExpandedRemotePath(cfg.remotePwshAutoUpdatePath, staged.path), cfg.pwshAutoUpdateCommand + "\n"),
              Ran(Runnable(updater, data', orc, command.value).value)]
      && r.env.disk.files == env.disk.files
  {
    var staged := InlineScript([cfg.pwshAutoUpdateCommand], env.disk);
    var updater := cfg.(executeCommand := cfg.pwshAutoUpdateExecuteCommand);
    var data' := data["Path" := cfg.remotePwshAutoUpdatePath];
    SingleLineScript(cfg.pwshAutoUpdateCommand, env.disk);
    UploadAndExecuteTranscript(updater, data', orc, cfg.remotePwshAutoUpdatePath, staged.path, Env(staged.disk, env.channel));
    assert staged.disk.files - {staged.path} == env.disk.files;
  }

  /** The generated data left behind, the collaborators, and the error. */
  datatype Provisioned = Provisioned(data: map<string, string>, env: Env, err: Option<Error>)

  /** Auto-update when enabled, then stage and run the scripts. */
  function Provision(cfg: Config, data: map<string, string>, orc: Oracles, env: Env): (r: Provisioned)
    ensures cfg.pwshAutoUpdateIsEnabled && AutoUpdate(cfg, data, orc, env).err.Some? ==>
      && r.err == AutoUpdate(cfg, data, orc, env).err
      && r.env == AutoUpdate(cfg, data, orc, env).env
      && r.data == data["Path" := cfg.remotePwshAutoUpdatePath]
    ensures r.err.None? ==> r.data == data["Path" := cfg.remotePath]
  {
    var updated := if cfg.pwshAutoUpdateIsEnabled then AutoUpdate(cfg, data, orc, env) else Step(env, None);
    var data' := if cfg.pwshAutoUpdateIsEnabled then data["Path" := cfg.remotePwshAutoUpdatePath] else data;
    if updated.err.Some? then Provisioned(data', updated.env, updated.err)
    else
      var collection := ScriptCollection(InlineLines(cfg.inline), cfg.scripts, updated.env.disk);
      if collection.err.Some? then Provisioned(data', Env(collection.disk, updated.env.channel), collection.err)
      else
        var data'' := data'["Path" := cfg.remotePath];
        var run := RunScripts(cfg, data'', orc, cfg.remotePath, collection.scripts,
                              Env(collection.disk, updated.env.channel));
        Provisioned(data'', run.env, run.err)
  }

  /** Without the auto-update, provisioning starts with the scripts themselves:
      nothing is uploaded to the auto-update remote path first. */
  lemma ProvisionWithoutAutoUpdate(cfg: Config, data: map<string, string>, orc: Oracles, env: Env)
    requires !cfg.pwshAutoUpdateIsEnabled
    ensures var collection := ScriptCollection(InlineLines(cfg.inline), cfg.scripts, env.disk);
      var r := Provision(cfg, data, orc, env);
      && (collection.err.Some? ==> r == Provisioned(data, Env(collection.disk, env.channel), collection.err))
      && (collection.err.None? ==>
            var run := RunScripts(cfg, data["Path" := cfg.remotePath], orc, cfg.remotePath, collection.scripts,
                                  Env(collection.disk, env.channel));
            r == Provisioned(data["Path" := cfg.remotePath], run.env, run.err))
  {
  }

  /** After a successful auto-update, provisioning stages and runs the scripts
      from the collaborators the auto-update left behind. Path ends up at the
      scripts' remote path, and the installer's path is overwritten. */
  lemma ProvisionAfterAutoUpdate(cfg: Config, data: map<string, string>, orc: Oracles, env: Env)
    requires cfg.pwshAutoUpdateIsEnabled
    requires AutoUpdate(cfg, data, orc, env).err.None?
    ensures var updated := AutoUpdate(cfg, data, orc, env).env;
      var collection := ScriptCollection(InlineLines(cfg.inline), cfg.scripts, updated.disk);
      var r := Provision(cfg, data, orc, env);
      && (collection.err.Some? ==>
            r == Provisioned(data["Path" := cfg.remotePwshAutoUpdatePath], Env(collection.disk, updated.channel), collection.err))
      && (collection.err.None? ==>
            var run := RunScripts(cfg, data["Path" := cfg.remotePath], orc, cfg.remotePath, collection.scripts,
                                  Env(collection.disk, updated.channel));
            r == Provisioned(data["Path" := cfg.remotePath], run.env, run.err))
  {
    assert data["Path" := cfg.remotePwshAutoUpdatePath]["Path" := cfg.remotePath] == data["Path" := cfg.remotePath];
  }
}
