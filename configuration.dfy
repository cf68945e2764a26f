/** The default command strings of provisioner.go:109-121 and 138-150,
    carried as opaque text. */
module DefaultCommands {
  const SudoFormat := @"echo ""%s"" | sudo -S sh -e -c '%%s'"
  const PreferencePrologue :=
    "if (Test-Path variable:global:ErrorActionPreference) { Set-Variable -Name variable:global:ErrorActionPreference -Value ([Management.Automation.ActionPreference]::Stop); } "
    + "if (Test-Path variable:global:ProgressPreference) { Set-Variable -Name variable:global:ProgressPreference -Value ([Management.Automation.ActionPreference]::SilentlyContinue); } "
  const UnixExecuteCommand :=
    @"chmod +x {{.Path}} && pwsh -ExecutionPolicy ""Bypass"" -NoLogo -NonInteractive -NoProfile -Command """
    + PreferencePrologue + @"&'{{.Path}}'; exit $LastExitCode;"""
  const WindowsExecuteCommand :=
    @"FOR /F ""tokens=* USEBACKQ"" %F IN (`where pwsh /R ""%PROGRAMFILES%\PowerShell"" ^2^>nul ^|^| where powershell`) DO (""%F"" -ExecutionPolicy ""Bypass"" -NoLogo -NonInteractive -NoProfile -Command """
    + PreferencePrologue + @"&'{{.Path}}'; exit $LastExitCode;"")"
  const UnixAutoUpdateExecuteCommand := "chmod +x {{.Path}} && {{.Path}}"
  const ValidateCommand := @"pwsh -ExecutionPolicy ""Bypass"" -NoLogo -NonInteractive -NoProfile -Command ""exit 0;"""
  const WindowsRebootComplete := "shutdown /a"
  const WindowsRebootInitiate := @"shutdown /r /f /t 0 /c ""packer reboot"""
  const WindowsRebootProgress := @"shutdown /r /f /t 60 /c ""packer reboot test"""
  const RemotePathFormat := "%s/packer-pwsh-%s-%%s.%s"
}

/** The provisioner's configuration (provisioner.go:40-62) and what Prepare
    does to it once decoded (provisioner.go:103-250): lower-case the OS type,
    fill every empty field with the default of that OS, and validate. */
module Configuration {
  import opened Outcomes
  import opened GoText
  import opened DefaultCommands

  /** The fields of Config that Prepare or the provisioning run reads. A nil
      Inline is None; the nil and empty Scripts slices are both []. The
      accepted exit codes are carried but never read: the result of
      ValidExitCode is discarded (provisioner.go:283). RemoteEnvVarPath is
      only defaulted; the environment-variable upload is not part of this
      model. */
  datatype Config = Config(
    inline: Option<seq<string>>,
    scripts: seq<string>,
    validExitCodes: seq<int>,
    executeCommand: string,
    remotePath: string,
    elevatedExecuteCommand: string,
    elevatedPassword: string,
    elevatedUser: string,
    osType: string,
    pwshAutoUpdateCommand: string,
    pwshAutoUpdateExecuteCommand: string,
    pwshAutoUpdateIsEnabled: bool,
    rebootCompleteCommand: string,
    rebootInitiateCommand: string,
    rebootIsEnabled: bool,
    rebootPendingCommand: string,
    rebootProgressCommand: string,
    rebootValidateCommand: string,
    remoteEnvVarPath: string,
    remotePwshAutoUpdatePath: string)

  /** The inline lines; a nil slice has none. */
  function InlineLines(inline: Option<seq<string>>): seq<string> {
    if inline.None? then [] else inline.value
  }

  /** The text each embedded template renders to (its execution error is
      never observed, see provisioner.go:179 and 201). */
  datatype Templates = Templates(
    debianAutoUpdate: string,
    ubuntuAutoUpdate: string,
    windowsAutoUpdate: string,
    windowsRebootPending: string)

  /** The time-ordered unique identifiers uuid.TimeOrderedUUID hands out. */
  datatype PathIds = PathIds(variables: string, script: string, installer: string)

  /** The defaults one OS type selects (provisioner.go:103-158). */
  datatype OsDefaults = OsDefaults(
    elevatedExecuteCommand: string,
    executeCommand: string,
    autoUpdateExecuteCommand: string,
    autoUpdateExtension: string,
    autoUpdateTemplate: Option<string>,
    rebootCompleteCommand: string,
    rebootInitiateCommand: string,
    rebootPendingTemplate: Option<string>,
    rebootProgressCommand: string,
    rebootValidateCommand: string,
    remoteDirectory: string)

  /** The switch on the (already lower-cased) OS type. */
  function DefaultsFor(osType: string, elevatedUser: string, t: Templates): OsDefaults {
    var user := if elevatedUser == "" then "packer" else elevatedUser;
    var unix := OsDefaults(
      Sprintf(SudoFormat, [user]), UnixExecuteCommand, UnixAutoUpdateExecuteCommand, "sh", None,
      "", "", None, "", ValidateCommand, "/tmp");
    if osType == "debian" then unix.(autoUpdateTemplate := Some(t.debianAutoUpdate))
    else if osType == "ubuntu" then unix.(autoUpdateTemplate := Some(t.ubuntuAutoUpdate))
    else if osType == "windows" then
      unix.(elevatedExecuteCommand := "%s",
            executeCommand := WindowsExecuteCommand,
            autoUpdateExecuteCommand := WindowsExecuteCommand,
            autoUpdateExtension := "ps1",
            autoUpdateTemplate := Some(t.windowsAutoUpdate),
            rebootCompleteCommand := WindowsRebootComplete,
            rebootInitiateCommand := WindowsRebootInitiate,
            rebootPendingTemplate := Some(t.windowsRebootPending),
            rebootProgressCommand := WindowsRebootProgress,
            remoteDirectory := "C:/Windows/Temp")
    else unix
  }

  /** The formatRemotePath closure followed by the Sprintf with a fresh identifier. */
  function DefaultRemotePath(directory: string, role: string, extension: string, id: string): string {
    Sprintf(Sprintf(RemotePathFormat, [directory, role, extension]), [id])
  }

  /** A field replaced by its default only when it was empty. */
  function OrDefault(given: string, default: string): string {
    if given == "" then default else given
  }

  /** A field filled from a template's normalised text only when it was empty
      and the OS has that template. */
  function OrTemplate(given: string, template: Option<string>): string {
    if given == "" && template.Some? then NormalizeNewlines(template.value) else given
  }

  predicate Defaulted(given: string, result: string, default: string) {
    (given != "" ==> result == given) && (given == "" ==> result == default)
  }

  /** A command backed by a template keeps a non-empty given value; an empty
      one takes the template's normalised text, or stays empty when the OS has
      no template. */
  predicate TemplateFilled(given: string, result: string, template: Option<string>) {
    && (given != "" ==> result == given)
    && (given == "" && template.Some? ==> result == NormalizeNewlines(template.value))
    && (given == "" && template.None? ==> result == "")
  }

  datatype Preparation = Preparation(config: Config, problems: seq<Problem>)

  /** The configuration with the OS type lower-cased to `os`, every empty
      field given its default from `d`, and an empty inline list made nil. */
  function ApplyDefaults(c: Config, os: string, d: OsDefaults, ids: PathIds): (r: Config)
    ensures r.osType == os
    ensures Defaulted(c.elevatedExecuteCommand, r.elevatedExecuteCommand, d.elevatedExecuteCommand)
    ensures Defaulted(c.executeCommand, r.executeCommand, d.executeCommand)
    ensures Defaulted(c.pwshAutoUpdateExecuteCommand, r.pwshAutoUpdateExecuteCommand, d.autoUpdateExecuteCommand)
    ensures Defaulted(c.rebootCompleteCommand, r.rebootCompleteCommand, d.rebootCompleteCommand)
    ensures Defaulted(c.rebootInitiateCommand, r.rebootInitiateCommand, d.rebootInitiateCommand)
    ensures Defaulted(c.rebootProgressCommand, r.rebootProgressCommand, d.rebootProgressCommand)
    ensures Defaulted(c.rebootValidateCommand, r.rebootValidateCommand, d.rebootValidateCommand)
    ensures Defaulted(c.remoteEnvVarPath, r.remoteEnvVarPath, DefaultRemotePath(d.remoteDirectory, "variables", "ps1", ids.variables))
    ensures Defaulted(c.remotePath, r.remotePath, DefaultRemotePath(d.remoteDirectory, "script", "ps1", ids.script))
    ensures Defaulted(c.remotePwshAutoUpdatePath, r.remotePwshAutoUpdatePath,
                      DefaultRemotePath(d.remoteDirectory, "installer", d.autoUpdateExtension, ids.installer))
    ensures TemplateFilled(c.pwshAutoUpdateCommand, r.pwshAutoUpdateCommand, d.autoUpdateTemplate)
    ensures TemplateFilled(c.rebootPendingCommand, r.rebootPendingCommand, d.rebootPendingTemplate)
    ensures InlineLines(r.inline) == InlineLines(c.inline)
    ensures r.inline.Some? <==> InlineLines(c.inline) != []
    ensures r.scripts == c.scripts && r.validExitCodes == c.validExitCodes
    ensures r.elevatedUser == c.elevatedUser && r.elevatedPassword == c.elevatedPassword
    ensures r.pwshAutoUpdateIsEnabled == c.pwshAutoUpdateIsEnabled && r.rebootIsEnabled == c.rebootIsEnabled
  {
    c.(
      osType := os,
      elevatedExecuteCommand := OrDefault(c.elevatedExecuteCommand, d.elevatedExecuteCommand),
      executeCommand := OrDefault(c.executeCommand, d.executeCommand),
      inline := if c.inline == Some([]) then None else c.inline,
      pwshAutoUpdateCommand := OrTemplate(c.pwshAutoUpdateCommand, d.autoUpdateTemplate),
      pwshAutoUpdateExecuteCommand := OrDefault(c.pwshAutoUpdateExecuteCommand, d.autoUpdateExecuteCommand),
      rebootCompleteCommand := OrDefault(c.rebootCompleteCommand, d.rebootCompleteCommand),
      rebootInitiateCommand := OrDefault(c.rebootInitiateCommand, d.rebootInitiateCommand),
      rebootPendingCommand := OrTemplate(c.rebootPendingCommand, d.rebootPendingTemplate),
      rebootProgressCommand := OrDefault(c.rebootProgressCommand, d.rebootProgressCommand),
      rebootValidateCommand := OrDefault(c.rebootValidateCommand, d.rebootValidateCommand),
      remoteEnvVarPath := OrDefault(c.remoteEnvVarPath, DefaultRemotePath(d.remoteDirectory, "variables", "ps1", ids.variables)),
      remotePath := OrDefault(c.remotePath, DefaultRemotePath(d.remoteDirectory, "script", "ps1", ids.script)),
      remotePwshAutoUpdatePath := OrDefault(c.remotePwshAutoUpdatePath,
                                            DefaultRemotePath(d.remoteDirectory, "installer", d.autoUpdateExtension, ids.installer)))
  }

  /** Lower-casing the OS type before filling in defaults changes nothing
      further: the filling sets the OS type itself. */
  lemma ApplyDefaultsSetsOsType(c: Config, os: string, d: OsDefaults, ids: PathIds)
    ensures ApplyDefaults(c.(osType := os), os, d, ids) == ApplyDefaults(c, os, d, ids)
  {
  }

  /** The validation at provisioner.go:236-244, on the defaulted configuration. */
  function ProblemsOf(c: Config): (problems: seq<Problem>)
    ensures (PasswordWithoutUser in problems) <==> c.elevatedPassword != "" && c.elevatedUser == ""
    ensures (NoScript in problems) <==> c.inline.None? && c.scripts == []
    ensures (InlineAndScripts in problems) <==> c.inline.Some? && c.scripts != []
    ensures problems == [] <==> !(c.elevatedPassword != "" && c.elevatedUser == "") && (c.inline.None? != (c.scripts == []))
  {
    var passwordProblems := if c.elevatedPassword != "" && c.elevatedUser == "" then [PasswordWithoutUser] else [];
    var sourceProblems :=
      if c.inline.None? && |c.scripts| == 0 then [NoScript]
      else if c.inline.Some? && 0 < |c.scripts| then [InlineAndScripts]
      else [];
    passwordProblems + sourceProblems
  }

  /** What Prepare leaves in p.config, and the errors it accumulates. An empty
      inline list counts as none, so exactly one of inline lines and script
      files must be given, and a password needs a user. */
  function Prepared(c: Config, t: Templates, ids: PathIds): (r: Preparation)
    ensures r.config == ApplyDefaults(c, ToLower(c.osType), DefaultsFor(ToLower(c.osType), c.elevatedUser, t), ids)
    ensures (PasswordWithoutUser in r.problems) <==> c.elevatedPassword != "" && c.elevatedUser == ""
    ensures (NoScript in r.problems) <==> InlineLines(c.inline) == [] && c.scripts == []
    ensures (InlineAndScripts in r.problems) <==> InlineLines(c.inline) != [] && c.scripts != []
    ensures r.problems == [] <==>
      !(c.elevatedPassword != "" && c.elevatedUser == "") && ((InlineLines(c.inline) == []) != (c.scripts == []))
  {
    var os := ToLower(c.osType);
    var config := ApplyDefaults(c, os, DefaultsFor(os, c.elevatedUser, t), ids);
    Preparation(config, ProblemsOf(config))
  }

  // ---------------------------------------------------------------------------
  // Properties of the defaults

  /** The literal pieces of the default formats and paths hold no verb. */
  lemma PlainPieces()
    ensures '%' !in "echo \"" && '%' !in "\" | sudo -S sh -e -c '" && '%' !in "s'"
    ensures '%' !in "/packer-pwsh-" && '%' !in "-" && '%' !in "s" && '%' !in "."
  {
  }

  lemma PlainPathParts()
    ensures '%' !in "script" && '%' !in "variables" && '%' !in "installer"
    ensures '%' !in "ps1" && '%' !in "sh" && '%' !in "C:/Windows/Temp" && '%' !in "/tmp"
  {
  }

  lemma SudoFormatPieces()
    ensures SudoFormat == "echo \"" + ("%s" + ("\" | sudo -S sh -e -c '" + ("%%" + "s'")))
  {
  }

  /** The default elevated command echoes the user name into `sudo -S`, which
      reads it as the password, and keeps one %s for the plain command that
      sudo runs under `sh -e -c` as its default target user
      (provisioner.go:109). */
  lemma DefaultElevatedCommandShape(user: string)
    ensures Sprintf(SudoFormat, [user]) == "echo \"" + (user + ("\" | sudo -S sh -e -c '" + "%s'"))
  {
    PlainPieces();
    var args := [user];
    var middle := "\" | sudo -S sh -e -c '";
    var x3 := "%%" + "s'";
    var x2 := middle + x3;
    var x1 := "%s" + x2;
    SudoFormatPieces();
    assert Scan(x3, args, 1) == ("%s'", 1) by {
      ScanLiteral("s'", "", args, 1);
      assert "s'" + "" == "s'";
      ScanEscapedPercent("s'", args, 1);
      assert "%" + "s'" == "%s'";
    }
    assert Scan(x2, args, 1) == (middle + "%s'", 1) by { ScanLiteral(middle, x3, args, 1); }
    assert Scan(x1, args, 0) == (user + (middle + "%s'"), 1) by { ScanVerbS(x2, args, 0); }
    ScanLiteral("echo \"", x1, args, 0);
  }

  /** The formatRemotePath closure's Sprintf: three operands in, one escaped %s left. */
  lemma RemotePathTemplate(directory: string, role: string, extension: string)
    ensures Sprintf(RemotePathFormat, [directory, role, extension])
         == directory + ("/packer-pwsh-" + (role + ("-" + ("%s" + ("." + extension)))))
  {
    PlainPieces();
    var args := [directory, role, extension];
    var x7 := "%s" + "";
    var x6 := "." + x7;
    var x5 := "s" + x6;
    var x4 := "%%" + x5;
    var x3 := "-" + x4;
    var x2 := "%s" + x3;
    var x1 := "/packer-pwsh-" + x2;
    assert RemotePathFormat == "%s" + x1;
    assert Scan(x7, args, 2) == (extension, 3) by {
      ScanVerbS("", args, 2);
      assert extension + "" == extension;
    }
    assert Scan(x6, args, 2) == ("." + extension, 3) by { ScanLiteral(".", x7, args, 2); }
    assert Scan(x5, args, 2) == ("s" + ("." + extension), 3) by { ScanLiteral("s", x6, args, 2); }
    assert Scan(x4, args, 2) == ("%s" + ("." + extension), 3) by {
      ScanEscapedPercent(x5, args, 2);
      PercentThenS("." + extension);
    }
    var tail := "-" + ("%s" + ("." + extension));
    assert Scan(x3, args, 2) == (tail, 3) by { ScanLiteral("-", x4, args, 2); }
    assert Scan(x2, args, 1) == (role + tail, 3) by { ScanVerbS(x3, args, 1); }
    assert Scan(x1, args, 1) == ("/packer-pwsh-" + (role + tail), 3) by {
      ScanLiteral("/packer-pwsh-", x2, args, 1);
    }
    var once := directory + ("/packer-pwsh-" + (role + tail));
    assert Scan(RemotePathFormat, args, 0) == (once, 3) by { ScanVerbS(x1, args, 0); }
    assert once + "" == once;
  }

  /** A default remote path is dir/packer-pwsh-<role>-<id>.<ext> (provisioner.go:120, 160-162, 217-225). */
  lemma DefaultRemotePathShape(directory: string, role: string, extension: string, id: string)
    requires '%' !in directory && '%' !in role && '%' !in extension
    ensures DefaultRemotePath(directory, role, extension, id)
         == directory + ("/packer-pwsh-" + (role + ("-" + (id + ("." + extension)))))
  {
    PlainPieces();
    RemotePathTemplate(directory, role, extension);
    var args := [id];
    var x5 := "." + extension;
    var x4 := "%s" + x5;
    var x3 := "-" + x4;
    var x2 := role + x3;
    var x1 := "/packer-pwsh-" + x2;
    assert Scan(x5, args, 1) == (x5, 1) by {
      assert '%' !in x5;
      ScanLiteral(x5, "", args, 1);
      assert x5 + "" == x5;
    }
    assert Scan(x4, args, 0) == (id + x5, 1) by { ScanVerbS(x5, args, 0); }
    assert Scan(x3, args, 0) == ("-" + (id + x5), 1) by { ScanLiteral("-", x4, args, 0); }
    assert Scan(x2, args, 0) == (role + ("-" + (id + x5)), 1) by { ScanLiteral(role, x3, args, 0); }
    assert Scan(x1, args, 0) == ("/packer-pwsh-" + (role + ("-" + (id + x5))), 1) by {
      ScanLiteral("/packer-pwsh-", x2, args, 0);
    }
    var path := directory + ("/packer-pwsh-" + (role + ("-" + (id + x5))));
    assert Scan(directory + x1, args, 0) == (path, 1) by { ScanLiteral(directory, x1, args, 0); }
    assert path + "" == path;
  }

  /** Where the defaults of an OS put the scripts, and which extension the
      installer gets. */
  lemma DefaultsDirectory(os: string, user: string, t: Templates)
    ensures var d := DefaultsFor(os, user, t);
      && d.remoteDirectory == (if os == "windows" then "C:/Windows/Temp" else "/tmp")
      && d.autoUpdateExtension == (if os == "windows" then "ps1" else "sh")
  {
  }

  /** A remote path defaulted to the default of its role is never empty. */
  lemma DefaultedRemotePath(given: string, result: string, directory: string, role: string, extension: string, id: string)
    requires '%' !in directory && '%' !in role && '%' !in extension
    requires Defaulted(given, result, DefaultRemotePath(directory, role, extension, id))
    ensures result != ""
    ensures given == "" ==> result == directory + ("/packer-pwsh-" + (role + ("-" + (id + ("." + extension)))))
  {
    DefaultRemotePathShape(directory, role, extension, id);
  }

  /** The remote paths ApplyDefaults fills in, for a directory and an
      extension free of '%'. */
  lemma DefaultedRemotePaths(c: Config, os: string, d: OsDefaults, ids: PathIds)
    requires '%' !in d.remoteDirectory && '%' !in d.autoUpdateExtension
    ensures var r := ApplyDefaults(c, os, d, ids);
      && r.remotePath != "" && r.remoteEnvVarPath != "" && r.remotePwshAutoUpdatePath != ""
      && (c.remotePath == "" ==> r.remotePath == d.remoteDirectory + ("/packer-pwsh-" + ("script" + ("-" + (ids.script + ("." + "ps1"))))))
      && (c.remoteEnvVarPath == "" ==>
            r.remoteEnvVarPath == d.remoteDirectory + ("/packer-pwsh-" + ("variables" + ("-" + (ids.variables + ("." + "ps1"))))))
      && (c.remotePwshAutoUpdatePath == "" ==>
            r.remotePwshAutoUpdatePath
            == d.remoteDirectory + ("/packer-pwsh-" + ("installer" + ("-" + (ids.installer + ("." + d.autoUpdateExtension))))))
  {
    var r := ApplyDefaults(c, os, d, ids);
    PlainPathParts();
    DefaultedRemotePath(c.remotePath, r.remotePath, d.remoteDirectory, "script", "ps1", ids.script);
    DefaultedRemotePath(c.remoteEnvVarPath, r.remoteEnvVarPath, d.remoteDirectory, "variables", "ps1", ids.variables);
    DefaultedRemotePath(c.remotePwshAutoUpdatePath, r.remotePwshAutoUpdatePath, d.remoteDirectory, "installer",
                        d.autoUpdateExtension, ids.installer);
  }

  /** Every remote path is set once Prepare has run; a default one lies in the
      OS's temporary directory and carries the role and the identifier. */
  lemma PreparedRemotePaths(c: Config, t: Templates, ids: PathIds)
    ensures var r := Prepared(c, t, ids).config;
      var dir := if ToLower(c.osType) == "windows" then "C:/Windows/Temp" else "/tmp";
      var ext := if ToLower(c.osType) == "windows" then "ps1" else "sh";
      && r.remotePath != "" && r.remoteEnvVarPath != "" && r.remotePwshAutoUpdatePath != ""
      && (c.remotePath == "" ==> r.remotePath == dir + ("/packer-pwsh-" + ("script" + ("-" + (ids.script + ("." + "ps1"))))))
      && (c.remoteEnvVarPath == "" ==>
            r.remoteEnvVarPath == dir + ("/packer-pwsh-" + ("variables" + ("-" + (ids.variables + ("." + "ps1"))))))
      && (c.remotePwshAutoUpdatePath == "" ==>
            r.remotePwshAutoUpdatePath == dir + ("/packer-pwsh-" + ("installer" + ("-" + (ids.installer + ("." + ext))))))
  {
    var os := ToLower(c.osType);
    var d := DefaultsFor(os, c.elevatedUser, t);
    DefaultsDirectory(os, c.elevatedUser, t);
    PlainPathParts();
    DefaultedRemotePaths(c, os, d, ids);
  }

  /** Only "windows" (in any letter case) brings non-empty reboot defaults. */
  lemma WindowsOnlyRebootDefaults(c: Config, t: Templates, ids: PathIds)
    requires c.rebootInitiateCommand == "" && c.rebootProgressCommand == "" && c.rebootCompleteCommand == ""
    requires c.rebootPendingCommand == ""
    ensures var r := Prepared(c, t, ids).config;
      && (r.rebootInitiateCommand != "" <==> ToLower(c.osType) == "windows")
      && (r.rebootProgressCommand != "" <==> ToLower(c.osType) == "windows")
      && (r.rebootCompleteCommand != "" <==> ToLower(c.osType) == "windows")
      && (ToLower(c.osType) != "windows" ==> r.rebootPendingCommand == "")
  {
  }

  /** Template text used as a default holds no carriage return. */
  lemma PreparedTemplatesUseLineFeeds(c: Config, t: Templates, ids: PathIds)
    ensures var r := Prepared(c, t, ids).config;
      && (c.pwshAutoUpdateCommand == "" ==> '\r' !in r.pwshAutoUpdateCommand)
      && (c.rebootPendingCommand == "" ==> '\r' !in r.rebootPendingCommand)
  {
    var d := DefaultsFor(ToLower(c.osType), c.elevatedUser, t);
    if d.autoUpdateTemplate.Some? {
      NormalizeRemovesCarriageReturns(d.autoUpdateTemplate.value);
    }
    if d.rebootPendingTemplate.Some? {
      NormalizeRemovesCarriageReturns(d.rebootPendingTemplate.value);
    }
  }

  /** Filling in defaults a second time changes nothing, as long as the
      default remote paths are not empty. */
  lemma ApplyDefaultsIdempotent(c: Config, os: string, d: OsDefaults, ids: PathIds)
    requires DefaultRemotePath(d.remoteDirectory, "variables", "ps1", ids.variables) != ""
    requires DefaultRemotePath(d.remoteDirectory, "script", "ps1", ids.script) != ""
    requires DefaultRemotePath(d.remoteDirectory, "installer", d.autoUpdateExtension, ids.installer) != ""
    ensures ApplyDefaults(ApplyDefaults(c, os, d, ids), os, d, ids) == ApplyDefaults(c, os, d, ids)
  {
    OrTemplateIdempotent(c.pwshAutoUpdateCommand, d.autoUpdateTemplate);
    OrTemplateIdempotent(c.rebootPendingCommand, d.rebootPendingTemplate);
  }

  /** A field filled from a template is left alone by a second filling. */
  lemma OrTemplateIdempotent(given: string, template: Option<string>)
    ensures OrTemplate(OrTemplate(given, template), template) == OrTemplate(given, template)
  {
    if template.Some? {
      NormalizeIdempotent(template.value);
    }
  }

  /** Preparing a prepared configuration again changes nothing. */
  lemma PrepareIdempotent(c: Config, t: Templates, ids: PathIds)
    ensures Prepared(Prepared(c, t, ids).config, t, ids) == Prepared(c, t, ids)
  {
    var os := ToLower(c.osType);
    var d := DefaultsFor(os, c.elevatedUser, t);
    ToLowerIdempotent(c.osType);
    DefaultsDirectory(os, c.elevatedUser, t);
    PlainPathParts();
    DefaultedRemotePath("", DefaultRemotePath(d.remoteDirectory, "variables", "ps1", ids.variables),
                        d.remoteDirectory, "variables", "ps1", ids.variables);
    DefaultedRemotePath("", DefaultRemotePath(d.remoteDirectory, "script", "ps1", ids.script),
                        d.remoteDirectory, "script", "ps1", ids.script);
    DefaultedRemotePath("", DefaultRemotePath(d.remoteDirectory, "installer", d.autoUpdateExtension, ids.installer),
                        d.remoteDirectory, "installer", d.autoUpdateExtension, ids.installer);
    ApplyDefaultsIdempotent(c, os, d, ids);
  }
}
