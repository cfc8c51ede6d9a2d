/** Starting the application at login on Linux: an XDG autostart desktop
    entry named after the application id, in `autostart` under the user's
    configuration directory. The file system is an explicit object: the
    files by path with their contents, the directories that cannot be
    created, the paths that cannot be written and the paths that cannot be
    deleted. The environment is a map
    from variable names to values, and the path of the running executable
    (none when it cannot be determined) is an input. */
module LinuxAutoLaunch {
  import opened Wrappers
  import opened Text
  import opened Paths

  type Env = map<string, string>

  // ---------------------------------------------------------------------
  // Paths

  /** `xdg_config_dir`: `$XDG_CONFIG_HOME` whenever it is set, whatever its
      value, else `$HOME/.config`, else none. */
  function XdgConfigDir(env: Env): (dir: Option<string>)
    ensures dir.None? <==> "XDG_CONFIG_HOME" !in env && "HOME" !in env
  {
    if "XDG_CONFIG_HOME" in env then Some(env["XDG_CONFIG_HOME"])
    else if "HOME" in env then Some(Join(env["HOME"], ".config"))
    else None
  }

  /** The directory holding the autostart entries. */
  function AutostartDir(configDir: string): string
  {
    Join(configDir, "autostart")
  }

  /** `desktop_file_path`: `<config dir>/autostart/<app_id>.desktop`. */
  function DesktopFilePath(env: Env, appId: string): (path: Option<string>)
    ensures path.Some? <==> XdgConfigDir(env).Some?
  {
    match XdgConfigDir(env)
    case None => None
    case Some(dir) => Some(Join(AutostartDir(dir), appId + ".desktop"))
  }

  lemma DesktopNameIsRelative(appId: string)
    requires !IsAbsolute(appId)
    ensures !IsAbsolute(appId + ".desktop")
  {
    if appId == [] {
      assert (appId + ".desktop")[0] == '.';
    } else {
      assert (appId + ".desktop")[0] == appId[0];
    }
  }

  /** For an application id that is not an absolute path, the entry lies
      directly in the autostart directory and is named after the id. */
  lemma DesktopFilePathShape(env: Env, appId: string)
    requires !IsAbsolute(appId) && XdgConfigDir(env).Some?
    ensures DesktopFilePath(env, appId) ==
      Some(JoinPrefix(AutostartDir(XdgConfigDir(env).value)) + appId + ".desktop")
  {
    DesktopNameIsRelative(appId);
    var prefix := JoinPrefix(AutostartDir(XdgConfigDir(env).value));
    JoinRelative(AutostartDir(XdgConfigDir(env).value), appId + ".desktop");
    assert prefix + (appId + ".desktop") == prefix + appId + ".desktop";
  }

  /** Two applications with different relative ids never share an entry. */
  lemma DesktopFilePathInjective(env: Env, a: string, b: string)
    requires !IsAbsolute(a) && !IsAbsolute(b) && XdgConfigDir(env).Some?
    requires DesktopFilePath(env, a) == DesktopFilePath(env, b)
    ensures a == b
  {
    DesktopNameIsRelative(a);
    DesktopNameIsRelative(b);
    JoinInjective(AutostartDir(XdgConfigDir(env).value), a + ".desktop", b + ".desktop");
    assert a == (a + ".desktop")[..|a|];
    assert b == (b + ".desktop")[..|b|];
  }

  /** Without `XDG_CONFIG_HOME`, an absolute home directory gives an
      absolute entry path under `$HOME/.config/autostart`. */
  lemma HomeConfigPath(env: Env, appId: string)
    requires "XDG_CONFIG_HOME" !in env && "HOME" in env && IsAbsolute(env["HOME"])
    ensures DesktopFilePath(env, appId).Some?
    ensures IsAbsolute(DesktopFilePath(env, appId).value)
  {
    var home := env["HOME"];
    var config := Join(home, ".config");
    assert IsAbsolute(config) by {
      assert config[0] == home[0];
    }
    var dir := AutostartDir(config);
    assert IsAbsolute(dir) by {
      assert dir[0] == config[0];
    }
    var path := Join(dir, appId + ".desktop");
    assert IsAbsolute(path) by {
      if !IsAbsolute(appId + ".desktop") {
        assert path[0] == dir[0];
      }
    }
  }

  /** An empty `XDG_CONFIG_HOME` is taken as the configuration directory
      itself: the entry path is relative, so it lands under whatever the
      current directory happens to be. */
  lemma EmptyXdgConfigHomeIsRelative(env: Env, appId: string)
    requires "XDG_CONFIG_HOME" in env && env["XDG_CONFIG_HOME"] == ""
    requires !IsAbsolute(appId)
    ensures DesktopFilePath(env, appId) == Some("autostart/" + appId + ".desktop")
    ensures !IsAbsolute(DesktopFilePath(env, appId).value)
  {
    DesktopFilePathShape(env, appId);
    assert AutostartDir("") == "autostart";
    assert JoinPrefix("autostart") == "autostart/";
    assert ("autostart/" + appId + ".desktop")[0] == 'a';
  }

  /** The configuration directory as the XDG Base Directory Specification
      defines it: `$XDG_CONFIG_HOME` only when it is an absolute path (an
      empty or relative value is ignored), else `$HOME/.config`. */
  function XdgConfigDirCorrected(env: Env): (dir: Option<string>)
    ensures dir.None? <==> !("XDG_CONFIG_HOME" in env && IsAbsolute(env["XDG_CONFIG_HOME"])) && "HOME" !in env
  {
    if "XDG_CONFIG_HOME" in env && IsAbsolute(env["XDG_CONFIG_HOME"]) then Some(env["XDG_CONFIG_HOME"])
    else if "HOME" in env then Some(Join(env["HOME"], ".config"))
    else None
  }

  function DesktopFilePathCorrected(env: Env, appId: string): (path: Option<string>)
    ensures path.Some? <==> XdgConfigDirCorrected(env).Some?
  {
    match XdgConfigDirCorrected(env)
    case None => None
    case Some(dir) => Some(Join(AutostartDir(dir), appId + ".desktop"))
  }

  /** With the corrected lookup the entry path is absolute whenever the
      home directory is, and it agrees with the lookup as written whenever
      `XDG_CONFIG_HOME` is unset or absolute. */
  lemma CorrectedPathIsAbsolute(env: Env, appId: string)
    requires "HOME" in env ==> IsAbsolute(env["HOME"])
    ensures DesktopFilePathCorrected(env, appId).Some? ==> IsAbsolute(DesktopFilePathCorrected(env, appId).value)
    ensures "XDG_CONFIG_HOME" !in env || IsAbsolute(env["XDG_CONFIG_HOME"]) ==>
      DesktopFilePathCorrected(env, appId) == DesktopFilePath(env, appId)
  {
    match XdgConfigDirCorrected(env)
    case None =>
    case Some(config) =>
      if "XDG_CONFIG_HOME" !in env || !IsAbsolute(env["XDG_CONFIG_HOME"]) {
        var home := env["HOME"];
        assert config[0] == home[0];
      }
      var dir := AutostartDir(config);
      assert IsAbsolute(dir) by {
        assert dir[0] == config[0];
      }
      var path := Join(dir, appId + ".desktop");
      if !IsAbsolute(appId + ".desktop") {
        assert path[0] == dir[0];
      }
  }

  // ---------------------------------------------------------------------
  // The desktop entry

  /** The lines of the autostart entry: the group header, the type, the
      name, the command and the GNOME autostart flag. */
  function DesktopEntryLines(appId: string, exe: string): seq<string>
  {
    ["[Desktop Entry]", "Type=Application", "Name=" + appId, "Exec=" + exe,
     "X-GNOME-Autostart-enabled=true"]
  }

  /** The contents of the autostart entry: its lines, each ending with a
      line feed. */
  function DesktopEntry(appId: string, exe: string): (content: string)
    ensures |content| >= 16 && content[..16] == "[Desktop Entry]\n"
    ensures content[|content| - 1] == '\n'
  {
    Terminated(DesktopEntryLines(appId, exe))
  }

  /** A key line `key=value` neither holds a line feed nor ends with a
      carriage return when the value does neither. */
  lemma KeyLineIsOneLine(key: string, value: string)
    requires '\n' !in key
    requires '\n' !in value && '\r' !in value
    requires key != [] && key[|key| - 1] != '\r'
    ensures '\n' !in key + value && StripCr(key + value) == key + value
  {
    var line := key + value;
    assert forall i :: |key| <= i < |line| ==> line[i] == value[i - |key|];
    assert forall i :: 0 <= i < |key| ==> line[i] == key[i];
    if value != [] {
      assert line[|line| - 1] == value[|value| - 1];
    } else {
      assert line[|line| - 1] == key[|key| - 1];
    }
  }

  /** The entry reads back as its five lines, so the name and the command
      are the id and the executable path, when neither holds a line
      break. */
  lemma DesktopEntryReadsBack(appId: string, exe: string)
    requires '\n' !in appId && '\r' !in appId
    requires '\n' !in exe && '\r' !in exe
    ensures Lines(DesktopEntry(appId, exe)) == DesktopEntryLines(appId, exe)
  {
    var lines := DesktopEntryLines(appId, exe);
    KeyLineIsOneLine("Name=", appId);
    KeyLineIsOneLine("Exec=", exe);
    assert forall i :: 0 <= i < |lines| ==> '\n' !in lines[i] && StripCr(lines[i]) == lines[i];
    LinesOfTerminated(lines);
  }

  // ---------------------------------------------------------------------
  // The file system

  /** Why `remove_file` failed. */
  datatype RemoveError = NotFound | PermissionDenied

  /** The files under the configuration directory. A path in `unwritable`
      cannot be written and one in `undeletable` cannot be removed (a
      read-only autostart directory makes a path both). */
  class ConfigFileSystem {
    var files: map<string, string>
    const failingDirs: set<string>
    const unwritable: set<string>
    const undeletable: set<string>

    constructor (files: map<string, string>, failingDirs: set<string>, unwritable: set<string>, undeletable: set<string>)
      ensures this.files == files && this.failingDirs == failingDirs
      ensures this.unwritable == unwritable && this.undeletable == undeletable
    {
      this.files := files;
      this.failingDirs := failingDirs;
      this.unwritable := unwritable;
      this.undeletable := undeletable;
    }

    /** `Path::exists`. */
    predicate Exists(path: string)
      reads this
    {
      path in files
    }

    /** `create_dir_all`. */
    method CreateDirAll(dir: string) returns (ok: bool)
      ensures ok == (dir !in failingDirs)
    {
      ok := dir !in failingDirs;
    }

    /** `fs::write`: creates or replaces the file. */
    method Write(path: string, content: string) returns (ok: bool)
      modifies this
      ensures ok == (path !in unwritable)
      ensures files == if ok then old(files)[path := content] else old(files)
    {
      ok := path !in unwritable;
      if ok {
        files := files[path := content];
      }
    }

    /** `remove_file`: fails when there is no such file, and when the file
        cannot be deleted, which then stays as it was. */
    method RemoveFile(path: string) returns (r: Result<(), RemoveError>)
      modifies this
      ensures path !in old(files) ==> r == Err(NotFound)
      ensures path in old(files) && path in undeletable ==> r == Err(PermissionDenied)
      ensures r.Ok? <==> path in old(files) && path !in undeletable
      ensures files == if r.Ok? then old(files) - {path} else old(files)
    {
      if path !in files {
        return Err(NotFound);
      }
      if path in undeletable {
        return Err(PermissionDenied);
      }
      files := files - {path};
      return Ok(());
    }
  }

  // ---------------------------------------------------------------------
  // The operations

  datatype AutoLaunchError =
    | NoConfigDir
    | CreateDirFailed
    | CurrentExeUnknown
    | WriteFailed
    | RemoveFailed

  /** `is_auto_launch_enabled`: the entry exists. */
  predicate IsAutoLaunchEnabled(env: Env, appId: string, fs: ConfigFileSystem)
    reads fs
    ensures IsAutoLaunchEnabled(env, appId, fs) ==> XdgConfigDir(env).Some?
    ensures !IsAbsolute(appId) && XdgConfigDir(env).Some? ==>
      (IsAutoLaunchEnabled(env, appId, fs) <==>
        fs.Exists(JoinPrefix(AutostartDir(XdgConfigDir(env).value)) + appId + ".desktop"))
  {
    match DesktopFilePath(env, appId)
    case None => false
    case Some(path) =>
      if IsAbsolute(appId) then fs.Exists(path)
      else DesktopFilePathShape(env, appId); fs.Exists(path)
  }

  /** `set_auto_launch`. Without a configuration directory nothing happens
      and the call fails. Enabling creates the autostart directory and
      writes the entry, failing at the first step that fails and otherwise
      leaving the entry in place; disabling removes the entry, ignoring
      any failure to do so, and always succeeds. After a successful call
      the entry exists exactly when it was enabled, unless disabling could
      not delete it; no other file changes. */
  method SetAutoLaunch(env: Env, appId: string, enabled: bool, exe: Option<string>, fs: ConfigFileSystem)
    returns (r: Result<(), AutoLaunchError>)
    modifies fs
    ensures DesktopFilePath(env, appId).None? ==> r == Err(NoConfigDir) && fs.files == old(fs.files)
    ensures DesktopFilePath(env, appId).Some? ==>
      var path := DesktopFilePath(env, appId).value;
      var dir := AutostartDir(XdgConfigDir(env).value);
      && (!enabled ==> r == Ok(()))
      && (!enabled && path !in fs.undeletable ==> fs.files == old(fs.files) - {path})
      && (!enabled && path in fs.undeletable ==> fs.files == old(fs.files))
      && (enabled && dir in fs.failingDirs ==> r == Err(CreateDirFailed))
      && (enabled && dir !in fs.failingDirs && exe.None? ==> r == Err(CurrentExeUnknown))
      && (enabled && dir !in fs.failingDirs && exe.Some? && path in fs.unwritable ==> r == Err(WriteFailed))
      && (enabled && r.Ok? ==> fs.files == old(fs.files)[path := DesktopEntry(appId, exe.value)])
      && (enabled && r.Err? ==> fs.files == old(fs.files))
    ensures r.Ok? <==>
      && DesktopFilePath(env, appId).Some?
      && (enabled ==>
            && AutostartDir(XdgConfigDir(env).value) !in fs.failingDirs
            && exe.Some?
            && DesktopFilePath(env, appId).value !in fs.unwritable)
    ensures r.Ok? && (enabled || DesktopFilePath(env, appId).value !in fs.undeletable) ==>
      (IsAutoLaunchEnabled(env, appId, fs) <==> enabled)
  {
    var desktopFile := DesktopFilePath(env, appId);
    if desktopFile.None? {
      return Err(NoConfigDir);
    }
    var path := desktopFile.value;
    if enabled {
      var created := fs.CreateDirAll(AutostartDir(XdgConfigDir(env).value));
      if !created {
        return Err(CreateDirFailed);
      }
      if exe.None? {
        return Err(CurrentExeUnknown);
      }
      var written := fs.Write(path, DesktopEntry(appId, exe.value));
      if !written {
        return Err(WriteFailed);
      }
    } else {
      var _ := fs.RemoveFile(path);
    }
    return Ok(());
  }

  /** Disabling as written when the entry cannot be deleted: the call
      reports success, yet the entry is still there and the query still
      answers that the application starts at login. */
  method DisableLeavesUndeletableEntry(env: Env, appId: string, fs: ConfigFileSystem)
    returns (r: Result<(), AutoLaunchError>)
    requires DesktopFilePath(env, appId).Some?
    requires DesktopFilePath(env, appId).value in fs.files
    requires DesktopFilePath(env, appId).value in fs.undeletable
    modifies fs
    ensures r == Ok(())
    ensures fs.files == old(fs.files)
    ensures IsAutoLaunchEnabled(env, appId, fs)
  {
    r := SetAutoLaunch(env, appId, false, None, fs);
  }

  /** `set_auto_launch` with only a missing entry ignored when disabling:
      a removal that fails for any other reason is reported. After every
      successful call the query answers `enabled`. */
  method SetAutoLaunchReportingRemoval(env: Env, appId: string, enabled: bool, exe: Option<string>, fs: ConfigFileSystem)
    returns (r: Result<(), AutoLaunchError>)
    modifies fs
    ensures DesktopFilePath(env, appId).None? ==> r == Err(NoConfigDir) && fs.files == old(fs.files)
    ensures DesktopFilePath(env, appId).Some? && !enabled ==>
      var path := DesktopFilePath(env, appId).value;
      && (path in old(fs.files) && path in fs.undeletable ==> r == Err(RemoveFailed) && fs.files == old(fs.files))
      && (path !in old(fs.files) || path !in fs.undeletable ==> r == Ok(()) && fs.files == old(fs.files) - {path})
    ensures DesktopFilePath(env, appId).Some? && enabled ==>
      var path := DesktopFilePath(env, appId).value;
      && (r.Ok? <==> AutostartDir(XdgConfigDir(env).value) !in fs.failingDirs && exe.Some? && path !in fs.unwritable)
      && (r.Ok? ==> fs.files == old(fs.files)[path := DesktopEntry(appId, exe.value)])
      && (r.Err? ==> fs.files == old(fs.files))
    ensures r.Ok? ==> (IsAutoLaunchEnabled(env, appId, fs) <==> enabled)
  {
    var desktopFile := DesktopFilePath(env, appId);
    if desktopFile.None? || enabled {
      r := SetAutoLaunch(env, appId, enabled, exe, fs);
      return;
    }
    var removed := fs.RemoveFile(desktopFile.value);
    if removed == Err(PermissionDenied) {
      return Err(RemoveFailed);
    }
    return Ok(());
  }
}
