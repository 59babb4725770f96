/** The navigation rules of the file browser: which row a double click
    enters, when "go up" is refused, and which base path the jailbreak
    probe picks. The two generations of the program differ: pyafc.py and
    pyside6afc.py probe `/private` and always start at `/`, and refuse to go
    up only from an all-slash path in jailed mode; main.py and
    pyafc/file_logic.py probe `/`, start jailed sessions at the Media
    directory and refuse to go up from `/` or, when jailed, from there. */
module Navigation {
  import opened Device
  import opened Text
  import opened Paths
  import opened Listing

  /** The directory a jailed AFC session is confined to. */
  const MediaRoot: string := "/var/mobile/Media"

  /** The path a double click on `row` navigates to, if any: only rows
      with the folder prefix navigate, to the current path joined with the
      row with every occurrence of the prefix removed. */
  function EnterTarget(current: string, row: string): (r: Option<string>)
    ensures r.Some? <==> StartsWith(row, FolderPrefix)
  {
    if StartsWith(row, FolderPrefix) then Some(DevicePath(current, ReplaceAll(row, FolderPrefix, "")))
    else None
  }

  /** Double-clicking the row of a folder enters that folder. */
  lemma EnterFolderRow(current: string, name: string)
    requires !Contains(name, FolderPrefix)
    ensures EnterTarget(current, FolderPrefix + name) == Some(DevicePath(current, name))
  {
    var row := FolderPrefix + name;
    assert row[..|FolderPrefix|] == FolderPrefix;
    assert row[|FolderPrefix|..] == name;
    assert StartsWith(row, FolderPrefix);
    assert ReplaceAll(row, FolderPrefix, "") == "" + ReplaceAll(name, FolderPrefix, "");
    ReplaceAllAbsent(name, FolderPrefix, "");
    assert "" + name == name;
  }

  /** Entering a folder of a clean directory and going up again comes back
      to that directory (pyafc.py / pyside6afc.py rule). */
  lemma EnterThenGoUpStripped(d: string, name: string, jailbroken: bool)
    requires CleanDir(d) && PlainName(name) && !Contains(name, FolderPrefix)
    ensures EnterTarget(d, FolderPrefix + name).Some?
    ensures GoUpStripped(EnterTarget(d, FolderPrefix + name).value, jailbroken) == Some(d)
  {
    EnterFolderRow(d, name);
    GoUpStrippedAfterEntry(d, name, jailbroken);
  }

  // ---- go up, pyafc.py and pyside6afc.py ----

  /** `go_up_directory` / `on_file_go_up`: refused when the slash-stripped
      path is `/` or, in jailed mode, empty; otherwise `dirname` with `/`
      separators. */
  function GoUpStripped(current: string, jailbroken: bool): Option<string> {
    var check := RStripSlash(current);
    if check == "/" || (!jailbroken && check == "") then None
    else Some(ReplaceChar(Dirname(current), '\\', '/'))
  }

  lemma RStripSlashEmpty(s: string)
    ensures RStripSlash(s) == [] <==> AllSlashes(s)
    ensures RStripSlash(s) != "/"
  {
  }

  /** Going up is refused exactly in jailed mode on a path made of slashes
      only (the `== "/"` test can never hold after stripping), and in
      jailbroken mode `/` goes up to itself. */
  lemma GoUpStrippedRefused(current: string, jailbroken: bool)
    ensures GoUpStripped(current, jailbroken).None? <==> (!jailbroken && AllSlashes(current))
    ensures GoUpStripped("/", true) == Some("/")
  {
    RStripSlashEmpty(current);
    RStripSlashEmpty("/");
    assert LastSlash("/") == 0;
    assert "/"[..1] == "/";
    ReplaceCharAbsent("/", '\\', '/');
  }

  /** From the path of an entry of a clean directory, going up yields that
      directory, in both modes. */
  lemma GoUpStrippedAfterEntry(d: string, name: string, jailbroken: bool)
    requires CleanDir(d) && PlainName(name)
    ensures GoUpStripped(DevicePath(d, name), jailbroken) == Some(d)
  {
    var p := DevicePath(d, name);
    DevicePathOfEntry(d, name);
    DirnameOfDevicePath(d, name);
    RStripSlashEmpty(p);
    assert p[|p| - 1] == name[|name| - 1];
    assert !AllSlashes(p);
    ReplaceCharAbsent(d, '\\', '/');
  }

  // ---- go up, main.py and pyafc/file_logic.py ----

  /** `go_up_directory`: refused at `/` and, in jailed mode, at the Media
      root; otherwise `dirname` with `/` separators. */
  function GoUpBounded(current: string, jailbroken: bool): Option<string> {
    if current == "/" || (!jailbroken && current == MediaRoot) then None
    else Some(ReplaceChar(Dirname(current), '\\', '/'))
  }

  lemma ReplaceBackslashKeepsPrefix(q: string, pre: string)
    requires NoBackslash(pre) && StartsWith(q, pre)
    ensures StartsWith(ReplaceChar(q, '\\', '/'), pre)
  {
    var r := ReplaceChar(q, '\\', '/');
    assert forall i :: 0 <= i < |pre| ==> r[i] == pre[i];
    assert r[..|pre|] == pre;
  }

  /** In jailed mode, going up from anywhere below the Media root stays at
      or below the Media root. */
  lemma GoUpBoundedStaysInMedia(current: string)
    requires StartsWith(current, MediaRoot + "/")
    ensures GoUpBounded(current, false).Some?
    ensures var up := GoUpBounded(current, false).value;
      up == MediaRoot || StartsWith(up, MediaRoot + "/")
  {
    assert current != "/";
    assert current != MediaRoot;
    DirnameStaysBelow(MediaRoot, current);
    var q := Dirname(current);
    if q == MediaRoot {
      ReplaceCharAbsent(MediaRoot, '\\', '/');
    } else {
      ReplaceBackslashKeepsPrefix(q, MediaRoot + "/");
    }
  }

  /** From the path of an entry of a clean directory, going up yields that
      directory, unless that path is the Media root in jailed mode. */
  lemma GoUpBoundedAfterEntry(d: string, name: string, jailbroken: bool)
    requires CleanDir(d) && PlainName(name)
    ensures GoUpBounded(DevicePath(d, name), jailbroken) ==
      if !jailbroken && DevicePath(d, name) == MediaRoot then None else Some(d)
  {
    var p := DevicePath(d, name);
    DevicePathOfEntry(d, name);
    DirnameOfDevicePath(d, name);
    assert p != "/" by { assert |p| >= 2; }
    ReplaceCharAbsent(d, '\\', '/');
  }

  // ---- the jailbreak probe ----

  /** The session mode: jailbroken or not, and the path browsing starts at. */
  datatype Mode = Mode(jailbroken: bool, basePath: string)

  /** `start_afc_service` in pyafc.py / pyside6afc.py, from the outcome of
      `listdir("/private")`: jailbroken when it works, jailed when it raises
      a device error, and the service is dropped on any other error. */
  function PrivateProbe(probe: Result<seq<string>>): (m: Option<Mode>)
    ensures m.None? <==> (probe.Err? && !IsDeviceFault(probe.fault))
    ensures m.Some? ==> m.value.basePath == "/" && (m.value.jailbroken <==> probe.Ok?)
  {
    match probe
    case Ok(_) => Some(Mode(true, "/"))
    case Err(f) => if IsDeviceFault(f) then Some(Mode(false, "/")) else None
  }

  /** The shared core of `start_afc_service` in pyafc.py and pyside6afc.py:
      open the file service of the client and probe `/private`. The
      session survives exactly when there is a client, the service opens
      and the probe either lists or raises a device error. */
  function OpenPrivateAfc(client: Option<Lockdown>): (r: Option<(Afc, Mode)>)
    ensures r.Some? <==>
      (client.Some? && client.value.afcService.Ok?
       && PrivateProbe(client.value.afcService.value.listdir("/private")).Some?)
    ensures r.Some? ==>
      client.value.afcService == Ok(r.value.0) && r.value.1.basePath == "/"
      && (r.value.1.jailbroken <==> r.value.0.listdir("/private").Ok?)
  {
    if client.None? then None
    else
      match client.value.afcService
      case Err(_) => None
      case Ok(a) =>
        match PrivateProbe(a.listdir("/private"))
        case None => None
        case Some(m) => Some((a, m))
  }

  /** `start_afc_service` in main.py / pyafc/file_logic.py, from the outcome
      of `listdir("/")`: jailbroken at `/` when it works, jailed at the Media
      root on an AfcError; any other error leaves the mode unset. */
  function RootProbe(probe: Result<seq<string>>): (m: Option<Mode>)
    ensures m.None? <==> (probe.Err? && probe.fault.kind != AfcError)
    ensures m.Some? ==> (m.value.jailbroken <==> probe.Ok?)
    ensures m.Some? ==> m.value.basePath == (if m.value.jailbroken then "/" else MediaRoot)
  {
    match probe
    case Ok(_) => Some(Mode(true, "/"))
    case Err(f) => if f.kind == AfcError then Some(Mode(false, MediaRoot)) else None
  }
}
