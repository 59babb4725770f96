/** The list-box generation of the program, main.py and the pyafc package
    (pyafc/file_logic.py and pyafc/app_logic.py), whose file and application
    code is the same text in both places: what each operation does to the
    fields and which dialogs, status lines and list-box contents it shows.
    The classes of main_app.dfy, file_logic.dfy and app_logic.dfy are
    proved against these functions. */
module ListboxLogic {
  import opened Device
  import opened Text
  import opened Paths
  import opened Listing
  import opened Navigation
  import opened Batch
  import opened AppRows
  import opened Syslog
  import opened Ui

  /** The file-browser fields: the client, the file service, the current
      directory and the mode. */
  datatype Files = Files(client: Option<Lockdown>, afc: Option<Afc>, currentPath: string, jailbroken: bool)

  const RootTag: string := " (AFC2 Root)"
  const JailedTag: string := " (Jailed AFC)"
  const AfcErrorText: string := "Could not start AFC service: "
  const LoadingRow: string := "Loading... This may take a moment."

  /** `AfcService(client)`; opening it without a client fails. */
  function ServiceOf(client: Option<Lockdown>): Result<Afc> {
    if client.Some? then client.value.afcService else Err(NoClientFault)
  }

  function AfcErrorBox(f: Fault): Event {
    Message(ErrorBox, "AFC Error", AfcErrorText + f.message)
  }

  /** What browsing a directory shows: the path entry, then the list box
      with the rows of the file-info listing of that directory. */
  function Shown(afc: Afc, path: string): seq<Event> {
    [PathShown(path), FilesShown(InfoListing(afc, path))]
  }

  // ---- the file browser ----

  /** `start_afc_service`: open the file service and probe `/`. A working
      probe means jailbroken at `/`, an AfcError jailed at the Media root;
      either way the status label gets the mode and the base is browsed.
      Any other error shows the error box and browses nothing: a failed
      opening changes nothing, a failed probe keeps the opened service. */
  function StartAfc(s: Files): (r: (Files, seq<Event>))
    ensures r.0 == s.(afc := r.0.afc, jailbroken := r.0.jailbroken, currentPath := r.0.currentPath)
    ensures ServiceOf(s.client).Err? ==> r == (s, [AfcErrorBox(ServiceOf(s.client).fault)])
  {
    match ServiceOf(s.client)
    case Err(f) => (s, [AfcErrorBox(f)])
    case Ok(a) =>
      match RootProbe(a.listdir("/"))
      case None => (s.(afc := Some(a)), [AfcErrorBox(a.listdir("/").fault)])
      case Some(m) =>
        (s.(afc := Some(a), jailbroken := m.jailbroken, currentPath := m.basePath),
         [StatusAppended(if m.jailbroken then RootTag else JailedTag)] + Shown(a, m.basePath))
  }

  /** The outcome of `start_afc_service` by probe result: the base it
      browses and the mode it picks, or the error it shows. */
  lemma StartAfcModes(s: Files)
    requires ServiceOf(s.client).Ok?
    ensures var a := ServiceOf(s.client).value;
      var r := StartAfc(s);
      r.0.afc == Some(a)
      && (a.listdir("/").Ok? ==>
            r.0.jailbroken && r.0.currentPath == "/" && r.1 == [StatusAppended(RootTag)] + Shown(a, "/"))
      && (a.listdir("/").Err? && a.listdir("/").fault.kind == AfcError ==>
            !r.0.jailbroken && r.0.currentPath == MediaRoot && r.1 == [StatusAppended(JailedTag)] + Shown(a, MediaRoot))
      && (a.listdir("/").Err? && a.listdir("/").fault.kind != AfcError ==>
            r.0 == s.(afc := Some(a)) && r.1 == [AfcErrorBox(a.listdir("/").fault)])
  {
  }

  /** `browse_to_path(path)`: nothing without a session; otherwise a
      non-empty `path` becomes the current directory, which is shown and
      listed. */
  function Browse(s: Files, path: string): (r: (Files, seq<Event>))
    ensures r.0 == s.(currentPath := r.0.currentPath)
    ensures s.afc.None? ==> r == (s, [])
    ensures s.afc.Some? ==> r.0.currentPath == (if path != "" then path else s.currentPath)
  {
    if s.afc.None? then (s, [])
    else
      var t := s.(currentPath := if path != "" then path else s.currentPath);
      (t, Shown(s.afc.value, t.currentPath))
  }

  /** Refreshing, `browse_to_path()` with no path, right after browsing
      stays in the same directory and shows the same path and rows. */
  lemma BrowseRefreshStable(s: Files, path: string)
    ensures Browse(Browse(s, path).0, "") == Browse(s, path)
  {
  }

  /** `on_file_double_click` with the row under the cursor (`None` when
      nothing is selected, the `IndexError` case): a folder row browses
      into that folder, any other row does nothing. */
  function DoubleClick(s: Files, selected: Option<string>): (r: (Files, seq<Event>))
    ensures selected.None? || !StartsWith(selected.value, FolderPrefix) ==> r == (s, [])
    ensures selected.Some? && StartsWith(selected.value, FolderPrefix) ==>
      r == Browse(s, EnterTarget(s.currentPath, selected.value).value)
  {
    if selected.None? then (s, [])
    else match EnterTarget(s.currentPath, selected.value)
      case None => (s, [])
      case Some(p) => Browse(s, p)
  }

  /** `go_up_directory`: nothing at `/` or, in jailed mode, at the Media
      root; otherwise browse to the parent directory. */
  function GoUp(s: Files): (r: (Files, seq<Event>))
    ensures s.currentPath == "/" || (!s.jailbroken && s.currentPath == MediaRoot) ==> r == (s, [])
    ensures GoUpBounded(s.currentPath, s.jailbroken).Some? ==> r == Browse(s, GoUpBounded(s.currentPath, s.jailbroken).value)
  {
    match GoUpBounded(s.currentPath, s.jailbroken)
    case None => (s, [])
    case Some(p) => Browse(s, p)
  }

  /** Double-clicking a folder row of a clean directory and then going up
      comes back to that directory, unless the folder is the Media root of
      a jailed session, where going up is refused. */
  lemma EnterThenGoUp(s: Files, name: string)
    requires s.afc.Some? && CleanDir(s.currentPath) && PlainName(name) && !Contains(name, FolderPrefix)
    ensures var t := DoubleClick(s, Some(FolderPrefix + name)).0;
      t.currentPath == DevicePath(s.currentPath, name)
      && GoUp(t).0.currentPath == (if !s.jailbroken && t.currentPath == MediaRoot then t.currentPath else s.currentPath)
  {
    var d := s.currentPath;
    EnterFolderRow(d, name);
    assert StartsWith(FolderPrefix + name, FolderPrefix) by {
      assert (FolderPrefix + name)[..|FolderPrefix|] == FolderPrefix;
    }
    DevicePathOfEntry(d, name);
    GoUpBoundedAfterEntry(d, name, s.jailbroken);
  }

  /** `upload_files` with the chosen local paths: push each into the
      current directory under its base name, with a status line per
      attempt; the first failure shows its error and ends the upload; after
      the last push come the "Upload Complete" box and the re-listing of the
      current directory. */
  function Upload(s: Files, picked: seq<string>): (r: seq<Event>)
    ensures s.afc.None? || picked == [] ==> r == []
  {
    if s.afc.None? || picked == [] then []
    else
      var o := RunAll(picked, PushOp(s.afc.value, s.currentPath));
      Progress("Status: Uploading ", BaseNames(picked)[..o.attempted])
        + UploadEnd(s.afc.value, s.currentPath, BaseNames(picked), o)
  }

  /** What follows the pushes: the success box, its status and the
      re-listing, or the error box naming the file whose push failed. */
  function UploadEnd(afc: Afc, current: string, names: seq<string>, o: Outcome): seq<Event>
    requires o.attempted <= |names| && (o.fault.Some? ==> o.attempted >= 1)
  {
    if o.fault.None? then
      [Message(InfoBox, "Upload Complete", "Successfully uploaded " + Decimal(|names|) + " file(s)."),
       Status("Status: Upload complete.")] + Shown(afc, current)
    else
      [Message(ErrorBox, "Upload Error", "Could not upload " + names[o.attempted - 1] + ": " + o.fault.value.message),
       Status("Status: Upload failed")]
  }

  /** An upload re-lists the directory exactly when every push succeeded;
      a failed one names the file whose push failed and ends with the
      failure status. */
  lemma UploadAllOrNothing(s: Files, picked: seq<string>)
    requires s.afc.Some? && picked != []
    ensures var r := Upload(s, picked);
      var pushes := forall i :: 0 <= i < |picked| ==>
        s.afc.value.push(picked[i], DevicePath(s.currentPath, Basename(picked[i]))) == Done;
      |r| >= 2
      && (r[|r| - 2..] == Shown(s.afc.value, s.currentPath) <==> pushes)
      && (!pushes ==> r[|r| - 1] == Status("Status: Upload failed"))
  {
    UploadTargets(s.afc.value, s.currentPath, picked);
    var r := Upload(s, picked);
    var o := RunAll(picked, PushOp(s.afc.value, s.currentPath));
    if o.fault.Some? {
      assert r[|r| - 1] == Status("Status: Upload failed");
      assert r[|r| - 2..][1] != Shown(s.afc.value, s.currentPath)[1];
    }
  }

  /** A failed upload shows one status line per attempted file, then the
      error box naming the file whose push failed, with that push's fault,
      and the failure status. */
  lemma UploadFailureNamed(s: Files, picked: seq<string>, o: Outcome)
    requires s.afc.Some? && picked != []
    requires o == RunAll(picked, PushOp(s.afc.value, s.currentPath)) && o.fault.Some?
    ensures s.afc.value.push(picked[o.attempted - 1], DevicePath(s.currentPath, Basename(picked[o.attempted - 1])))
      == Failed(o.fault.value)
    ensures Upload(s, picked) == Progress("Status: Uploading ", BaseNames(picked)[..o.attempted])
      + [Message(ErrorBox, "Upload Error", "Could not upload " + Basename(picked[o.attempted - 1]) + ": " + o.fault.value.message),
         Status("Status: Upload failed")]
  {
    UploadFault(s.afc.value, s.currentPath, picked, o);
    UploadUnfold(s, picked, o);
    UploadEndFailed(s.afc.value, s.currentPath, picked, o);
  }

  lemma UploadUnfold(s: Files, picked: seq<string>, o: Outcome)
    requires s.afc.Some? && picked != []
    requires o == RunAll(picked, PushOp(s.afc.value, s.currentPath))
    ensures Upload(s, picked)
      == Progress("Status: Uploading ", BaseNames(picked)[..o.attempted]) + UploadEnd(s.afc.value, s.currentPath, BaseNames(picked), o)
  {
  }

  lemma UploadEndFailed(afc: Afc, current: string, picked: seq<string>, o: Outcome)
    requires 1 <= o.attempted <= |picked| && o.fault.Some?
    ensures UploadEnd(afc, current, BaseNames(picked), o)
      == [Message(ErrorBox, "Upload Error", "Could not upload " + Basename(picked[o.attempted - 1]) + ": " + o.fault.value.message),
          Status("Status: Upload failed")]
  {
    var names := BaseNames(picked);
    assert names[o.attempted - 1] == Basename(picked[o.attempted - 1]);
  }

  /** `download_files` with the selected rows and the chosen folder: a
      warning for an empty selection, nothing when no folder is chosen, a
      warning when only folder rows were selected; otherwise every other
      row is pulled from the current directory, a status line per attempt,
      up to the first failure. */
  function Download(s: Files, selection: seq<string>, saveDir: string): (r: seq<Event>)
    ensures s.afc.None? ==> r == []
    ensures s.afc.Some? && selection == [] ==>
      r == [Message(WarningBox, "No Selection", "Please select one or more files to download.")]
    ensures s.afc.Some? && selection != [] && saveDir == "" ==> r == []
    ensures s.afc.Some? && selection != [] && saveDir != "" && WithoutPrefix(selection, FolderPrefix) == [] ==>
      r == [Message(WarningBox, "No Files Selected", "Please select files, not folders, to download.")]
  {
    if s.afc.None? then []
    else if selection == [] then [Message(WarningBox, "No Selection", "Please select one or more files to download.")]
    else if saveDir == "" then []
    else
      var names := WithoutPrefix(selection, FolderPrefix);
      if names == [] then [Message(WarningBox, "No Files Selected", "Please select files, not folders, to download.")]
      else
        var o := RunAll(names, PullOp(s.afc.value, s.currentPath, saveDir));
        Progress("Status: Downloading ", names[..o.attempted])
          + (if o.fault.None? then
               [Message(InfoBox, "Download Complete", "Successfully downloaded " + Decimal(|names|) + " file(s)."),
                Status("Status: Download complete.")]
             else
               [Message(ErrorBox, "Download Error", "Could not download " + names[o.attempted - 1] + ": " + o.fault.value.message),
                Status("Status: Download failed")])
  }

  /** A download that gets to pulling completes exactly when every pull
      of a row without the folder prefix succeeded. */
  lemma DownloadAllOrNothing(s: Files, selection: seq<string>, saveDir: string)
    requires s.afc.Some? && saveDir != "" && WithoutPrefix(selection, FolderPrefix) != []
    ensures var names := WithoutPrefix(selection, FolderPrefix);
      var r := Download(s, selection, saveDir);
      |r| >= 2
      && (r[|r| - 1] == Status("Status: Download complete.") <==>
          forall i :: 0 <= i < |names| ==>
            s.afc.value.pull(DevicePath(s.currentPath, names[i]), Paths.Join(saveDir, names[i])) == Done)
  {
    var names := WithoutPrefix(selection, FolderPrefix);
    RunAllFirstFailure(names, PullOp(s.afc.value, s.currentPath, saveDir));
  }

  // ---- the application list ----

  /** `list_applications`: nothing without a client; otherwise the loading
      row, then the rows of the listed applications, or the error row and
      an error box. */
  function AppList(client: Option<Lockdown>): (r: seq<Event>)
    ensures client.None? <==> r == []
    ensures client.Some? ==> |r| >= 2 && r[0] == AppRows([LoadingRow]) && r[1] == AppRows(AppListView(client.value.apps))
    ensures client.Some? && client.value.apps.Ok? ==> |r| == 2
    ensures client.Some? && client.value.apps.Err? ==>
      |r| == 3 && r[2] == Message(ErrorBox, "App List Error", "Could not list applications: " + client.value.apps.fault.message)
  {
    if client.None? then []
    else if client.value.apps.Err? then
      [AppRows([LoadingRow]), AppRows(AppListView(client.value.apps)),
       Message(ErrorBox, "App List Error", "Could not list applications: " + client.value.apps.fault.message)]
    else [AppRows([LoadingRow]), AppRows(AppListView(client.value.apps))]
  }

  /** `install_app` with the chosen package and the answer to the
      confirmation: nothing without a client, a package or a yes; else the
      status line, then either the success box, its status and a refreshed
      list, or the error box and its status. */
  function Install(client: Option<Lockdown>, ipaPath: string, confirmed: bool): (r: seq<Event>)
    ensures client.None? || ipaPath == "" || !confirmed ==> r == []
  {
    if client.None? || ipaPath == "" || !confirmed then []
    else
      match ProxyCall(client.value, client.value.install, ipaPath)
      case Done =>
        [Status("Status: Installing .ipa..."),
         Message(InfoBox, "Install Complete", "Application installed successfully."),
         Status("Status: Install complete.")] + AppList(client)
      case Failed(f) =>
        [Status("Status: Installing .ipa..."),
         Message(ErrorBox, "Install Error", "Could not install .ipa: " + f.message),
         Status("Status: Install failed.")]
  }

  /** An install happens only after the confirmation, and the list is
      refreshed exactly when it succeeded. */
  lemma InstallGated(client: Option<Lockdown>, ipaPath: string, confirmed: bool)
    ensures Install(client, ipaPath, confirmed) != [] <==> client.Some? && ipaPath != "" && confirmed
    ensures client.Some? && ipaPath != "" && confirmed ==>
      var r := Install(client, ipaPath, confirmed);
      var st := ProxyCall(client.value, client.value.install, ipaPath);
      r[0] == Status("Status: Installing .ipa...")
      && (st.Done? ==> r[1..3] == [Message(InfoBox, "Install Complete", "Application installed successfully."),
                                   Status("Status: Install complete.")]
                       && r[3..] == AppList(client))
      && (st.Failed? ==> r == [Status("Status: Installing .ipa..."),
                               Message(ErrorBox, "Install Error", "Could not install .ipa: " + st.fault.message),
                               Status("Status: Install failed.")])
  {
  }

  /** One warning per skipped system app, in selection order. */
  function SkipWarnings(names: seq<string>): (r: seq<Event>)
    ensures |r| == |names|
    ensures forall i :: 0 <= i < |names| ==>
      r[i] == Message(WarningBox, "Skipped", "Cannot uninstall a core system app: " + names[i])
  {
    seq(|names|, i requires 0 <= i < |names| =>
      Message(WarningBox, "Skipped", "Cannot uninstall a core system app: " + names[i]))
  }

  /** What follows the confirmed removal of the selected identifiers: the
      uninstalls in one session, in order, up to the first failure; the
      success box, its status and a refreshed list after the last one. */
  function UninstallRun(lock: Lockdown, bundleIds: seq<string>): seq<Event> {
    var o := RunInSession(lock.installProxy, bundleIds, lock.uninstall);
    if o.fault.None? then
      [Status("Status: Uninstalling..."),
       Message(InfoBox, "Uninstall Complete", "Application(s) uninstalled successfully."),
       Status("Status: Uninstall complete.")] + AppList(Some(lock))
    else
      [Status("Status: Uninstalling..."),
       Message(ErrorBox, "Uninstall Error", "Could not uninstall app: " + o.fault.value.message),
       Status("Status: Uninstall failed.")]
  }

  /** `uninstall_apps` with the selected rows and the answer to the
      confirmation: nothing without a client; a warning for an empty
      selection; one warning per core system row, which is skipped; nothing
      more when no row is left or the answer is no. */
  function Uninstall(client: Option<Lockdown>, selection: seq<string>, confirmed: bool): (r: seq<Event>)
    ensures client.None? ==> r == []
    ensures client.Some? && selection == [] ==>
      r == [Message(WarningBox, "No Selection", "Please select one or more applications to uninstall.")]
  {
    if client.None? then []
    else if selection == [] then [Message(WarningBox, "No Selection", "Please select one or more applications to uninstall.")]
    else
      var sel := Select(selection);
      SkipWarnings(sel.skipped)
        + if sel.bundleIds == [] || !confirmed then [] else UninstallRun(client.value, sel.bundleIds)
  }

  /** When every selected row is a core system app, nothing is asked and
      nothing is removed: only the skip warnings are shown, whatever the
      answer would have been. */
  lemma UninstallOnlyUnprotected(client: Option<Lockdown>, selection: seq<string>, confirmed: bool)
    requires client.Some? && selection != []
    requires forall i :: 0 <= i < |selection| ==> IsProtectedRow(selection[i])
    ensures Uninstall(client, selection, confirmed) == SkipWarnings(Select(selection).skipped)
    ensures |Select(selection).skipped| == |selection|
  {
    SelectEmptyIff(selection);
  }

  /** Declining the confirmation removes nothing: only the skip warnings
      are shown. */
  lemma UninstallUnconfirmed(client: Option<Lockdown>, selection: seq<string>)
    requires client.Some? && selection != []
    ensures Uninstall(client, selection, false) == SkipWarnings(Select(selection).skipped)
  {
  }

  /** A confirmed removal with something left to remove shows the skip
      warnings, then runs the removal of exactly the identifiers of the
      unprotected rows, in selection order. */
  lemma UninstallConfirmed(lock: Lockdown, selection: seq<string>)
    requires Select(selection).bundleIds != []
    ensures Uninstall(Some(lock), selection, true) ==
      SkipWarnings(Select(selection).skipped) + UninstallRun(lock, Select(selection).bundleIds)
  {
  }

  /** A confirmed removal calls `uninstall` on the selected identifiers in
      order; the list is refreshed exactly when every call succeeded. */
  lemma UninstallAllOrNothing(lock: Lockdown, bundleIds: seq<string>)
    requires lock.installProxy.Done?
    ensures var r := UninstallRun(lock, bundleIds);
      var removed := forall i :: 0 <= i < |bundleIds| ==> lock.uninstall(bundleIds[i]) == Done;
      (removed ==> r[|r| - |AppList(Some(lock))|..] == AppList(Some(lock))
                   && r[2] == Status("Status: Uninstall complete."))
      && (!removed ==> |r| == 3 && r[2] == Status("Status: Uninstall failed."))
  {
    RunAllFirstFailure(bundleIds, lock.uninstall);
  }
}
