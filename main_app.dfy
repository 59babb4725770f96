/** main.py, the single-file list-box program: its `DeviceLogic`, the file
    browser and the application list over one client. Dialog answers (the
    chosen files and folder, the confirmations) and the list-box selections
    are parameters; every method is proved against the functions of
    `ListboxLogic`. */
module MainApp {
  import opened Device
  import opened Text
  import opened Paths
  import opened Listing
  import opened Navigation
  import opened Batch
  import opened Ordering
  import opened AppRows
  import opened Ui
  import opened ListboxLogic

  class DeviceLogic {
    var client: Option<Lockdown>
    var afc: Option<Afc>
    var currentPath: string
    var isJailbroken: bool
    var events: seq<Event>

    function Fields(): Files
      reads this
    {
      Files(client, afc, currentPath, isJailbroken)
    }

    constructor ()
      ensures Fields() == Files(None, None, "/", false) && events == []
    {
      client := None;
      afc := None;
      currentPath := "/";
      isJailbroken := false;
      events := [];
    }

    /** `start_afc_service` */
    method StartAfcService()
      modifies this
      ensures Fields() == StartAfc(old(Fields())).0
      ensures events == old(events) + StartAfc(old(Fields())).1
    {
      var service := ServiceOf(client);
      if service.Err? {
        events := events + [AfcErrorBox(service.fault)];
        return;
      }
      var a := service.value;
      afc := Some(a);
      var probe := a.listdir("/");
      ghost var before := events;
      var tag: string;
      if probe.Ok? {
        isJailbroken := true;
        currentPath := "/";
        tag := RootTag;
      } else if probe.fault.kind == AfcError {
        isJailbroken := false;
        currentPath := MediaRoot;
        tag := JailedTag;
      } else {
        events := events + [AfcErrorBox(probe.fault)];
        return;
      }
      events := events + [StatusAppended(tag)];
      BrowseToPath(currentPath);
      Appended(before, [StatusAppended(tag)], Shown(a, currentPath));
    }

    /** `browse_to_path` */
    method BrowseToPath(path: string)
      modifies this
      ensures Fields() == Browse(old(Fields()), path).0
      ensures events == old(events) + Browse(old(Fields()), path).1
    {
      if afc.None? {
        return;
      }
      if path != "" {
        currentPath := path;
      }
      var listing := ListByInfo(afc.value, currentPath);
      events := events + [PathShown(currentPath), FilesShown(listing)];
    }

    /** `on_file_double_click` */
    method OnFileDoubleClick(selected: Option<string>)
      modifies this
      ensures Fields() == DoubleClick(old(Fields()), selected).0
      ensures events == old(events) + DoubleClick(old(Fields()), selected).1
    {
      if selected.None? || !StartsWith(selected.value, FolderPrefix) {
        return;
      }
      var folderName := ReplaceAll(selected.value, FolderPrefix, "");
      BrowseToPath(DevicePath(currentPath, folderName));
    }

    /** `go_up_directory` */
    method GoUpDirectory()
      modifies this
      ensures Fields() == GoUp(old(Fields())).0
      ensures events == old(events) + GoUp(old(Fields())).1
    {
      if currentPath == "/" || (!isJailbroken && currentPath == MediaRoot) {
        return;
      }
      BrowseToPath(ReplaceChar(Dirname(currentPath), '\\', '/'));
    }

    /** `upload_files`, with the paths the file dialog returned. */
    method UploadFiles(picked: seq<string>)
      modifies this
      ensures Fields() == old(Fields())
      ensures events == old(events) + Upload(old(Fields()), picked)
    {
      if afc.None? || picked == [] {
        return;
      }
      var a := afc.value;
      var o := Run(picked, PushOp(a, currentPath));
      var shown := Progress("Status: Uploading ", BaseNames(picked)[..o.attempted]);
      if o.fault.Some? {
        var filename := Basename(picked[o.attempted - 1]);
        events := events + (shown + [Message(ErrorBox, "Upload Error", "Could not upload " + filename + ": " + o.fault.value.message),
                                     Status("Status: Upload failed")]);
        return;
      }
      ghost var before := events;
      var done := [Message(InfoBox, "Upload Complete", "Successfully uploaded " + Decimal(|picked|) + " file(s)."),
                   Status("Status: Upload complete.")];
      events := events + (shown + done);
      BrowseToPath("");
      Appended(before, shown + done, Shown(a, currentPath));
      assert UploadEnd(a, currentPath, BaseNames(picked), o) == done + Shown(a, currentPath);
      assert shown + done + Shown(a, currentPath) == shown + UploadEnd(a, currentPath, BaseNames(picked), o);
    }

    /** `download_files`, with the selected rows and the folder the dialog
        returned. */
    method DownloadFiles(selection: seq<string>, saveDir: string)
      modifies this
      ensures Fields() == old(Fields())
      ensures events == old(events) + Download(old(Fields()), selection, saveDir)
    {
      if afc.None? {
        return;
      }
      if selection == [] {
        events := events + [Message(WarningBox, "No Selection", "Please select one or more files to download.")];
        return;
      }
      if saveDir == "" {
        return;
      }
      var names := CollectWithoutPrefix(selection, FolderPrefix);
      if names == [] {
        events := events + [Message(WarningBox, "No Files Selected", "Please select files, not folders, to download.")];
        return;
      }
      var o := Run(names, PullOp(afc.value, currentPath, saveDir));
      var shown := Progress("Status: Downloading ", names[..o.attempted]);
      if o.fault.None? {
        events := events + (shown + [Message(InfoBox, "Download Complete", "Successfully downloaded " + Decimal(|names|) + " file(s)."),
                                     Status("Status: Download complete.")]);
      } else {
        events := events + (shown + [Message(ErrorBox, "Download Error", "Could not download " + names[o.attempted - 1] + ": " + o.fault.value.message),
                                     Status("Status: Download failed")]);
      }
    }

    /** `list_applications` */
    method ListApplications()
      modifies this
      ensures Fields() == old(Fields())
      ensures events == old(events) + AppList(old(client))
    {
      if client.None? {
        return;
      }
      var lock := client.value;
      match lock.apps
      case Err(f) =>
        events := events + [AppRows([LoadingRow]), AppRows([ListError]),
                            Message(ErrorBox, "App List Error", "Could not list applications: " + f.message)];
      case Ok(entries) =>
        if entries == [] {
          events := events + [AppRows([LoadingRow]), AppRows([NoApps])];
        } else {
          var rows := BuildRows(entries);
          events := events + [AppRows([LoadingRow]), AppRows(SortedCaseless(rows))];
        }
    }

    /** `install_app`, with the package the dialog returned and the answer to
        the confirmation. */
    method InstallApp(ipaPath: string, confirmed: bool)
      modifies this
      ensures Fields() == old(Fields())
      ensures events == old(events) + Install(old(client), ipaPath, confirmed)
    {
      if client.None? || ipaPath == "" || !confirmed {
        return;
      }
      var lock := client.value;
      var st := ProxyCall(lock, lock.install, ipaPath);
      if st.Failed? {
        events := events + [Status("Status: Installing .ipa..."),
                            Message(ErrorBox, "Install Error", "Could not install .ipa: " + st.fault.message),
                            Status("Status: Install failed.")];
        return;
      }
      ghost var before := events;
      var done := [Status("Status: Installing .ipa..."),
                   Message(InfoBox, "Install Complete", "Application installed successfully."),
                   Status("Status: Install complete.")];
      events := events + done;
      ListApplications();
      Appended(before, done, AppList(client));
    }

    /** `uninstall_apps`, with the selected rows and the answer to the
        confirmation. */
    method UninstallApps(selection: seq<string>, confirmed: bool)
      modifies this
      ensures Fields() == old(Fields())
      ensures events == old(events) + Uninstall(old(client), selection, confirmed)
    {
      if client.None? {
        return;
      }
      if selection == [] {
        events := events + [Message(WarningBox, "No Selection", "Please select one or more applications to uninstall.")];
        return;
      }
      var sel := SelectForUninstall(selection);
      var skips := SkipWarnings(sel.skipped);
      ghost var before := events;
      events := events + skips;
      if sel.bundleIds == [] || !confirmed {
        return;
      }
      RemoveApps(client.value, sel.bundleIds);
      Appended(before, skips, UninstallRun(client.value, sel.bundleIds));
    }

    /** The confirmed part of `uninstall_apps`: the uninstalls in one
        installation-proxy session, then the report and the refresh. */
    method RemoveApps(lock: Lockdown, bundleIds: seq<string>)
      requires client == Some(lock)
      modifies this
      ensures Fields() == old(Fields())
      ensures events == old(events) + UninstallRun(lock, bundleIds)
    {
      var o := RunSession(lock.installProxy, bundleIds, lock.uninstall);
      if o.fault.Some? {
        events := events + [Status("Status: Uninstalling..."),
                            Message(ErrorBox, "Uninstall Error", "Could not uninstall app: " + o.fault.value.message),
                            Status("Status: Uninstall failed.")];
        return;
      }
      ghost var before := events;
      var done := [Status("Status: Uninstalling..."),
                   Message(InfoBox, "Uninstall Complete", "Application(s) uninstalled successfully."),
                   Status("Status: Uninstall complete.")];
      events := events + done;
      ListApplications();
      Appended(before, done, AppList(client));
    }
  }
}
