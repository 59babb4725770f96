/** pyafc.py, the customtkinter generation: `DeviceLogic`, which connects
    to the first device, lists directories with `stat`, transfers files,
    lists and removes applications and streams the syslog, and the device
    watcher of `PyAFCGui`. Work the source runs on a thread runs here in
    sequence; what it schedules with `after` is appended to `events`. */
module PyAfcTk {
  import opened Device
  import opened Paths
  import opened Ordering
  import opened Listing
  import opened Navigation
  import opened Batch
  import opened AppRows
  import opened Grid
  import opened Syslog
  import opened Listener
  import opened Ui
  import opened Handshake

  /** The fields of `DeviceLogic`. */
  datatype State = State(
    client: Option<Lockdown>, afc: Option<Afc>, currentPath: string, jailbroken: bool,
    appsCache: seq<AppRecord>, initialFiles: Listing, syslogAlive: bool, stopSyslog: bool)

  /** `devices[0].serial if devices else None`, and the fault raised when
      there is no usable serial. */
  function FirstSerial(devices: Result<seq<string>>): (r: Result<string>)
    ensures r.Ok? <==> devices.Ok? && devices.value != [] && devices.value[0] != ""
    ensures r.Ok? ==> r.value == devices.value[0]
    ensures devices.Err? ==> r == Err(devices.fault)
    ensures devices.Ok? && r.Err? ==> r.fault == Fault(DeviceError, NoDeviceFound)
  {
    match devices
    case Err(f) => Err(f)
    case Ok(ds) => if ds == [] || ds[0] == "" then Err(Fault(DeviceError, NoDeviceFound)) else Ok(ds[0])
  }

  /** The handshake up to a validated device name. */
  function AttachFirst(devices: Result<seq<string>>, usbmux: Usbmux, keptClient: bool): Attach {
    match FirstSerial(devices)
    case Err(f) => Failure(ConnectFailPrefix, f, false)
    case Ok(serial) => AttachTo(usbmux(serial), keptClient, PyAfcRule)
  }

  /** `start_afc_service`: open the file service and probe `/private`. The
      session is kept when the probe succeeds (jailbroken) or raises a
      device error (jailed), and the path is `/` either way; without a
      client, or on any other error, the session is dropped and the mode
      and path keep their old values. */
  function StartAfc(s: State): (t: State)
    ensures t == s.(afc := t.afc, jailbroken := t.jailbroken, currentPath := t.currentPath)
    ensures t.afc.Some? ==>
      s.client.Some? && s.client.value.afcService == Ok(t.afc.value)
      && t.currentPath == "/" && (t.jailbroken <==> t.afc.value.listdir("/private").Ok?)
    ensures t.afc.None? ==> t.currentPath == s.currentPath && t.jailbroken == s.jailbroken
    ensures t.afc.None? <==>
      (s.client.None? || s.client.value.afcService.Err?
       || PrivateProbe(s.client.value.afcService.value.listdir("/private")).None?)
  {
    match OpenPrivateAfc(s.client)
    case None => s.(afc := None)
    case Some((a, m)) => s.(afc := Some(a), jailbroken := m.jailbroken, currentPath := m.basePath)
  }

  /** The initial listing of the handshake: the listing of the current
      path; when it fails away from `/`, one retry at `/`. A listing that
      still fails is cached as empty lists with its error. */
  function Preload(afc: Afc, current: string): (r: (string, Listing))
    ensures r.1.error.None? ==> r.1 == StatListing(Some(afc), r.0)
    ensures r.1.error.Some? ==> r.1.folders == [] && r.1.files == []
    ensures StatListing(Some(afc), current).error.None? ==> r == (current, StatListing(Some(afc), current))
    ensures r.0 != current ==> r.0 == "/" && current != "/" && StatListing(Some(afc), current).error.Some?
    ensures current == "/" ==> r.0 == "/"
  {
    var l := StatListing(Some(afc), current);
    if l.error.None? then (current, l)
    else if current != "/" then
      var l2 := StatListing(Some(afc), "/");
      ("/", if l2.error.None? then l2 else Listing([], [], l2.error))
    else (current, Listing([], [], l.error))
  }

  /** `connect_device`: exactly one outcome, the failure callback or the
      success callback, first in the trace, followed only by the closing of
      a client that was created but not kept. A success carries the cached
      applications and the cached initial listing. A failure before the
      name was validated leaves every field alone; a failed file service
      keeps the new client. The mount is not attempted: its service class
      is not imported, so the attempt always ends in a warning. */
  function Connect(s: State, devices: Result<seq<string>>, usbmux: Usbmux): (r: (State, seq<Event>))
    ensures |r.1| >= 1 && IsOutcome(r.1[0]) && forall i :: 1 <= i < |r.1| ==> r.1[i] == ClientClosed
    ensures |r.1| <= 2
    ensures r.1[0].ConnectSucceeded? ==>
      r.0.client.Some? && r.0.afc.Some? && r.0.appsCache == r.1[0].apps && r.0.initialFiles == r.1[0].files
      && r.0.currentPath == "/" && |r.1| == 1
    ensures r.1[0].ConnectFailed? ==>
      r.0 == s || (r.0.client.Some? && r.0.afc.None? && r.1 == [ConnectFailed(AfcStartFailed)])
    ensures var a := AttachFirst(devices, usbmux, s.client.Some?);
      a.AttachFailed? ==> r == (s, [ConnectFailed(a.text)] + (if a.closed then [ClientClosed] else []))
  {
    var a := AttachFirst(devices, usbmux, s.client.Some?);
    match a
    case AttachFailed(text, closed) => (s, [ConnectFailed(text)] + (if closed then [ClientClosed] else []))
    case Attached(lock, name) =>
      var t := StartAfc(s.(client := Some(lock)));
      if t.afc.None? then (t, [ConnectFailed(AfcStartFailed)])
      else
        var (path, files) := Preload(t.afc.value, t.currentPath);
        var apps := FetchRecords(t.client).0;
        (t.(currentPath := path, initialFiles := files, appsCache := apps), [ConnectSucceeded(name, apps, files)])
  }

  /** A connection succeeds exactly when a device is listed with a
      non-empty serial, its client is created, its info names the device
      (an empty name passes) and the file service starts; the success
      carries that name. */
  lemma ConnectSucceedsIff(s: State, devices: Result<seq<string>>, usbmux: Usbmux)
    ensures Connect(s, devices, usbmux).1[0].ConnectSucceeded? <==>
      FirstSerial(devices).Ok? && usbmux(FirstSerial(devices).value).Ok?
      && usbmux(FirstSerial(devices).value).value.values.Ok?
      && DeviceName(usbmux(FirstSerial(devices).value).value.values.value, PyAfcRule).Ok?
      && StartAfc(s.(client := Some(usbmux(FirstSerial(devices).value).value))).afc.Some?
    ensures Connect(s, devices, usbmux).1[0].ConnectSucceeded? ==>
      Connect(s, devices, usbmux).1[0].name
        == DeviceName(usbmux(FirstSerial(devices).value).value.values.value, PyAfcRule).value
  {
  }

  /** The preload fallback never runs: a started file service always sets
      the path to `/`, so the cached listing is the listing of `/` itself,
      emptied when it failed. */
  lemma ConnectNeverFallsBack(s: State, devices: Result<seq<string>>, usbmux: Usbmux)
    ensures var r := Connect(s, devices, usbmux);
      r.1[0].ConnectSucceeded? ==>
        var l := StatListing(r.0.afc, "/");
        r.0.initialFiles == (if l.error.None? then l else Listing([], [], l.error))
  {
  }

  class DeviceLogic {
    var client: Option<Lockdown>
    var afc: Option<Afc>
    var currentPath: string
    var isJailbroken: bool
    var appsCache: seq<AppRecord>
    var initialFiles: Listing
    var syslogAlive: bool
    var stopSyslog: bool
    var events: seq<Event>

    function Fields(): State
      reads this
    {
      State(client, afc, currentPath, isJailbroken, appsCache, initialFiles, syslogAlive, stopSyslog)
    }

    constructor ()
      ensures Fields() == State(None, None, "/", false, [], Listing([], [], None), false, false)
      ensures events == []
    {
      client := None;
      afc := None;
      currentPath := "/";
      isJailbroken := false;
      appsCache := [];
      initialFiles := Listing([], [], None);
      syslogAlive := false;
      stopSyslog := false;
      events := [];
    }

    /** `connect_device`, given the outcome of `list_devices()` and the
        client factory. */
    method ConnectDevice(devices: Result<seq<string>>, usbmux: Usbmux)
      modifies this
      ensures Fields() == Connect(old(Fields()), devices, usbmux).0
      ensures events == old(events) + Connect(old(Fields()), devices, usbmux).1
    {
      var a := AttachFirst(devices, usbmux, client.Some?);
      if a.AttachFailed? {
        events := events + [ConnectFailed(a.text)];
        if a.closed {
          events := events + [ClientClosed];
        }
        return;
      }
      client := Some(a.lock);
      StartAfcService();
      if afc.None? {
        events := events + [ConnectFailed(AfcStartFailed)];
        return;
      }
      var path, files := PreloadFiles(afc.value, currentPath);
      currentPath := path;
      initialFiles := files;
      var apps, _ := GetAppListSync();
      appsCache := apps;
      events := events + [ConnectSucceeded(a.name, appsCache, initialFiles)];
    }

    /** `start_afc_service` */
    method StartAfcService()
      modifies this
      ensures Fields() == StartAfc(old(Fields())) && events == old(events)
    {
      if client.None? {
        afc := None;
        return;
      }
      var service := client.value.afcService;
      if service.Err? {
        afc := None;
        return;
      }
      afc := Some(service.value);
      var probe := service.value.listdir("/private");
      if probe.Ok? {
        isJailbroken := true;
        currentPath := "/";
      } else if IsDeviceFault(probe.fault) {
        isJailbroken := false;
        currentPath := "/";
      } else {
        afc := None;
      }
    }

    /** The preload step of `connect_device`, with its fallback. */
    method PreloadFiles(a: Afc, current: string) returns (path: string, files: Listing)
      ensures (path, files) == Preload(a, current)
    {
      path := current;
      files := ListByStat(Some(a), current);
      if files.error.Some? {
        if current != "/" {
          path := "/";
          files := ListByStat(Some(a), path);
          if files.error.Some? {
            files := Listing([], [], files.error);
          }
        } else {
          files := Listing([], [], files.error);
        }
      }
    }

    /** `_get_file_list_sync` */
    method GetFileListSync(path: string) returns (l: Listing)
      ensures l == StatListing(afc, path)
    {
      l := ListByStat(afc, path);
    }

    /** `browse_to_path`: without a session only the "not ready" row is
        shown and the path is kept; otherwise a non-empty `path` becomes the
        current path, which is shown and then listed. */
    method BrowseToPath(path: string)
      modifies this
      ensures afc.None? ==> Fields() == old(Fields()) && events == old(events) + [FilesShown(NotReadyListing)]
      ensures afc.Some? ==>
        Fields() == old(Fields()).(currentPath := if path != "" then path else old(currentPath))
        && events == old(events) + [PathShown(currentPath), FilesShown(StatListing(afc, currentPath))]
    {
      if afc.None? {
        events := events + [FilesShown(NotReadyListing)];
        return;
      }
      if path != "" {
        currentPath := path;
      }
      events := events + [PathShown(currentPath)];
      var l := GetFileListSync(currentPath);
      events := events + [FilesShown(l)];
    }

    /** `on_file_double_click` on the selected row, if any: a folder row
        browses into that folder, as `browse_to_path` does; any other row,
        or no selection, changes nothing. */
    method OnFileDoubleClick(selected: Option<string>)
      modifies this
      ensures (selected.None? || EnterTarget(old(currentPath), selected.value).None?) ==>
        Fields() == old(Fields()) && events == old(events)
      ensures selected.Some? && EnterTarget(old(currentPath), selected.value).Some? && afc.None? ==>
        Fields() == old(Fields()) && events == old(events) + [FilesShown(NotReadyListing)]
      ensures selected.Some? && EnterTarget(old(currentPath), selected.value).Some? && afc.Some? ==>
        var p := EnterTarget(old(currentPath), selected.value).value;
        Fields() == old(Fields()).(currentPath := if p != "" then p else old(currentPath))
        && events == old(events) + [PathShown(currentPath), FilesShown(StatListing(afc, currentPath))]
    {
      if selected.None? {
        return;
      }
      var target := EnterTarget(currentPath, selected.value);
      if target.Some? {
        BrowseToPath(target.value);
      }
    }

    /** `go_up_directory`: refused at the top, otherwise a browse to the
        parent directory, as `browse_to_path` does. */
    method GoUpDirectory()
      modifies this
      ensures GoUpStripped(old(currentPath), old(isJailbroken)).None? ==>
        Fields() == old(Fields()) && events == old(events)
      ensures GoUpStripped(old(currentPath), old(isJailbroken)).Some? && afc.None? ==>
        Fields() == old(Fields()) && events == old(events) + [FilesShown(NotReadyListing)]
      ensures GoUpStripped(old(currentPath), old(isJailbroken)).Some? && afc.Some? ==>
        var up := GoUpStripped(old(currentPath), old(isJailbroken)).value;
        Fields() == old(Fields()).(currentPath := if up != "" then up else old(currentPath))
        && events == old(events) + [PathShown(currentPath), FilesShown(StatListing(afc, currentPath))]
    {
      var up := GoUpStripped(currentPath, isJailbroken);
      if up.Some? {
        BrowseToPath(up.value);
      }
    }

    /** `upload_files` with the chosen local paths: push each into the
        current directory; the "Done" box and the re-listing of the
        current directory come only after every push succeeded. */
    method UploadFiles(paths: seq<string>)
      modifies this
      ensures Fields() == old(Fields())
      ensures afc.None? ==> events == old(events)
      ensures paths == [] ==> events == old(events)
      ensures afc.Some? && paths != [] ==>
        var o := RunAll(paths, PushOp(old(afc).value, old(currentPath)));
        events == old(events) + Progress("Uploading ", BaseNames(paths)[..o.attempted])
          + (if o.fault.None? then
               TransferDone("Uploaded", |paths|, "Status: Upload complete.")
                 + [PathShown(currentPath), FilesShown(StatListing(afc, currentPath))]
             else TransferFailed("Upload", o.fault.value, "Upload failed"))
    {
      if afc.None? || paths == [] {
        return;
      }
      var o := Run(paths, PushOp(afc.value, currentPath));
      events := events + Progress("Uploading ", BaseNames(paths)[..o.attempted]);
      if o.fault.None? {
        ghost var pre := events;
        events := events + TransferDone("Uploaded", |paths|, "Status: Upload complete.");
        BrowseToPath("");
        Appended(pre, TransferDone("Uploaded", |paths|, "Status: Upload complete."),
                 [PathShown(currentPath), FilesShown(StatListing(afc, currentPath))]);
      } else {
        events := events + TransferFailed("Upload", o.fault.value, "Upload failed");
      }
    }

    /** `download_files` with the selected rows and the chosen directory:
        folder rows are dropped, the rest pulled in order until the first
        failure. */
    method DownloadFiles(selection: seq<string>, saveDir: string)
      modifies this
      ensures Fields() == old(Fields())
      ensures afc.None? ==> events == old(events)
      ensures selection != [] && saveDir == "" ==> events == old(events)
      ensures afc.Some? && selection == [] ==>
        events == old(events) + [Message(WarningBox, "Select", "Select file(s).")]
      ensures afc.Some? && selection != [] && saveDir != "" && WithoutPrefix(selection, FolderPrefix) == [] ==>
        events == old(events) + [Message(WarningBox, "Select", "Select file(s), not folders.")]
      ensures afc.Some? && selection != [] && saveDir != "" && WithoutPrefix(selection, FolderPrefix) != [] ==>
        var names := WithoutPrefix(selection, FolderPrefix);
        var o := RunAll(names, PullOp(afc.value, currentPath, saveDir));
        events == old(events) + Progress("Downloading ", names[..o.attempted])
          + (if o.fault.None? then TransferDone("Downloaded", |names|, "Download complete.")
             else TransferFailed("Download", o.fault.value, "Download failed"))
    {
      if afc.None? {
        return;
      }
      if selection == [] {
        events := events + [Message(WarningBox, "Select", "Select file(s).")];
        return;
      }
      if saveDir == "" {
        return;
      }
      var names := CollectWithoutPrefix(selection, FolderPrefix);
      if names == [] {
        events := events + [Message(WarningBox, "Select", "Select file(s), not folders.")];
        return;
      }
      var o := Run(names, PullOp(afc.value, currentPath, saveDir));
      events := events + Progress("Downloading ", names[..o.attempted]);
      if o.fault.None? {
        events := events + TransferDone("Downloaded", |names|, "Download complete.");
      } else {
        events := events + TransferFailed("Download", o.fault.value, "Download failed");
      }
    }

    /** `_get_app_list_sync` */
    method GetAppListSync() returns (apps: seq<AppRecord>, error: Option<string>)
      ensures (apps, error) == FetchRecords(client)
    {
      if client.None? {
        return [], Some(NotConnected);
      }
      var listed := client.value.apps;
      if listed.Err? {
        return [], Some(listed.fault.message);
      }
      apps := CollectRecords(listed.value);
      error := None;
    }

    /** `list_applications`: show the grid from the cache, or fetch the
        records first. `_update_app_grid` sorts the list it is given in
        place, and that list is the cache, so the cache ends up sorted. */
    method ListApplications(useCache: bool, gridWidth: int, tabWidth: int)
      modifies this
      ensures Fields() == AppGrid(old(Fields()), useCache, LayoutWidth(gridWidth, tabWidth)).0
      ensures events == old(events) + AppGrid(old(Fields()), useCache, LayoutWidth(gridWidth, tabWidth)).1
    {
      if client.None? {
        return;
      }
      var width := LayoutWidth(gridWidth, tabWidth);
      if useCache && appsCache != [] {
        events := events + [GridLoading, GridShown(appsCache, None, width)];
        appsCache := SortBy(appsCache, RecordKey);
        return;
      }
      var apps, error := GetAppListSync();
      appsCache := ListedCache((apps, error));
      events := events + ([GridLoading] + FetchedGrid((apps, error), width));
    }

    /** `uninstall_app_action` after its confirmations: remove one app,
        report the outcome, and refresh the grid whatever the outcome. */
    method UninstallAppAction(bundleId: string, appName: string, confirmed: bool, confirmedSystem: bool,
                              gridWidth: int, tabWidth: int)
      modifies this
      ensures !UninstallConfirmed(bundleId, confirmed, confirmedSystem) ==>
        Fields() == old(Fields()) && events == old(events)
      ensures UninstallConfirmed(bundleId, confirmed, confirmedSystem) ==>
        Fields() == AppGrid(old(Fields()), false, LayoutWidth(gridWidth, tabWidth)).0
        && events == old(events) + UninstallReport(bundleId, appName, UninstallStatus(old(client), bundleId))
          + AppGrid(old(Fields()), false, LayoutWidth(gridWidth, tabWidth)).1
    {
      if !UninstallConfirmed(bundleId, confirmed, confirmedSystem) {
        return;
      }
      var st := UninstallStatus(client, bundleId);
      events := events + UninstallReport(bundleId, appName, st);
      ListApplications(false, gridWidth, tabWidth);
    }

    /** `toggle_syslog_stream`: a running stream is asked to stop; without
        a client an error is shown; otherwise the flag is cleared and the
        stream thread starts. */
    method ToggleSyslogStream()
      modifies this
      ensures old(syslogAlive) ==>
        Fields() == old(Fields()).(stopSyslog := true) && events == old(events) + [SyslogButton("Start Syslog")]
      ensures !old(syslogAlive) && client.None? ==>
        Fields() == old(Fields()) && events == old(events) + [Message(ErrorBox, "Error", "Not connected.")]
      ensures !old(syslogAlive) && client.Some? ==>
        Fields() == old(Fields()).(stopSyslog := false, syslogAlive := true)
        && events == old(events) + [SyslogButton("Stop Syslog (Running...)")]
    {
      if syslogAlive {
        stopSyslog := true;
        events := events + [SyslogButton("Start Syslog")];
        return;
      }
      if client.None? {
        events := events + [Message(ErrorBox, "Error", "Not connected.")];
        return;
      }
      stopSyslog := false;
      events := events + [SyslogButton("Stop Syslog (Running...)")];
      syslogAlive := true;
    }

    /** The stream thread, when the stop flag is first seen before line
        `stopAt`: its lines, its error marker, and the button reset of its
        `finally` clause. */
    method SyslogTask(stopAt: nat)
      modifies this
      ensures Fields() == old(Fields()).(syslogAlive := false)
      ensures events == old(events) + SyslogEvents(StreamOutput(StreamOf(client).lines, StreamOf(client).failure, stopAt), SyslogButton("Start Syslog"))
    {
      var out := Stream(StreamOf(client), stopAt);
      events := events + SyslogEvents(out, SyslogButton("Start Syslog"));
      syslogAlive := false;
    }
  }

  /** `list_applications` on the fields `s`: nothing without a client;
      otherwise the loading label, then the grid of the cache (when asked
      for and not empty) or of a fresh fetch, whose outcome replaces the
      cache. The grid sorts what it shows in place, so a shown cache ends
      up sorted; a failed fetch leaves the cache empty and adds an error
      box. Nothing but the cache changes. */
  function AppGrid(s: State, useCache: bool, width: int): (r: (State, seq<Event>))
    ensures r.0 == s.(appsCache := r.0.appsCache)
    ensures s.client.None? ==> r == (s, [])
  {
    if s.client.None? then (s, [])
    else if useCache && s.appsCache != [] then
      (s.(appsCache := SortBy(s.appsCache, RecordKey)), [GridLoading, GridShown(s.appsCache, None, width)])
    else
      var fetched := FetchRecords(s.client);
      (s.(appsCache := ListedCache(fetched)), [GridLoading] + FetchedGrid(fetched, width))
  }

  /** The grid and the cache `list_applications` leaves behind. */
  lemma AppGridShows(s: State, useCache: bool, width: int)
    requires s.client.Some?
    ensures useCache && s.appsCache != [] ==>
      var r := AppGrid(s, useCache, width);
      multiset(r.0.appsCache) == multiset(s.appsCache) && SortedBy(r.0.appsCache, RecordKey)
      && r.1 == [GridLoading, GridShown(s.appsCache, None, width)]
    ensures !(useCache && s.appsCache != []) && FetchRecords(s.client).1.Some? ==>
      var r := AppGrid(s, useCache, width);
      var err := FetchRecords(s.client).1.value;
      r.0.appsCache == []
      && r.1 == [GridLoading, GridShown([], Some(err), width),
                 Message(ErrorBox, "App Error", "Could not list apps: " + err)]
    ensures !(useCache && s.appsCache != []) && FetchRecords(s.client).1.None? ==>
      var r := AppGrid(s, useCache, width);
      var apps := FetchRecords(s.client).0;
      multiset(r.0.appsCache) == multiset(apps) && SortedBy(r.0.appsCache, RecordKey)
      && r.1 == [GridLoading, GridShown(apps, None, width)]
  {
    if !(useCache && s.appsCache != []) {
      var fetched := FetchRecords(s.client);
      if fetched.1.Some? {
        assert fetched.0 == [];
      }
      var g := FetchedGrid(fetched, width);
      assert [GridLoading] + g == [GridLoading] + g[..|g|];
    }
  }

  /** The outcome of the uninstall call; without a client, opening the
      service fails. */
  function UninstallStatus(client: Option<Lockdown>, bundleId: string): Status {
    if client.Some? then ProxyCall(client.value, client.value.uninstall, bundleId) else Failed(NoClientFault)
  }

  /** What `uninstall_app_action` reports before it refreshes the grid:
      the progress line, then either the error or the success box, then the
      closing status line. */
  function UninstallReport(bundleId: string, appName: string, st: Status): (r: seq<Event>)
    ensures |r| == 3 && r[0] == Status("Uninstalling " + appName + "...") && r[2] == Status("Uninstall finished.")
    ensures st.Done? <==> r[1] == Message(InfoBox, "Done", "'" + appName + "' uninstalled.")
    ensures st.Failed? ==> r[1] == Message(ErrorBox, "Error", "Failed to uninstall " + bundleId + ":\n" + st.fault.message)
  {
    [Status("Uninstalling " + appName + "..."),
     if st.Failed? then Message(ErrorBox, "Error", "Failed to uninstall " + bundleId + ":\n" + st.fault.message)
     else Message(InfoBox, "Done", "'" + appName + "' uninstalled."),
     Status("Uninstall finished.")]
  }

  /** The "Done" box and the status line after a whole batch went through. */
  function TransferDone(verb: string, count: nat, status: string): seq<Event> {
    [Message(InfoBox, "Done", verb + " " + Decimal(count) + " file(s)."), Status(status)]
  }

  /** The error box and the status line after the first failed transfer. */
  function TransferFailed(what: string, f: Fault, status: string): seq<Event> {
    [Message(ErrorBox, "Error", what + " failed: " + f.message), Status(status)]
  }

  /** The cache after a fetch: sorted in place by the grid, unless the
      fetch failed. */
  function ListedCache(fetched: (seq<AppRecord>, Option<string>)): seq<AppRecord> {
    if fetched.1.None? then SortBy(fetched.0, RecordKey) else fetched.0
  }

  /** The grid after a fetch, and the error box that follows a failed one. */
  function FetchedGrid(fetched: (seq<AppRecord>, Option<string>), width: int): (r: seq<Event>)
    ensures r != [] && r[0] == GridShown(fetched.0, fetched.1, width)
    ensures fetched.1.None? ==> |r| == 1
    ensures fetched.1.Some? ==> |r| == 2 && r[1] == Message(ErrorBox, "App Error", "Could not list apps: " + fetched.1.value)
  {
    [GridShown(fetched.0, fetched.1, width)]
      + (if fetched.1.Some? then [Message(ErrorBox, "App Error", "Could not list apps: " + fetched.1.value)] else [])
  }

  /** `PyAFCGui`'s device watcher. */
  class Gui {
    var isConnecting: bool
    var waitLabel: string
    var events: seq<Event>

    /** `__init__` up to `setup_waiting_ui`, whose status label reads
        "Waiting...". */
    constructor ()
      ensures !isConnecting && waitLabel == "Waiting..." && events == []
    {
      isConnecting := false;
      waitLabel := "Waiting...";
      events := [];
    }

    /** `start_device_listener` and `_listen_for_devices`, given the
        outcome of each `list_devices()` call and the poll at which the
        stop flag is first seen: an empty poll shows "Waiting...", a device
        schedules one connection attempt and ends the watch, an error ends
        it silently. */
    method StartDeviceListener(polls: seq<Result<seq<string>>>, stopAt: nat)
      modifies this
      ensures var w := WatchOf(polls, stopAt);
        (isConnecting <==> w.end.HandedOff?)
        && waitLabel == (if w.waits > 0 then "Waiting..." else old(waitLabel))
        && events == old(events) + (if w.end.HandedOff? then [ConnectScheduled] else [])
    {
      isConnecting := false;
      var w := Listen(polls, stopAt);
      if w.waits > 0 {
        waitLabel := "Waiting...";
      }
      if w.end.HandedOff? {
        isConnecting := true;
        events := events + [ConnectScheduled];
      }
    }
  }
}
