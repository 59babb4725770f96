/** pyside6afc.py, the Qt generation: `DeviceLogic`, whose methods run on a
    worker thread and report through signals, and the few decisions of
    `PyAFCGui` that sit between a click and those methods. Each emitted
    signal is one event of `events`, in emission order; the interface's own
    warning boxes join the same trace. */
module PySide6Afc {
  import opened Device
  import opened Text
  import opened Paths
  import opened Listing
  import opened Navigation
  import opened Batch
  import opened AppRows
  import opened Syslog
  import opened Listener
  import opened Ui
  import opened Handshake

  /** The fields of `DeviceLogic`; `syslogAlive` stands for
      `syslog_thread.is_alive()`. */
  datatype State = State(
    client: Option<Lockdown>, afc: Option<Afc>, currentPath: string, jailbroken: bool,
    appsCache: seq<AppRecord>, stopListener: bool, stopSyslog: bool, syslogAlive: bool)

  /** `action_finished(title, text)`, shown as an information box. */
  function ActionFinished(title: string, text: string): Event {
    Message(InfoBox, title, text)
  }

  /** `action_error(title, text)`, or a direct call of `on_action_error`:
      both show a warning box. */
  function ActionError(title: string, text: string): Event {
    Message(WarningBox, title, text)
  }

  const NotConnectedText: string := "Not connected."
  const AfcNotConnected: string := "AFC not connected."
  const WaitingText: string := "Waiting for device..."
  const ListenerErrorPrefix: string := "Listener Error: "

  /** The log line of each empty poll. */
  function Waiting(n: nat): (r: seq<Event>)
    ensures |r| == n && forall i :: 0 <= i < n ==> r[i] == Log(WaitingText)
  {
    seq(n, i => Log(WaitingText))
  }

  /** The log lines of a batch, one per attempted item. */
  function LogLines(verb: string, names: seq<string>): (r: seq<Event>)
    ensures |r| == |names|
    ensures forall i :: 0 <= i < |names| ==> r[i] == Log(verb + names[i] + "...")
  {
    seq(|names|, i requires 0 <= i < |names| => Log(verb + names[i] + "..."))
  }

  // ---- the connection ----

  /** `start_afc_service`: open the file service and probe `/private`. A
      working probe means jailbroken, a device error jailed, and the path
      is `/` either way; without a client, or on any other error, the
      session is dropped and the mode and path keep their old values. */
  function StartAfc(s: State): (t: State)
    ensures t == s.(afc := t.afc, jailbroken := t.jailbroken, currentPath := t.currentPath)
    ensures t.afc.Some? ==>
      s.client.Some? && s.client.value.afcService == Ok(t.afc.value)
      && t.currentPath == "/" && (t.jailbroken <==> t.afc.value.listdir("/private").Ok?)
    ensures t.afc.None? ==> t.currentPath == s.currentPath && t.jailbroken == s.jailbroken
    ensures t.afc.None? <==>
      (s.client.None? || s.client.value.afcService.Err?
       || PrivateProbe(s.client.value.afcService.value.listdir("/private")).None?)
  {
    match OpenPrivateAfc(s.client)
    case None => s.(afc := None)
    case Some((a, m)) => s.(afc := Some(a), jailbroken := m.jailbroken, currentPath := m.basePath)
  }

  /** `connect_to_device` with the outcome of `create_using_usbmux`:
      exactly one outcome signal, first in the trace, followed only by the
      closing of a client that was created but not kept. On success the
      listing of the current path is sent as it came, error and all, with
      no retry, and the fetched applications become the cache. A failure
      before the name was validated leaves every field alone; a failed file
      service keeps the new client. */
  function Connect(s: State, created: Result<Lockdown>): (r: (State, seq<Event>))
    ensures |r.1| >= 1 && IsOutcome(r.1[0]) && forall i :: 1 <= i < |r.1| ==> r.1[i] == ClientClosed
    ensures |r.1| <= 2
    ensures r.1[0].ConnectSucceeded? ==>
      r.0.client.Some? && r.0.afc.Some? && r.0.currentPath == "/" && |r.1| == 1
      && r.0.appsCache == r.1[0].apps && r.1[0].files == StatListing(r.0.afc, "/")
    ensures r.1[0].ConnectFailed? ==>
      r.0 == s || (r.0.client.Some? && r.0.afc.None? && r.1 == [ConnectFailed(AfcStartFailed)])
    ensures var a := AttachTo(created, s.client.Some?, PySide6Rule);
      a.AttachFailed? ==> r == (s, [ConnectFailed(a.text)] + (if a.closed then [ClientClosed] else []))
  {
    match AttachTo(created, s.client.Some?, PySide6Rule)
    case AttachFailed(text, closed) => (s, [ConnectFailed(text)] + (if closed then [ClientClosed] else []))
    case Attached(lock, name) =>
      var t := StartAfc(s.(client := Some(lock)));
      if t.afc.None? then (t, [ConnectFailed(AfcStartFailed)])
      else
        var apps := FetchRecords(t.client).0;
        (t.(appsCache := apps), [ConnectSucceeded(name, apps, StatListing(t.afc, t.currentPath))])
  }

  /** A connection succeeds exactly when the client is created, its info
      names the device (a non-empty name), and the file service starts. */
  lemma ConnectSucceedsIff(s: State, created: Result<Lockdown>)
    ensures Connect(s, created).1[0].ConnectSucceeded? <==>
      created.Ok? && created.value.values.Ok?
      && DeviceName(created.value.values.value, PySide6Rule).Ok?
      && StartAfc(s.(client := Some(created.value))).afc.Some?
    ensures Connect(s, created).1[0].ConnectSucceeded? ==>
      Connect(s, created).1[0].name == DeviceName(created.value.values.value, PySide6Rule).value
      && DeviceName(created.value.values.value, PySide6Rule).value != ""
  {
  }

  // ---- transfers ----

  /** `upload_files(paths, dest)`: push each file into `dest` under its
      base name, logging each attempt; after the last push, the "Done" box
      and the listing of `dest`, which becomes the current path. */
  function Upload(s: State, paths: seq<string>, dest: string): (r: (State, seq<Event>))
    ensures r.0 == s.(currentPath := r.0.currentPath)
    ensures s.afc.None? ==> r == (s, [ActionError("Upload Error", AfcNotConnected)])
  {
    if s.afc.None? then (s, [ActionError("Upload Error", AfcNotConnected)])
    else
      var o := RunAll(paths, PushOp(s.afc.value, dest));
      var shown := LogLines("Uploading ", BaseNames(paths)[..o.attempted]);
      if o.fault.None? then
        (s.(currentPath := dest),
         shown + [ActionFinished("Done", "Uploaded " + Decimal(|paths|) + " file(s)."),
                  FileListSignal(StatListing(s.afc, dest))])
      else (s, shown + [ActionError("Upload Error", "Upload failed: " + o.fault.value.message)])
  }

  /** With a file service, an upload ends by re-listing `dest` exactly
      when every push succeeded, after one log line per file and the "Done"
      box. */
  lemma UploadAllOrNothing(s: State, paths: seq<string>, dest: string)
    requires s.afc.Some?
    ensures var r := Upload(s, paths, dest);
      var pushes := forall i :: 0 <= i < |paths| ==> s.afc.value.push(paths[i], DevicePath(dest, Basename(paths[i]))) == Done;
      |r.1| >= 1
      && (r.1[|r.1| - 1] == FileListSignal(StatListing(s.afc, dest)) <==> pushes)
      && (pushes ==>
            r.0.currentPath == dest && |r.1| == |paths| + 2
            && r.1[|r.1| - 2] == ActionFinished("Done", "Uploaded " + Decimal(|paths|) + " file(s)."))
  {
    UploadTargets(s.afc.value, dest, paths);
  }

  /** A failed upload logs the files up to and including the failing one,
      ends with that push's error and keeps the path. */
  lemma UploadFailureReport(s: State, paths: seq<string>, dest: string)
    requires s.afc.Some?
    ensures var o := RunAll(paths, PushOp(s.afc.value, dest));
      var r := Upload(s, paths, dest);
      o.fault.Some? ==>
        r.0 == s && |r.1| == o.attempted + 1
        && (forall i :: 0 <= i < o.attempted ==> r.1[i] == Log("Uploading " + Basename(paths[i]) + "..."))
        && r.1[o.attempted] == ActionError("Upload Error", "Upload failed: " + o.fault.value.message)
  {
    var o := RunAll(paths, PushOp(s.afc.value, dest));
    if o.fault.Some? {
      var shown := LogLines("Uploading ", BaseNames(paths)[..o.attempted]);
      var r := Upload(s, paths, dest);
      assert r.1 == shown + [ActionError("Upload Error", "Upload failed: " + o.fault.value.message)];
      forall i | 0 <= i < o.attempted
        ensures r.1[i] == Log("Uploading " + Basename(paths[i]) + "...")
      {
        assert r.1[i] == shown[i];
      }
    }
  }

  /** `download_files(names, save_dir)`: pull each name of the current
      directory into `save_dir`, logging each attempt; the "Done" box only
      after the last pull. */
  function Download(s: State, names: seq<string>, saveDir: string): (r: seq<Event>)
    ensures s.afc.None? ==> r == [ActionError("Download Error", AfcNotConnected)]
  {
    if s.afc.None? then [ActionError("Download Error", AfcNotConnected)]
    else
      var o := RunAll(names, PullOp(s.afc.value, s.currentPath, saveDir));
      LogLines("Downloading ", names[..o.attempted])
        + [if o.fault.None? then ActionFinished("Done", "Downloaded " + Decimal(|names|) + " file(s).")
           else ActionError("Download Error", "Download failed: " + o.fault.value.message)]
  }

  /** With a file service, a download reports "Done" exactly when every
      pull succeeded, and otherwise the error of the first failing pull. */
  lemma DownloadAllOrNothing(s: State, names: seq<string>, saveDir: string)
    requires s.afc.Some?
    ensures var r := Download(s, names, saveDir);
      var o := RunAll(names, PullOp(s.afc.value, s.currentPath, saveDir));
      |r| == o.attempted + 1
      && (forall i :: 0 <= i < o.attempted ==> r[i] == Log("Downloading " + names[i] + "..."))
      && (r[o.attempted] == ActionFinished("Done", "Downloaded " + Decimal(|names|) + " file(s).") <==>
          forall i :: 0 <= i < |names| ==> s.afc.value.pull(DevicePath(s.currentPath, names[i]), Paths.Join(saveDir, names[i])) == Done)
      && (o.fault.Some? ==>
            s.afc.value.pull(DevicePath(s.currentPath, names[o.attempted - 1]), Paths.Join(saveDir, names[o.attempted - 1])) == Failed(o.fault.value)
            && r[o.attempted] == ActionError("Download Error", "Download failed: " + o.fault.value.message))
  {
    RunAllFirstFailure(names, PullOp(s.afc.value, s.currentPath, saveDir));
  }

  // ---- applications and power ----

  /** `uninstall_app(bundle_id, name)`: without a client an error; else
      the log line, then either the "Done" box and a refreshed app list
      (which replaces the cache), or the error, with no refresh. */
  function Uninstall(s: State, bundleId: string, appName: string): (r: (State, seq<Event>))
    ensures r.0 == s.(appsCache := r.0.appsCache)
    ensures s.client.None? ==> r == (s, [ActionError("Uninstall Error", NotConnectedText)])
  {
    if s.client.None? then (s, [ActionError("Uninstall Error", NotConnectedText)])
    else
      match ProxyCall(s.client.value, s.client.value.uninstall, bundleId)
      case Failed(f) =>
        (s, [Log("Uninstalling " + appName + "..."),
             ActionError("Uninstall Error", "Failed to uninstall " + appName + ": " + f.message)])
      case Done =>
        var fetched := FetchRecords(s.client);
        (s.(appsCache := fetched.0),
         [Log("Uninstalling " + appName + "..."), ActionFinished("Done", "'" + appName + "' uninstalled."),
          AppListSignal(fetched.0, fetched.1)])
  }

  /** The app list is refreshed exactly when the removal went through. */
  lemma UninstallRefreshesOnSuccess(s: State, bundleId: string, appName: string)
    requires s.client.Some?
    ensures var r := Uninstall(s, bundleId, appName);
      var st := ProxyCall(s.client.value, s.client.value.uninstall, bundleId);
      r.1[0] == Log("Uninstalling " + appName + "...")
      && (r.1[|r.1| - 1].AppListSignal? <==> st.Done?)
      && (st.Failed? ==> r.0 == s && |r.1| == 2)
      && (st.Done? ==> r.0.appsCache == FetchRecords(s.client).0 && |r.1| == 3)
  {
  }

  datatype Power = Reboot | Shutdown | Recovery

  /** The texts of one power action: its title, the title of its error,
      the log line, the "Done" text, the disconnect reason and the failure
      text's start. */
  datatype PowerText = PowerText(title: string, errorTitle: string, sending: string,
                                 finished: string, reason: string, failure: string)

  function TextsOf(p: Power): PowerText {
    match p
    case Reboot => PowerText("Reboot", "Reboot Error", "Sending reboot command...",
                             "Device is rebooting. Connection will be lost.", "Reboot initiated.", "Failed to reboot:\n")
    case Shutdown => PowerText("Shutdown", "Shutdown Error", "Sending shutdown command...",
                               "Device is powering off. Connection will be lost.", "Shutdown initiated.", "Failed to shutdown:\n")
    case Recovery => PowerText("Recovery", "Recovery Error", "Sending recovery command...",
                               "Device entering recovery mode. Connection will be lost.", "Recovery initiated.",
                               "Failed to enter recovery:\n")
  }

  /** The diagnostics call of a power action. */
  function PowerCall(p: Power, lock: Lockdown): Status {
    match p
    case Reboot => lock.restart
    case Shutdown => lock.shutdown
    case Recovery => lock.recovery
  }

  /** `reboot_device`, `shutdown_device`, `enter_recovery`. */
  function PowerEvents(p: Power, client: Option<Lockdown>): (r: seq<Event>)
    ensures client.None? ==> r == [ActionError(TextsOf(p).errorTitle, NotConnectedText)]
    ensures client.Some? ==> |r| >= 2 && r[0] == Log(TextsOf(p).sending)
  {
    var t := TextsOf(p);
    if client.None? then [ActionError(t.errorTitle, NotConnectedText)]
    else
      match PowerCall(p, client.value)
      case Done => [Log(t.sending), ActionFinished(t.title, t.finished), Disconnected(t.reason)]
      case Failed(f) => [Log(t.sending), ActionError(t.errorTitle, t.failure + f.message)]
  }

  /** A power action reports a disconnect exactly when the call went
      through, and then as its last event, right after the "Done" box; a
      failed call ends with its error. */
  lemma DisconnectOnlyOnSuccess(p: Power, client: Option<Lockdown>)
    ensures var r := PowerEvents(p, client);
      ((exists i :: 0 <= i < |r| && r[i].Disconnected?) <==> client.Some? && PowerCall(p, client.value).Done?)
      && (client.Some? && PowerCall(p, client.value).Done? ==>
            |r| == 3 && r[1] == ActionFinished(TextsOf(p).title, TextsOf(p).finished)
            && r[2] == Disconnected(TextsOf(p).reason))
      && (client.Some? && PowerCall(p, client.value).Failed? ==>
            r[|r| - 1] == ActionError(TextsOf(p).errorTitle, TextsOf(p).failure + PowerCall(p, client.value).fault.message))
  {
    var r := PowerEvents(p, client);
    if client.Some? && PowerCall(p, client.value).Done? {
      assert r[2].Disconnected?;
    }
  }

  // ---- the interface side ----

  /** The rows `on_file_download` keeps: those not starting with
      `[FOLDER]`, without the space the folder rows carry. */
  const QtFolderMark: string := "[FOLDER]"

  /** A file whose own name starts with `[FOLDER]` is dropped as if it
      were a folder. */
  lemma BracketFileDropped()
    ensures WithoutPrefix(["[FOLDER]notes.txt"], QtFolderMark) == []
    ensures !StartsWith("[FOLDER]notes.txt", FolderPrefix)
  {
    assert StartsWith("[FOLDER]notes.txt", QtFolderMark) by {
      assert "[FOLDER]notes.txt"[..|QtFolderMark|] == QtFolderMark;
    }
    assert "[FOLDER]notes.txt"[..|FolderPrefix|] != FolderPrefix by {
      assert "[FOLDER]notes.txt"[|FolderPrefix| - 1] != FolderPrefix[|FolderPrefix| - 1];
    }
  }

  /** `on_take_screenshot`: `.png` is appended unless the path already
      ends with it. */
  function ScreenshotPath(savePath: string): (r: string)
    ensures EndsWith(r, ".png")
    ensures EndsWith(savePath, ".png") ==> r == savePath
    ensures !EndsWith(savePath, ".png") ==> r == savePath + ".png"
  {
    if EndsWith(savePath, ".png") then savePath
    else
      var r := savePath + ".png";
      assert r[|r| - 4..] == ".png";
      r
  }

  /** Applying the rule twice changes nothing more. */
  lemma ScreenshotPathIdempotent(savePath: string)
    ensures ScreenshotPath(ScreenshotPath(savePath)) == ScreenshotPath(savePath)
  {
  }

  class DeviceLogic {
    var client: Option<Lockdown>
    var afc: Option<Afc>
    var currentPath: string
    var isJailbroken: bool
    var appsCache: seq<AppRecord>
    var stopListener: bool
    var stopSyslog: bool
    var syslogAlive: bool
    var events: seq<Event>

    function Fields(): State
      reads this
    {
      State(client, afc, currentPath, isJailbroken, appsCache, stopListener, stopSyslog, syslogAlive)
    }

    /** `__init__`; the cache, which `__init__` leaves unset, starts empty. */
    constructor ()
      ensures Fields() == State(None, None, "/", false, [], false, false, false) && events == []
    {
      client := None;
      afc := None;
      currentPath := "/";
      isJailbroken := false;
      appsCache := [];
      stopListener := false;
      stopSyslog := false;
      syslogAlive := false;
      events := [];
    }

    /** `start_device_listener`, given the outcome of each `list_devices()`
        call, the poll at which the stop flag is first seen set, and the
        client factory: each empty poll logs a wait; the first device found
        is connected to, once, and ends the watch; an enumeration error is
        reported as a failed connection and ends it too. */
    method StartDeviceListener(polls: seq<Result<seq<string>>>, stopAt: nat, usbmux: Usbmux)
      modifies this
      ensures WatchOf(polls, stopAt).end.HandedOff? ==>
        Fields() == Connect(old(Fields()).(stopListener := false), usbmux(WatchOf(polls, stopAt).end.serial)).0
        && events == old(events) + Waiting(WatchOf(polls, stopAt).waits)
          + Connect(old(Fields()).(stopListener := false), usbmux(WatchOf(polls, stopAt).end.serial)).1
      ensures !WatchOf(polls, stopAt).end.HandedOff? ==> Fields() == old(Fields()).(stopListener := false)
      ensures WatchOf(polls, stopAt).end.ListenFailed? ==>
        events == old(events) + Waiting(WatchOf(polls, stopAt).waits)
          + [ConnectFailed(ListenerErrorPrefix + WatchOf(polls, stopAt).end.fault.message)]
      ensures WatchOf(polls, stopAt).end.StopRequested? ==> events == old(events) + Waiting(WatchOf(polls, stopAt).waits)
      ensures WatchOf(polls, stopAt).end.StillPolling? ==> events == old(events) + Waiting(WatchOf(polls, stopAt).waits)
    {
      stopListener := false;
      var w := Listen(polls, stopAt);
      events := events + Waiting(w.waits);
      match w.end
      case HandedOff(serial) =>
        ConnectToDevice(serial, usbmux);
      case ListenFailed(f) =>
        events := events + [ConnectFailed(ListenerErrorPrefix + f.message)];
      case StopRequested =>
      case StillPolling =>
    }

    /** `stop_all_activity`: both stop flags are set and the session is
        dropped; a client is closed first, and an error while closing is
        swallowed. */
    method StopAllActivity()
      modifies this
      ensures Fields() == old(Fields()).(stopListener := true, stopSyslog := true, client := None, afc := None)
      ensures events == old(events) + (if old(client).Some? then [ClientClosed] else [])
    {
      stopListener := true;
      stopSyslog := true;
      if client.Some? {
        events := events + [ClientClosed];
      }
      client := None;
      afc := None;
    }

    /** `connect_to_device(udid)`, given the client factory. The mount
        attempt only logs, whatever its outcome. */
    method ConnectToDevice(udid: string, usbmux: Usbmux)
      modifies this
      ensures Fields() == Connect(old(Fields()), usbmux(udid)).0
      ensures events == old(events) + Connect(old(Fields()), usbmux(udid)).1
    {
      var a := AttachTo(usbmux(udid), client.Some?, PySide6Rule);
      if a.AttachFailed? {
        events := events + ([ConnectFailed(a.text)] + (if a.closed then [ClientClosed] else []));
        return;
      }
      client := Some(a.lock);
      StartAfcService();
      if afc.None? {
        events := events + [ConnectFailed(AfcStartFailed)];
        return;
      }
      var files := GetFileListSync(currentPath);
      var apps, _ := GetAppListSync();
      appsCache := apps;
      events := events + [ConnectSucceeded(a.name, apps, files)];
    }

    /** `start_afc_service` */
    method StartAfcService()
      modifies this
      ensures Fields() == StartAfc(old(Fields())) && events == old(events)
    {
      if client.None? {
        afc := None;
        return;
      }
      var service := client.value.afcService;
      if service.Err? {
        afc := None;
        return;
      }
      afc := Some(service.value);
      var probe := service.value.listdir("/private");
      if probe.Ok? {
        isJailbroken := true;
        currentPath := "/";
      } else if IsDeviceFault(probe.fault) {
        isJailbroken := false;
        currentPath := "/";
      } else {
        afc := None;
      }
    }

    /** `_get_file_list_sync` */
    method GetFileListSync(path: string) returns (l: Listing)
      ensures l == StatListing(afc, path)
    {
      l := ListByStat(afc, path);
    }

    /** `fetch_file_list(path)`: without a session the "not ready" listing
        is sent and the path kept; otherwise the path becomes current before
        it is listed, whether or not the listing works. */
    method FetchFileList(path: string)
      modifies this
      ensures afc.None? ==> Fields() == old(Fields()) && events == old(events) + [FileListSignal(NotReadyListing)]
      ensures afc.Some? ==>
        Fields() == old(Fields()).(currentPath := path) && events == old(events) + [FileListSignal(StatListing(afc, path))]
    {
      if afc.None? {
        events := events + [FileListSignal(NotReadyListing)];
        return;
      }
      currentPath := path;
      var l := GetFileListSync(path);
      events := events + [FileListSignal(l)];
    }

    /** `_get_app_list_sync` */
    method GetAppListSync() returns (apps: seq<AppRecord>, error: Option<string>)
      ensures (apps, error) == FetchRecords(client)
    {
      if client.None? {
        return [], Some(NotConnected);
      }
      var listed := client.value.apps;
      if listed.Err? {
        return [], Some(listed.fault.message);
      }
      apps := CollectRecords(listed.value);
      error := None;
    }

    /** `fetch_app_list`: the fetched records replace the cache and are
        sent with the error, if any. */
    method FetchAppList()
      modifies this
      ensures Fields() == old(Fields()).(appsCache := FetchRecords(client).0)
      ensures events == old(events) + [AppListSignal(FetchRecords(client).0, FetchRecords(client).1)]
    {
      var apps, error := GetAppListSync();
      appsCache := apps;
      events := events + [AppListSignal(apps, error)];
    }

    /** `upload_files(paths, dest)` */
    method UploadFiles(paths: seq<string>, dest: string)
      modifies this
      ensures Fields() == Upload(old(Fields()), paths, dest).0
      ensures events == old(events) + Upload(old(Fields()), paths, dest).1
    {
      if afc.None? {
        events := events + [ActionError("Upload Error", AfcNotConnected)];
        return;
      }
      var o := Run(paths, PushOp(afc.value, dest));
      var shown := LogLines("Uploading ", BaseNames(paths)[..o.attempted]);
      if o.fault.None? {
        events := events + (shown + [ActionFinished("Done", "Uploaded " + Decimal(|paths|) + " file(s)."),
                                     FileListSignal(StatListing(afc, dest))]);
        currentPath := dest;
      } else {
        events := events + (shown + [ActionError("Upload Error", "Upload failed: " + o.fault.value.message)]);
      }
    }

    /** `download_files(names, save_dir)` */
    method DownloadFiles(names: seq<string>, saveDir: string)
      modifies this
      ensures Fields() == old(Fields())
      ensures events == old(events) + Download(old(Fields()), names, saveDir)
    {
      if afc.None? {
        events := events + [ActionError("Download Error", AfcNotConnected)];
        return;
      }
      var o := Run(names, PullOp(afc.value, currentPath, saveDir));
      var last := if o.fault.None? then ActionFinished("Done", "Downloaded " + Decimal(|names|) + " file(s).")
                  else ActionError("Download Error", "Download failed: " + o.fault.value.message);
      events := events + (LogLines("Downloading ", names[..o.attempted]) + [last]);
    }

    /** `uninstall_app(bundle_id, name)` */
    method UninstallApp(bundleId: string, appName: string)
      modifies this
      ensures Fields() == Uninstall(old(Fields()), bundleId, appName).0
      ensures events == old(events) + Uninstall(old(Fields()), bundleId, appName).1
    {
      if client.None? {
        events := events + [ActionError("Uninstall Error", NotConnectedText)];
        return;
      }
      var st := ProxyCall(client.value, client.value.uninstall, bundleId);
      if st.Failed? {
        events := events + [Log("Uninstalling " + appName + "..."),
                            ActionError("Uninstall Error", "Failed to uninstall " + appName + ": " + st.fault.message)];
        return;
      }
      events := events + [Log("Uninstalling " + appName + "..."), ActionFinished("Done", "'" + appName + "' uninstalled.")];
      ghost var pre := events;
      FetchAppList();
      Appended(old(events), [Log("Uninstalling " + appName + "..."), ActionFinished("Done", "'" + appName + "' uninstalled.")],
               [AppListSignal(FetchRecords(client).0, FetchRecords(client).1)]);
    }

    /** `reboot_device` */
    method RebootDevice()
      modifies this
      ensures Fields() == old(Fields()) && events == old(events) + PowerEvents(Reboot, client)
    {
      events := events + PowerEvents(Reboot, client);
    }

    /** `shutdown_device` */
    method ShutdownDevice()
      modifies this
      ensures Fields() == old(Fields()) && events == old(events) + PowerEvents(Shutdown, client)
    {
      events := events + PowerEvents(Shutdown, client);
    }

    /** `enter_recovery` */
    method EnterRecovery()
      modifies this
      ensures Fields() == old(Fields()) && events == old(events) + PowerEvents(Recovery, client)
    {
      events := events + PowerEvents(Recovery, client);
    }

    /** `start_syslog`: refused while the stream thread is alive, an error
        without a client, and otherwise the flag is cleared and the thread
        started. */
    method StartSyslog()
      modifies this
      ensures old(syslogAlive) ==> Fields() == old(Fields()) && events == old(events)
      ensures !old(syslogAlive) && client.None? ==>
        Fields() == old(Fields()) && events == old(events) + [ActionError("Syslog Error", NotConnectedText)]
      ensures !old(syslogAlive) && client.Some? ==>
        Fields() == old(Fields()).(stopSyslog := false, syslogAlive := true) && events == old(events)
    {
      if syslogAlive {
        return;
      }
      if client.None? {
        events := events + [ActionError("Syslog Error", NotConnectedText)];
        return;
      }
      stopSyslog := false;
      syslogAlive := true;
    }

    /** The stream thread, when the stop flag is first seen before line
        `stopAt`: its lines, its error marker, and `syslog_stopped` from its
        `finally` clause. */
    method SyslogTask(stopAt: nat)
      modifies this
      ensures Fields() == old(Fields()).(syslogAlive := false)
      ensures events == old(events) + SyslogEvents(StreamOutput(StreamOf(client).lines, StreamOf(client).failure, stopAt), SyslogStopped)
    {
      var out := Stream(StreamOf(client), stopAt);
      events := events + SyslogEvents(out, SyslogStopped);
      syslogAlive := false;
    }

    /** `stop_syslog` */
    method StopSyslog()
      modifies this
      ensures Fields() == old(Fields()).(stopSyslog := true) && events == old(events)
    {
      stopSyslog := true;
    }
  }

  /** What a handler of `PyAFCGui` asks `self.logic.run_in_thread` to run. */
  datatype Request =
    | FetchFiles(path: string)
    | DownloadFiles(names: seq<string>, saveDir: string)
    | UninstallApp(bundleId: string, appName: string)

  /** How a handler ends: before reaching its hand-over, or at the
      hand-over, where looking up `run_in_thread` raises. */
  datatype Handover = NoHandover | Raised(request: Request, fault: Fault)

  /** `DeviceLogic(QObject)` defines no `run_in_thread`, so the lookup
      `self.logic.run_in_thread` raises before the request is made. */
  const NoRunInThread: Fault := Fault(AttributeError, "'DeviceLogic' object has no attribute 'run_in_thread'")

  /** Going up from `/DCIM` in a jailed session passes the check of
      `on_file_go_up` and reaches its hand-over, which raises: the parent
      `/` is never fetched and the path stays `/DCIM`. */
  lemma GoUpReachesHandover()
    ensures GoUpStripped("/DCIM", false) == Some("/")
  {
    assert RStripSlash("/DCIM") == "/DCIM";
    assert "/DCIM"[..4] == "/DCI" && "/DCI"[..3] == "/DC" && "/DC"[..2] == "/D" && "/D"[..1] == "/";
    assert LastSlash("/DCIM") == 0;
    assert "/DCIM"[..1] == "/";
    assert Dirname("/DCIM") == "/";
    assert ReplaceChar("/", '\\', '/') == "/";
  }

  /** A selection holding one file reaches the hand-over of
      `on_file_download` once a folder is chosen, which raises: nothing is
      pulled. */
  lemma DownloadReachesHandover()
    ensures WithoutPrefix(["notes.txt"], QtFolderMark) == ["notes.txt"]
  {
    assert !StartsWith("notes.txt", QtFolderMark) by {
      assert "notes.txt"[0] != QtFolderMark[0];
    }
  }

  /** A confirmed uninstall of a non-Apple app reaches the hand-over of
      `on_app_uninstall`, which raises: nothing is uninstalled. */
  lemma UninstallReachesHandover()
    ensures UninstallConfirmed("org.notes", true, false)
  {
    ShorterLacks("org.notes", ApplePrefix);
  }

  /** The handlers of `PyAFCGui` that decide something before they hand
      over to the logic. Each is modelled as written, ending at the
      `run_in_thread` lookup that raises, and, under a name ending in
      `Dispatched`, as evidently intended, with the request run on the
      logic. */
  class Gui {
    const logic: DeviceLogic

    /** The logic `start_device_listener` created for the window. */
    constructor (logic: DeviceLogic)
      ensures this.logic == logic
    {
      this.logic := logic;
    }

    /** The hand-over the handlers evidently intend: `run_in_thread` as
        pyafc.py's `DeviceLogic` defines it, with its wrapper called, runs
        the request on the logic. */
    method Dispatch(request: Request)
      modifies logic
      ensures request.FetchFiles? && old(logic.afc).None? ==>
        logic.Fields() == old(logic.Fields()) && logic.events == old(logic.events) + [FileListSignal(NotReadyListing)]
      ensures request.FetchFiles? && old(logic.afc).Some? ==>
        logic.Fields() == old(logic.Fields()).(currentPath := request.path)
        && logic.events == old(logic.events) + [FileListSignal(StatListing(logic.afc, request.path))]
      ensures request.DownloadFiles? ==>
        logic.Fields() == old(logic.Fields())
        && logic.events == old(logic.events) + Download(old(logic.Fields()), request.names, request.saveDir)
      ensures request.UninstallApp? ==>
        logic.Fields() == Uninstall(old(logic.Fields()), request.bundleId, request.appName).0
        && logic.events == old(logic.events) + Uninstall(old(logic.Fields()), request.bundleId, request.appName).1
    {
      match request
      case FetchFiles(path) => logic.FetchFileList(path);
      case DownloadFiles(names, saveDir) => logic.DownloadFiles(names, saveDir);
      case UninstallApp(bundleId, appName) => logic.UninstallApp(bundleId, appName);
    }

    /** `on_file_go_up` as written: refused at the top (the slash-stripped
        path is empty while jailed); otherwise it raises at the hand-over
        of the parent directory, and the logic is left as it was. */
    method OnFileGoUp() returns (h: Handover)
      ensures GoUpStripped(logic.currentPath, logic.isJailbroken).None? ==> h == NoHandover
      ensures GoUpStripped(logic.currentPath, logic.isJailbroken).Some? ==>
        h == Raised(FetchFiles(GoUpStripped(logic.currentPath, logic.isJailbroken).value), NoRunInThread)
    {
      var up := GoUpStripped(logic.currentPath, logic.isJailbroken);
      if up.None? {
        return NoHandover;
      }
      h := Raised(FetchFiles(up.value), NoRunInThread);
    }

    /** `on_file_go_up` as intended: the parent directory is fetched. */
    method OnFileGoUpDispatched()
      modifies logic
      ensures GoUpStripped(old(logic.currentPath), old(logic.isJailbroken)).None? ==>
        logic.Fields() == old(logic.Fields()) && logic.events == old(logic.events)
      ensures GoUpStripped(old(logic.currentPath), old(logic.isJailbroken)).Some? && logic.afc.Some? ==>
        logic.Fields() == old(logic.Fields()).(currentPath := GoUpStripped(old(logic.currentPath), old(logic.isJailbroken)).value)
        && logic.events == old(logic.events) + [FileListSignal(StatListing(logic.afc, logic.currentPath))]
      ensures GoUpStripped(old(logic.currentPath), old(logic.isJailbroken)).Some? && logic.afc.None? ==>
        logic.Fields() == old(logic.Fields()) && logic.events == old(logic.events) + [FileListSignal(NotReadyListing)]
    {
      var h := OnFileGoUp();
      if h.Raised? {
        Dispatch(h.request);
      }
    }

    /** `on_file_download` as written, with the selected rows and the
        chosen folder: warnings for an empty selection and for one without
        files, nothing when no folder is chosen, and otherwise it raises at
        the hand-over of the rows kept, so nothing is pulled. */
    method OnFileDownload(selection: seq<string>, saveDir: string) returns (h: Handover)
      modifies logic
      ensures logic.Fields() == old(logic.Fields())
      ensures selection == [] ==>
        logic.events == old(logic.events) + [ActionError("Download", "No files selected.")] && h == NoHandover
      ensures selection != [] && WithoutPrefix(selection, QtFolderMark) == [] ==>
        logic.events == old(logic.events) + [ActionError("Download", "Please select files, not folders.")]
        && h == NoHandover
      ensures WithoutPrefix(selection, QtFolderMark) != [] && saveDir == "" ==>
        logic.events == old(logic.events) && h == NoHandover
      ensures WithoutPrefix(selection, QtFolderMark) != [] && saveDir != "" ==>
        logic.events == old(logic.events)
        && h == Raised(DownloadFiles(WithoutPrefix(selection, QtFolderMark), saveDir), NoRunInThread)
    {
      if selection == [] {
        logic.events := logic.events + [ActionError("Download", "No files selected.")];
        return NoHandover;
      }
      var names := CollectWithoutPrefix(selection, QtFolderMark);
      if names == [] {
        logic.events := logic.events + [ActionError("Download", "Please select files, not folders.")];
        return NoHandover;
      }
      if saveDir == "" {
        return NoHandover;
      }
      h := Raised(DownloadFiles(names, saveDir), NoRunInThread);
    }

    /** `on_file_download` as intended: the rows kept are downloaded. */
    method OnFileDownloadDispatched(selection: seq<string>, saveDir: string)
      modifies logic
      ensures logic.Fields() == old(logic.Fields())
      ensures selection == [] ==> logic.events == old(logic.events) + [ActionError("Download", "No files selected.")]
      ensures selection != [] && WithoutPrefix(selection, QtFolderMark) == [] ==>
        logic.events == old(logic.events) + [ActionError("Download", "Please select files, not folders.")]
      ensures WithoutPrefix(selection, QtFolderMark) != [] && saveDir == "" ==> logic.events == old(logic.events)
      ensures WithoutPrefix(selection, QtFolderMark) != [] && saveDir != "" ==>
        logic.events == old(logic.events) + Download(old(logic.Fields()), WithoutPrefix(selection, QtFolderMark), saveDir)
    {
      var h := OnFileDownload(selection, saveDir);
      if h.Raised? {
        Dispatch(h.request);
      }
    }

    /** `on_app_uninstall` as written, after its confirmations: when they
        are given it raises at the hand-over, so nothing is uninstalled. */
    method OnAppUninstall(bundleId: string, appName: string, confirmed: bool, confirmedSystem: bool)
      returns (h: Handover)
      ensures h == (if UninstallConfirmed(bundleId, confirmed, confirmedSystem)
                    then Raised(UninstallApp(bundleId, appName), NoRunInThread) else NoHandover)
    {
      if !UninstallConfirmed(bundleId, confirmed, confirmedSystem) {
        return NoHandover;
      }
      h := Raised(UninstallApp(bundleId, appName), NoRunInThread);
    }

    /** `on_app_uninstall` as intended: the app is uninstalled after the
        confirmations. */
    method OnAppUninstallDispatched(bundleId: string, appName: string, confirmed: bool, confirmedSystem: bool)
      modifies logic
      ensures !UninstallConfirmed(bundleId, confirmed, confirmedSystem) ==>
        logic.Fields() == old(logic.Fields()) && logic.events == old(logic.events)
      ensures UninstallConfirmed(bundleId, confirmed, confirmedSystem) ==>
        logic.Fields() == Uninstall(old(logic.Fields()), bundleId, appName).0
        && logic.events == old(logic.events) + Uninstall(old(logic.Fields()), bundleId, appName).1
    {
      var h := OnAppUninstall(bundleId, appName, confirmed, confirmedSystem);
      if h.Raised? {
        Dispatch(h.request);
      }
    }
  }
}
