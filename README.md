# PyAFC, modelled in Dafny

PyAFC is a desktop front end for iOS devices. It has several revisions:
`pyafc.py` (customtkinter), `pyside6afc.py` (Qt), `main.py` (a single-file
tkinter program) and the package `pyafc/`, whose `file_logic.py` and
`app_logic.py` split `main.py`'s logic into two classes. The protocol work
is done by the pymobiledevice3 library. This model covers the layer the
repository decides itself:

- the AFC file browser: listing, folder/file classification, the
  jailbroken-or-jailed probe, entering folders and going up, and sequential
  upload and download;
- the application list: row format and decoding, the system-app filter,
  confirmation gating, install and sequential uninstall;
- the connection handshake and the device watcher;
- the power actions, the syslog stream with its stop flag, and the
  app-grid arithmetic.

Every library call is an oracle stored in the datatypes `Device.Afc` and
`Device.Lockdown` (`listdir`, `stat`, `get_file_info`, `push`, `pull`,
`get_apps`, `install`, `uninstall`, `restart`, `shutdown`,
`enter_recovery`, the syslog line stream, the mount and the service
openings). Each returns a value or a `Fault`, whose kind (`AfcError`,
`DeviceError`, `AttributeError`, `OtherError`) stands for the exception
class the source's `except` clauses test.

Each device-logic class of the source is a Dafny `class` with the same
fields. It also has an `events` field: the dialogs, status lines, list
updates and Qt signals the class hands to the interface, in order. Dialog
answers (chosen files, folders, confirmations), list-box selections and
widget widths are method parameters. Each method is proved against a
specification function of the old state (`Fields() == F(old(Fields())).0`,
`events == old(events) + F(old(Fields())).1`). The listed properties are
lemmas about those functions.

Modules:

- `Device`: the oracles and faults.
- `Text`, `Paths`, `Ordering`: Python's `startswith`, `replace`, `split`,
  `posixpath.join`/`dirname`/`basename`, `rstrip('/')`, and
  `sorted(key=str.lower)`.
- `Listing`: the two listing loops, the stat-based one and the
  `get_file_info`-based one, and the rows a list view shows.
- `Navigation`: entering folders, the two go-up rules and the two probes.
- `AppRows`: row format and parse, the uninstall selection, and app
  records.
- `Batch`: sequential batches that stop at the first failure.
- `Grid`: the grid's column and cell arithmetic.
- `Handshake`, `Listener`, `Syslog`: the connection steps, the watcher
  loop and the stream loop.
- `Ui`: the events.
- `ListboxLogic`: the shared specification of `main.py` and `pyafc/`.
- `PyAfcTk`, `PySide6Afc`, `MainApp`, `PyafcFiles`, `PyafcApps`: one
  module per source file, holding its classes.

The revisions differ, and each is modelled as written:

- `pyafc.py` and `pyside6afc.py` probe `/private` and always start at `/`.
- `main.py` and `pyafc/file_logic.py` probe `/`. On an `AfcError` they
  start in jailed mode at `/var/mobile/Media`.

Behaviours of the source that the model keeps:

- `pyafc.py`, `connect_device`:
  - The preload fallback is never taken. `start_afc_service` always sets
    the path to `/` before the preload, so its `current_path != "/"` test
    fails (`PyAfcTk.ConnectNeverFallsBack`).
  - `MounterService` is not imported, so the mount attempt always ends in
    the warning.
  - An empty `DeviceName` is accepted. `pyside6afc.py` rejects it
    (`Handshake.EmptyNameRules`).
- `pyafc.py`, `go_up_directory`: the `rstrip('/') == "/"` disjunct can never
  hold (`Navigation.RStripSlashEmpty`). In jailbroken mode, going up from
  `/` re-lists `/`.
- `pyafc.py`: `uninstall_app_action` refreshes the grid whether or not the
  uninstall failed.
- `pyafc.py`: `_update_app_grid` sorts the cached list in place, so a
  successful fetch leaves the cache sorted.
- `pyafc.py`: the watcher's `is_connecting` wait can never run while the
  watcher is looping, because the flag is only set when the loop exits.
- `pyside6afc.py`: `on_file_download` filters on `[FOLDER]` without the space
  the folder rows carry. A file whose own name starts with `[FOLDER]` is
  therefore dropped (`PySide6Afc.BracketFileDropped`).
- `pyside6afc.py`: `connect_to_device` passes a failed preload listing on
  with its partial lists and its error. `pyafc.py` empties the lists of a
  failed preload.
- `main.py` and `pyafc/file_logic.py`:
  - A `[???] name` row is not a folder row, so download pulls it under
    that name, prefix included.
  - A probe error that is not an `AfcError` shows the error box but keeps
    the new AFC session, without browsing.
- All listing loops: an error in the middle of the loop keeps the entries
  collected before it, but every view shows only the `Error: ...` row.
- `pyside6afc.py`: `DeviceLogic` defines no `run_in_thread`, yet every
  handler of `PyAFCGui` hands its work over through
  `self.logic.run_in_thread(...)`. The lookup raises `AttributeError`, so
  `on_file_go_up`, `on_file_download` and `on_app_uninstall` end after
  their checks and warning boxes with nothing fetched, pulled or
  uninstalled (`PySide6Afc.Gui.OnFileGoUp`, `PySide6Afc.Gui.OnFileDownload`,
  `PySide6Afc.Gui.OnAppUninstall`; see "## Findings").
- `main.py` and `pyafc/gui.py`: `run_in_thread(f, ...)` only builds and
  returns a wrapper that would start the thread (main.py:24-27,
  pyafc/utils.py:3-6). The buttons and the path entry (connect, device
  info, path entry, go up, upload, download, list, install, uninstall) pass
  a lambda that builds the wrapper and never calls it, so pressing them
  starts no task. Only main.py:118, pyafc/file_logic.py:71 and
  pyafc/core.py:28 call the wrapper. The classes `MainApp.DeviceLogic`,
  `PyafcFiles.FileLogic` and `PyafcApps.AppLogic` model the methods
  themselves, as they run when called.

## Model

| member | source | states |
|---|---|---|
| Text.ReplaceChar | pyafc/file_logic.py:47 | `s.replace(a, b)` on single characters: same length, each `a` becomes `b`, every other character is kept |
| Text.ReplaceCharClears | pyafc/file_logic.py:70 | after `.replace("\\", "/")` no backslash is left, and normalising again changes nothing |
| Text.ReplaceCharAbsent | main.py:117 | a path without backslashes is left unchanged by the normalisation |
| Text.ReplaceAllAbsent | main.py:116 | `replace("[FOLDER] ", "")` leaves a name without the prefix unchanged |
| Text.SplitAbsent | main.py:248-249 | a text without the separator splits into one piece, itself |
| Paths.RStripSlash | pyafc.py:332 | `rstrip('/')` is the longest prefix not ending in `/`, and only slashes were removed |
| Paths.BaseNames | pyafc/file_logic.py:88 | each uploaded path's file name is its `basename` |
| Paths.DevicePathOfEntry | pyafc/file_logic.py:47 | `join(dir, name)` of a clean directory and a plain name is `dir + "/" + name`, or `"/" + name` at the root |
| Paths.DirnameOfDevicePath | pyafc/file_logic.py:78 | `dirname` undoes the join made when entering a folder |
| Paths.DirnameStaysBelow | main.py:125 | `dirname` of a path below a root stays at or below that root |
| Ordering.LowerChar | main.py:205 | `str.lower` on one character, ASCII letters shifted by 32 and every other character kept |
| Ordering.Lower | main.py:205 | `str.lower` character by character |
| Ordering.LexLeTotal | main.py:205 | Python's string `<=` orders any two strings one way or the other |
| Ordering.LexLeTrans | main.py:205 | Python's string `<=` is transitive |
| Ordering.Insert | main.py:205 | inserting into a sorted list keeps it sorted and adds exactly that element |
| Ordering.InsertStable | pyafc.py:471 | inserting puts the new element ahead of every element with the same key, and leaves their order alone |
| Ordering.SortBy | pyafc.py:471 | `sort(key=...)`: same length, a permutation of the input, non-decreasing in the key, and stable: the elements sharing a key keep their input order |
| Ordering.SortedCaseless | pyafc/file_logic.py:56-60 | `sorted(names, key=str.lower)`: a permutation of the names in case-insensitive order; names equal up to case keep their input order |
| Navigation.EnterTarget | pyafc/file_logic.py:68-70 | a double-click navigates exactly when the row starts with `[FOLDER] ` |
| Navigation.EnterFolderRow | pyafc/file_logic.py:65-71 | double-clicking `[FOLDER] name` enters `join(current, name)` with `/` separators |
| Navigation.EnterThenGoUpStripped | pyafc.py:314-339 | entering a folder of a clean directory and going up comes back to that directory |
| Navigation.GoUpStrippedRefused | pyafc.py:331-339 | going up is refused exactly in jailed mode at an all-slash path, and jailbroken `/` goes up to `/` |
| Navigation.GoUpStrippedAfterEntry | pyafc.py:337 | from the path of an entry, going up yields its directory in both modes |
| Navigation.GoUpBoundedStaysInMedia | main.py:122-126 | in jailed mode, going up from below `/var/mobile/Media` stays at or below it |
| Navigation.GoUpBoundedAfterEntry | pyafc/file_logic.py:75-79 | from an entry's path, going up yields its directory, unless that path is the Media root in jailed mode |
| Navigation.PrivateProbe | pyafc.py:203-213 | the `/private` probe: jailbroken iff it succeeds, jailed on a device error, base always `/`; any other error drops the service |
| Navigation.OpenPrivateAfc | pyside6afc.py:322-331 | the session survives iff a client exists, the file service opens and the `/private` probe lists or raises a device error; it then starts at `/`, jailbroken iff the probe listed |
| Navigation.RootProbe | main.py:65-75 | the `/` probe: jailbroken with `/` iff it succeeds, jailed with `/var/mobile/Media` on an `AfcError`, unset on any other error |
| Listing.Kept | pyafc.py:236-237 | an entry is kept if and only if it is not `.` or `..` (membership; order and repeats are `KeptConcat`) |
| Listing.KeptConcat | pyafc.py:236-237 | the kept entries are the listed ones minus `.` and `..`, in listing order and with every repeat |
| Listing.ScanErrorIffAbort | pyafc.py:256-258 | the listing has an error exactly when some entry's step raised out of the loop |
| Listing.ScanPartition | pyafc.py:252-255 | without error, every kept entry lands in exactly one of folders or files |
| Listing.NonSkippedIsKept | pyafc.py:237 | a classifier that skips exactly the dot entries keeps the entries `Kept` keeps |
| Listing.StatEntryRule | pyafc.py:237-255 | an entry is a folder if `stat` reports a directory; if `stat` raises, it is a folder iff `listdir` on it succeeds |
| Listing.StatListingErrors | pyafc.py:230-234 | no AFC session gives `([], [], "AFC service not ready")`; a failing top-level `listdir` gives empty lists and its error |
| Listing.StatListingPartition | pyafc.py:236-255 | without error, folders are `[FOLDER] ` plus the folder entries, files are the other kept entries, counts add up to the kept entries |
| Listing.ListByStat | pyafc.py:228-259 | the stat-based listing loop computes `StatListing` |
| Listing.InfoEntryRule | main.py:92-101 | an entry is a folder iff its info has `st_ifmt == 'S_IFDIR'`; an `AfcError` gives a `[???] ` file row |
| Listing.InfoListingPartition | pyafc/file_logic.py:45-54 | without error, folders and `[???]`-tagged or plain file rows partition the kept entries |
| Listing.ListByInfo | main.py:88-101 | the `get_file_info` listing loop computes `InfoListing` |
| Listing.Rows | pyafc.py:283-298 | an error shows only `Error: ...`; otherwise folders sorted case-insensitively, then files sorted the same way |
| Listing.FoldersFirst | pyafc/file_logic.py:56-60 | every folder row comes before every file row |
| Listing.WithoutPrefix | pyafc/file_logic.py:113-117 | a row is downloaded if and only if it is selected and lacks the folder prefix (membership; order and repeats are `WithoutPrefixConcat`) |
| Listing.WithoutPrefixConcat | pyafc/file_logic.py:113-117 | the download keeps the rows without the folder prefix in selection order, with every repeat |
| Listing.WithoutPrefixEmpty | main.py:160-168 | nothing is left to download exactly when every selected row is a folder |
| Listing.CollectWithoutPrefix | main.py:160-164 | the collecting loop computes `WithoutPrefix` |
| Listing.DownloadEnabled | main.py:412-427 | the download button is enabled exactly when some selected row is not a folder row |
| AppRows.EntryRows | main.py:199-203 | one row per application, in dictionary order, each in the row format with defaults `Unknown App`, `N/A`, `User` |
| AppRows.BuildRows | pyafc/app_logic.py:25-30 | the row-building loop computes `EntryRows` |
| AppRows.AppListView | main.py:193-211 | an error gives the error row, no apps the "No applications found." row, otherwise all rows, sorted case-insensitively |
| AppRows.SplitLastAfter | main.py:248 | `split(" - ")[-1]` of a row ending with `] - bundle` is the bundle id when it holds no separator |
| AppRows.SplitFirstBefore | main.py:249 | `split(" (v")[0]` ends where the version mark begins |
| AppRows.BundleIdRoundTrip | pyafc/app_logic.py:75 | decoding recovers the bundle id from a formatted row when the id holds no `" - "` |
| AppRows.NameRoundTrip | pyafc/app_logic.py:76 | decoding recovers the name from a formatted row when it holds no `" (v"` |
| AppRows.SystemAppProtected | main.py:251 | an Apple app of type `System` is skipped |
| AppRows.OtherAppNotProtected | main.py:251 | an app outside `com.apple.` is never skipped |
| AppRows.Select | pyafc/app_logic.py:72-85 | as many names as bundle ids, and every selected row counted once, either uninstalled or skipped |
| AppRows.SelectOne | pyafc/app_logic.py:75-83 | a protected row is skipped under its name; any other row is uninstalled under its decoded bundle id and name |
| AppRows.SelectConcat | pyafc/app_logic.py:72-85 | the selection of two runs of rows is the selection of the first followed by that of the second, so with `SelectOne` exactly the unprotected rows are uninstalled, in selection order |
| AppRows.SelectFromUnprotected | pyafc/app_logic.py:75-83 | each id and name to uninstall was decoded from one unskipped row |
| AppRows.SelectEmptyIff | pyafc/app_logic.py:87-88 | nothing remains to uninstall exactly when every selected row is protected |
| AppRows.SelectForUninstall | main.py:245-258 | the selection loop computes `Select` |
| AppRows.RecordNames | pyafc.py:410-414 | a record keeps the bundle id and is named by `CFBundleDisplayName`, or by the bundle id without one |
| AppRows.Records | pyafc.py:410-414 | one record per application, in dictionary order |
| AppRows.ProxyCall | main.py:225-226 | an installation-proxy call fails with the opening's fault, or has the call's outcome |
| AppRows.FetchRecords | pyafc.py:398-419 | no client gives `([], "Client not connected")`, an error gives no records and its text, otherwise the records of the apps in order, each named as `RecordNames` says |
| AppRows.CollectRecords | pyside6afc.py:366-370 | the record loop computes `Records` |
| AppRows.UninstallConfirmed | pyafc.py:552-555 | uninstall proceeds only if confirmed, plus the system-app confirmation when the id holds `com.apple.` |
| Batch.RunAll | pyafc/file_logic.py:87-96 | a batch makes at most one call per item, all of them when nothing failed |
| Batch.RunAllFirstFailure | pyafc/file_logic.py:123-132 | no fault iff every call succeeded; a fault is that of the last call made, and every earlier one succeeded |
| Batch.Run | main.py:134-143 | the transfer loop computes `RunAll` |
| Batch.RunSession | pyafc/app_logic.py:95-97 | the uninstall loop in one session: no call when opening fails, else `RunAll` |
| Batch.UploadTargets | main.py:134-139 | each file is pushed to `join(dest, basename)`, in order, up to the first failure |
| Batch.UploadFault | pyafc.py:350-359 | the reported upload fault is that of the push the loop stopped at |
| Grid.LayoutWidth | pyafc.py:488-490 | the grid's width, or the tab's width less 30 when the grid reports 10 or less |
| Grid.Columns | pyafc.py:493-495 | `cols` is at least 1 and is the number of whole 110-pixel tiles that fit |
| Grid.CellOf | pyafc.py:506 | tile `i` is at `(i // cols, i % cols)`, whose column is below `cols` |
| Grid.CellsDistinct | pyafc.py:505-508 | different tiles never share a cell |
| Grid.CellsInReadingOrder | pyside6afc.py:879-880 | cells fill each row left to right, then open the next row |
| Grid.Place | pyafc.py:505-508 | the tiles are the sorted records in order, each at its cell |
| Grid.GridView | pyside6afc.py:865-880 | an error label comes first, then the empty label, then tiles sorted by lowercased name over `Columns(width)` columns |
| Grid.GridShowsEveryApp | pyafc.py:471-506 | the tiles show exactly the listed applications, once each |
| Grid.TileAtCellUnique | pyafc.py:505-515 | at most one tile answers a right-click at a cell |
| Handshake.DeviceName | pyside6afc.py:234-239 | the name is accepted iff the info is a non-empty dict whose `DeviceName` is a string (non-empty under the Qt rule); otherwise a device error |
| Handshake.EmptyNameRules | pyafc.py:83-102 | `pyafc.py` accepts an empty device name, `pyside6afc.py` does not |
| Handshake.AttachTo | pyside6afc.py:226-248 | attached iff created with a valid name; failures carry the info or connect prefix, and close the client iff it was created and is not kept |
| Handshake.Failure | pyafc.py:154-161 | a failure's text is the prefix followed by the fault's message |
| Listener.WatchOf | pyside6afc.py:185-203 | the watch: empty polls waited on, then a hand-off of the first serial, a listener error, the stop flag, or still polling |
| Listener.FirstDeviceHandedOff | pyafc.py:826-847 | a device seen after only empty polls and before the stop is handed off, with nothing after it |
| Listener.Listen | pyafc.py:827-846 | the watcher loop computes `WatchOf` |
| Syslog.StreamOutput | pyside6afc.py:477-485 | the stream's output always ends with exactly one "stopped" |
| Syslog.StreamShape | pyside6afc.py:481-485 | lines up to the stop are forwarded, the line seen after the stop is not, an error adds one marker, then "stopped" |
| Syslog.Stream | pyafc.py:711-725 | the stream loop computes `StreamOutput` |
| Ui.Progress | main.py:138 | one status line per attempted item, in order |
| Ui.Decimal | main.py:145 | `str(n)` for a count is a non-empty run of digits, one digit exactly below 10 |
| Ui.DecimalRoundTrip | main.py:145 | the printed count reads back as the count |
| Ui.SyslogEvents | pyafc.py:719-725 | the stream output as interface events, one for one |
| Ui.SyslogStoppedOnce | pyside6afc.py:477-485 | the last event is the "stopped" event, and every earlier one is a line |
| ListboxLogic.StartAfc | main.py:62-79 | only the session, mode and path change; a failed service opening leaves them and shows the error box |
| ListboxLogic.StartAfcModes | pyafc/file_logic.py:15-32 | `/` probe success: jailbroken at `/` and browsed; `AfcError`: jailed at Media and browsed; other error: session kept, error box, no browse |
| ListboxLogic.Browse | pyafc/file_logic.py:34-63 | nothing without AFC; the path changes only for a non-empty argument; the path entry and listing are shown |
| ListboxLogic.BrowseRefreshStable | main.py:81-110 | refreshing right after browsing stays in the same directory and shows the same path and rows |
| ListboxLogic.DoubleClick | main.py:112-120 | only a selected `[FOLDER] ` row browses, to the joined path |
| ListboxLogic.GoUp | main.py:122-126 | refused at `/` or jailed at Media; otherwise browses to `dirname` |
| ListboxLogic.EnterThenGoUp | pyafc/file_logic.py:65-79 | entering a folder of a clean directory and going up comes back to that directory, unless the folder is the jailed Media root |
| ListboxLogic.Upload | main.py:128-147 | the state never changes; one status line per attempted file, then the failure report or the completion and refresh |
| ListboxLogic.UploadAllOrNothing | pyafc/file_logic.py:87-100 | the completion message and refresh happen exactly when every push succeeded |
| ListboxLogic.UploadFailureNamed | main.py:140-143 | a failed upload names the failing file and its fault and ends with "Upload failed" |
| ListboxLogic.Download | main.py:149-182 | warnings with no pull for an empty or folders-only selection; otherwise the pull batch of the files |
| ListboxLogic.DownloadAllOrNothing | pyafc/file_logic.py:113-135 | "Download Complete" exactly when every pull succeeded, otherwise the first failure's report |
| ListboxLogic.AppList | pyafc/app_logic.py:11-39 | no client: nothing; otherwise the loading row, then the list view, plus the error box on failure |
| ListboxLogic.Install | pyafc/app_logic.py:41-60 | nothing without client, package or confirmation; the app list is refreshed only after a successful install |
| ListboxLogic.InstallGated | main.py:214-233 | no proxy call and no event unless a client, a package and the confirmation are all present |
| ListboxLogic.SkipWarnings | main.py:252 | one "Skipped" warning per protected row, in order |
| ListboxLogic.Uninstall | pyafc/app_logic.py:62-104 | selection warning, skip warnings, no confirmation when nothing remains, then the uninstall run |
| ListboxLogic.UninstallOnlyUnprotected | main.py:251-261 | when every selected row is a protected system app, only the skip warnings are shown: no confirmation and no uninstall |
| ListboxLogic.UninstallUnconfirmed | pyafc/app_logic.py:90-91 | declining the confirmation shows only the skip warnings and uninstalls nothing |
| ListboxLogic.UninstallConfirmed | pyafc/app_logic.py:87-104 | a confirmed uninstall shows the skip warnings, then removes exactly the ids `Select` kept, in order, in one session |
| ListboxLogic.UninstallAllOrNothing | pyafc/app_logic.py:95-104 | the list is refreshed exactly when every uninstall in the session succeeded |
| MainApp.DeviceLogic.constructor | main.py:18-22 | no client or session, path `/`, not jailbroken |
| MainApp.DeviceLogic.StartAfcService | main.py:62-79 | the new fields and events are those of `StartAfc` |
| MainApp.DeviceLogic.BrowseToPath | main.py:81-110 | the new fields and events are those of `Browse` |
| MainApp.DeviceLogic.OnFileDoubleClick | main.py:112-120 | the new fields and events are those of `DoubleClick` |
| MainApp.DeviceLogic.GoUpDirectory | main.py:122-126 | the new fields and events are those of `GoUp` |
| MainApp.DeviceLogic.UploadFiles | main.py:128-147 | fields unchanged; events are those of `Upload` |
| MainApp.DeviceLogic.DownloadFiles | main.py:149-182 | fields unchanged; events are those of `Download` |
| MainApp.DeviceLogic.ListApplications | main.py:184-212 | fields unchanged; events are those of `AppList` |
| MainApp.DeviceLogic.InstallApp | main.py:214-233 | fields unchanged; events are those of `Install` |
| MainApp.DeviceLogic.UninstallApps | main.py:235-277 | fields unchanged; events are those of `Uninstall` |
| MainApp.DeviceLogic.RemoveApps | main.py:266-277 | fields unchanged; events are the confirmed uninstall run |
| PyafcFiles.FileLogic.constructor | pyafc/file_logic.py:8-13 | no client or session, path `/`, not jailbroken |
| PyafcFiles.FileLogic.StartAfcService | pyafc/file_logic.py:15-32 | the new fields and events are those of `StartAfc` |
| PyafcFiles.FileLogic.BrowseToPath | pyafc/file_logic.py:34-63 | the new fields and events are those of `Browse` |
| PyafcFiles.FileLogic.OnFileDoubleClick | pyafc/file_logic.py:65-73 | the new fields and events are those of `DoubleClick` |
| PyafcFiles.FileLogic.GoUpDirectory | pyafc/file_logic.py:75-79 | the new fields and events are those of `GoUp` |
| PyafcFiles.FileLogic.UploadFiles | pyafc/file_logic.py:81-100 | fields unchanged; events are those of `Upload` |
| PyafcFiles.FileLogic.DownloadFiles | pyafc/file_logic.py:102-135 | fields unchanged; events are those of `Download` |
| PyafcApps.AppLogic.constructor | pyafc/app_logic.py:7-9 | no client, no events |
| PyafcApps.AppLogic.ListApplications | pyafc/app_logic.py:11-39 | client unchanged; events are those of `AppList` |
| PyafcApps.AppLogic.InstallApp | pyafc/app_logic.py:41-60 | client unchanged; events are those of `Install` |
| PyafcApps.AppLogic.UninstallApps | pyafc/app_logic.py:62-104 | client unchanged; events are those of `Uninstall` |
| PyafcApps.AppLogic.RemoveApps | pyafc/app_logic.py:93-104 | client unchanged; events are the confirmed uninstall run |
| PyAfcTk.FirstSerial | pyafc.py:61-82 | the first device's serial, or the enumeration's fault, or "no device" when the list is empty |
| PyAfcTk.StartAfc | pyafc.py:193-217 | only session, mode and path change; with a session the path is `/` and jailbroken iff `/private` lists; no session keeps mode and path |
| PyAfcTk.Preload | pyafc.py:119-139 | a good listing is cached as is; a failure not at `/` retries `/` once; a failure that remains is cached as empty lists with its error |
| PyAfcTk.Connect | pyafc.py:61-161 | exactly one outcome first, followed at most by a client close; a failed attach (no serial, no client, bad info) reports its text and closes as `AttachTo` says, leaving the state; success sets client, session, path, app cache and file cache |
| PyAfcTk.ConnectSucceedsIff | pyafc.py:83-117 | a connection succeeds exactly when a serial is listed, the client is created, its info names the device and the file service starts; the success carries that name |
| PyAfcTk.ConnectNeverFallsBack | pyafc.py:113-139 | after a success the file cache is the listing of `/`, emptied when it failed |
| PyAfcTk.AppGrid | pyafc.py:421-456 | only the app cache changes; no client: nothing at all |
| PyAfcTk.AppGridShows | pyafc.py:441-453 | the cache path shows the cache and leaves it sorted; a failed fetch empties it and shows the error label and box |
| PyAfcTk.UninstallReport | pyafc.py:556-567 | a status line, then the "Done" box iff the uninstall succeeded (else the error box), then "Uninstall finished." |
| PyAfcTk.FetchedGrid | pyafc.py:450-453 | the grid of the fetch, followed by the error box after a failure |
| PyAfcTk.DeviceLogic.constructor | pyafc.py:46-54 | no client or session, path `/`, not jailbroken, empty caches, no syslog thread |
| PyAfcTk.DeviceLogic.ConnectDevice | pyafc.py:61-161 | the new fields and events are those of `Connect` |
| PyAfcTk.DeviceLogic.StartAfcService | pyafc.py:193-217 | the new fields are those of `StartAfc` |
| PyAfcTk.DeviceLogic.PreloadFiles | pyafc.py:119-139 | the path and listing are those of `Preload` |
| PyAfcTk.DeviceLogic.GetFileListSync | pyafc.py:228-259 | the result is `StatListing` of the session and path |
| PyAfcTk.DeviceLogic.BrowseToPath | pyafc.py:262-281 | without AFC only the "AFC not ready" listing; else the path changes for a non-empty argument and is shown and listed |
| PyAfcTk.DeviceLogic.OnFileDoubleClick | pyafc.py:300-329 | only a selected `[FOLDER] ` row browses, to the joined path; only the path changes, and without a session only "AFC not ready" is shown |
| PyAfcTk.DeviceLogic.GoUpDirectory | pyafc.py:331-339 | refused as `GoUpStripped` says; otherwise browses to the parent: only the path changes, and without a session only "AFC not ready" is shown |
| PyAfcTk.DeviceLogic.UploadFiles | pyafc.py:344-361 | fields unchanged; a status line per attempted file, then "Done" and refresh only after all pushes, else one error |
| PyAfcTk.DeviceLogic.DownloadFiles | pyafc.py:363-396 | fields unchanged; warnings for an empty or folders-only selection; else the pull batch and "Done" only after all pulls |
| PyAfcTk.DeviceLogic.GetAppListSync | pyafc.py:398-419 | the result is `FetchRecords` of the client |
| PyAfcTk.DeviceLogic.ListApplications | pyafc.py:421-481 | the new fields and events are those of `AppGrid` |
| PyAfcTk.DeviceLogic.UninstallAppAction | pyafc.py:552-569 | nothing without the confirmations; else the uninstall report followed by the grid refresh, whatever the outcome |
| PyAfcTk.DeviceLogic.ToggleSyslogStream | pyafc.py:697-729 | a live stream is stopped; no client gives the error box; else the stream is started with its button caption |
| PyAfcTk.DeviceLogic.SyslogTask | pyafc.py:711-725 | the stream output as events, ending with the caption reset, and the thread no longer alive |
| PyAfcTk.Gui.constructor | pyafc.py:732-760 | not connecting, the waiting label reads "Waiting...", no events |
| PyAfcTk.Gui.StartDeviceListener | pyafc.py:817-847 | connecting iff a device was handed off; "Waiting..." after an empty poll; one scheduled connection on hand-off |
| PySide6Afc.Waiting | pyside6afc.py:197 | one "Waiting for device..." line per empty poll |
| PySide6Afc.LogLines | pyside6afc.py:384 | one log line per attempted item |
| PySide6Afc.StartAfc | pyside6afc.py:322-331 | only session, mode and path change; with a session the path is `/` and jailbroken iff `/private` lists |
| PySide6Afc.Connect | pyside6afc.py:218-286 | exactly one outcome first, followed at most by a close; a failed attach reports its text and closes as `AttachTo` says, leaving the state; success carries the listing of `/` as is |
| PySide6Afc.ConnectSucceedsIff | pyside6afc.py:226-278 | success iff the client is created, names the device and the file service starts |
| PySide6Afc.Upload | pyside6afc.py:379-388 | only the path may change; no AFC gives only the error |
| PySide6Afc.UploadAllOrNothing | pyside6afc.py:379-388 | the listing of `dest` is sent iff every push succeeded, after "Done", and `dest` becomes the path |
| PySide6Afc.UploadFailureReport | pyside6afc.py:382-388 | a failed upload logs up to the failing file, ends with that push's error and does not re-list |
| PySide6Afc.Download | pyside6afc.py:390-398 | no AFC gives only the error |
| PySide6Afc.DownloadAllOrNothing | pyside6afc.py:390-398 | "Done" iff every pull succeeded; otherwise the first failing pull's error |
| PySide6Afc.Uninstall | pyside6afc.py:409-416 | only the cache may change; no client gives only the error |
| PySide6Afc.UninstallRefreshesOnSuccess | pyside6afc.py:411-416 | the app list is sent iff the removal went through |
| PySide6Afc.PowerEvents | pyside6afc.py:446-471 | no client: only the error; else the "sending" line first |
| PySide6Afc.DisconnectOnlyOnSuccess | pyside6afc.py:446-471 | a disconnect is sent iff the call succeeded, after the finished message; a failure ends with its error |
| PySide6Afc.BracketFileDropped | pyside6afc.py:817 | a file named `[FOLDER]notes.txt` is dropped though it is not a folder row |
| PySide6Afc.ScreenshotPath | pyside6afc.py:977 | the path always ends with `.png`, and `.png` is appended only when missing |
| PySide6Afc.ScreenshotPathIdempotent | pyside6afc.py:977 | applying the suffix rule twice changes nothing more |
| PySide6Afc.DeviceLogic.constructor | pyside6afc.py:175-183 | no client or session, path `/`, flags clear |
| PySide6Afc.DeviceLogic.StartDeviceListener | pyside6afc.py:185-203 | a hand-off connects to the first serial; empty polls log "Waiting for device..."; an error is a failed connection |
| PySide6Afc.DeviceLogic.StopAllActivity | pyside6afc.py:205-216 | both stop flags set, client and session cleared, a close only when there was a client |
| PySide6Afc.DeviceLogic.ConnectToDevice | pyside6afc.py:218-286 | the new fields and events are those of `Connect` |
| PySide6Afc.DeviceLogic.StartAfcService | pyside6afc.py:322-331 | the new fields are those of `StartAfc` |
| PySide6Afc.DeviceLogic.GetFileListSync | pyside6afc.py:333-351 | the result is `StatListing` of the session and path |
| PySide6Afc.DeviceLogic.FetchFileList | pyside6afc.py:353-357 | no AFC: the "AFC not ready" listing, path unchanged; else the path is set first and its listing sent |
| PySide6Afc.DeviceLogic.GetAppListSync | pyside6afc.py:359-372 | the result is `FetchRecords` of the client |
| PySide6Afc.DeviceLogic.FetchAppList | pyside6afc.py:374-377 | the fetched records replace the cache and are sent with the error |
| PySide6Afc.DeviceLogic.UploadFiles | pyside6afc.py:379-388 | the new fields and events are those of `Upload` |
| PySide6Afc.DeviceLogic.DownloadFiles | pyside6afc.py:390-398 | fields unchanged; events are those of `Download` |
| PySide6Afc.DeviceLogic.UninstallApp | pyside6afc.py:409-416 | the new fields and events are those of `Uninstall` |
| PySide6Afc.DeviceLogic.RebootDevice | pyside6afc.py:446-453 | fields unchanged; events are `PowerEvents(Reboot, client)` |
| PySide6Afc.DeviceLogic.ShutdownDevice | pyside6afc.py:455-462 | fields unchanged; events are `PowerEvents(Shutdown, client)` |
| PySide6Afc.DeviceLogic.EnterRecovery | pyside6afc.py:464-471 | fields unchanged; events are `PowerEvents(Recovery, client)` |
| PySide6Afc.DeviceLogic.StartSyslog | pyside6afc.py:473-487 | refused while alive; no client gives the error; else the thread starts with the flag cleared |
| PySide6Afc.DeviceLogic.SyslogTask | pyside6afc.py:477-485 | the stream output as events, ending with `syslog_stopped`, and the thread no longer alive |
| PySide6Afc.DeviceLogic.StopSyslog | pyside6afc.py:489-492 | only the syslog stop flag is set |
| PySide6Afc.Gui.constructor | pyside6afc.py:573 | the window holds the logic that `start_device_listener` created |
| PySide6Afc.GoUpReachesHandover | pyside6afc.py:786-790 | a jailed go-up from `/DCIM` passes the check and reaches the hand-over to the parent `/` |
| PySide6Afc.DownloadReachesHandover | pyside6afc.py:814-821 | a selection holding the file `notes.txt` keeps it, so the download reaches its hand-over |
| PySide6Afc.UninstallReachesHandover | pyside6afc.py:923-929 | a confirmed uninstall of `org.notes` reaches its hand-over without the system-app question |
| PySide6Afc.Gui.Dispatch | pyafc.py:56-59 | the intended hand-over runs the request on the logic: a fetch sets the path and lists it (or sends "not ready"), a download is `Download`, an uninstall is `Uninstall` |
| PySide6Afc.Gui.OnFileGoUp | pyside6afc.py:786-790 | as written: refused (no hand-over) as `GoUpStripped` says; otherwise it raises `AttributeError` at the hand-over of the parent, and the logic is untouched |
| PySide6Afc.Gui.OnFileGoUpDispatched | pyside6afc.py:786-790 | as intended: refused as `GoUpStripped` says; otherwise the parent is fetched and becomes the path, or "not ready" without a session |
| PySide6Afc.Gui.OnFileDownload | pyside6afc.py:814-821 | as written: an empty or folders-only selection gives its error; a cancelled folder does nothing; otherwise it raises `AttributeError` at the hand-over of the kept rows and nothing is pulled; no field changes |
| PySide6Afc.Gui.OnFileDownloadDispatched | pyside6afc.py:814-821 | as intended: the same warnings, then the download of the kept rows into the chosen folder |
| PySide6Afc.Gui.OnAppUninstall | pyside6afc.py:923-929 | as written: no hand-over without the confirmations (and the system-app one for `com.apple.` ids); with them it raises `AttributeError` at the hand-over and nothing is uninstalled |
| PySide6Afc.Gui.OnAppUninstallDispatched | pyside6afc.py:923-929 | as intended: nothing without the confirmations; with them the uninstall of that app |

## Findings

| source | as written | input that shows it | evidently intended | confidence | as-written member | corrected member |
|---|---|---|---|---|---|---|
| pyside6afc.py:790 | `self.logic.run_in_thread(...)` on a `DeviceLogic` that has no `run_in_thread` raises `AttributeError` | jailed session at `/DCIM`, Up (`PySide6Afc.GoUpReachesHandover`) | fetch the parent `/` and make it the current path | not executed | PySide6Afc.Gui.OnFileGoUp | PySide6Afc.Gui.OnFileGoUpDispatched |
| pyside6afc.py:821 | the same lookup raises before any pull | selection `["notes.txt"]`, a folder chosen (`PySide6Afc.DownloadReachesHandover`) | download the kept rows into the folder | not executed | PySide6Afc.Gui.OnFileDownload | PySide6Afc.Gui.OnFileDownloadDispatched |
| pyside6afc.py:929 | the same lookup raises before the uninstall | `org.notes`, confirmed (`PySide6Afc.UninstallReachesHandover`) | uninstall the app | not executed | PySide6Afc.Gui.OnAppUninstall | PySide6Afc.Gui.OnAppUninstallDispatched |

## Left out

- Everything inside pymobiledevice3 (pairing, usbmux, the AFC protocol, the
  services). Each call is an oracle and can fail.
- Threads, `after` and Qt signals: a task that is started is taken to
  complete in sequence. The stop flags are given as the step at which a
  loop first sees them set. Where `run_in_thread`'s wrapper is never
  called, or the method does not exist, no task starts; that wiring lives
  in interface code outside the model, except for the three `pyside6afc.py`
  handlers above.
- Sleeps, time and widget construction, styling and existence checks
  (`winfo_exists`, `TclError`). Dialogs are parameters.
- Exceptions are shown by their message. How `str(e)` renders a library
  exception is not modelled.
- `str.lower` lowers ASCII letters only; Unicode case folding is not
  modelled.
- `os.path` is modelled with POSIX semantics; the Windows `ntpath` rules
  are not.
- `pyafc.py`: `get_device_info`, `take_screenshot`, `get_battery_info`,
  `explore_app_documents`, the power actions and `install_app`. Only the
  file, app, grid, uninstall, syslog and connection logic is modelled.
- `pyside6afc.py`: `install_app`, `explore_app_documents`,
  `take_screenshot`, `get_battery_info`, `get_formatted_device_info`,
  `refresh_device_info` and `on_toggle_syslog`, which are device-service
  pass-throughs or interface code. Of `on_take_screenshot` only the suffix
  rule is modelled.
- `main.py`: `connect_device` and `get_device_info`.
- `pyafc/core.py`, `pyafc/gui.py`, `pyafc/utils.py` and
  `pyafc/__main__.py` are not part of this model. Their logic is a library
  call, button wiring or a thread spawn. `gui.py`'s `on_file_selection`
  repeats `main.py`'s, which is modelled as `Listing.DownloadEnabled`.
- JSON and bytes formatting of device information.
- The text of the device-info error messages after their fixed prefix (the
  `!r` of the offending value).
- Window centring and the other floating-point layout code. The grid's
  `int(width / 110)` is modelled as integer division on the non-negative
  width it is applied to.
- PyAfcTk.Connect: the log lines written during the handshake are not
  modelled; the contract covers the outcome events and the state.
- PySide6Afc.Connect: the `log_message` lines of the handshake are not
  part of the event trace; only the outcome and the close are.
