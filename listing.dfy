/** Directory listing: each entry of `listdir(path)` other than `.` and `..`
    is classified as a folder (shown as `[FOLDER] name`) or a file, and the
    view shows the sorted folders before the sorted files, or a single
    `Error: ...` row. Two classifiers exist: one asks `stat` and falls back
    to `listdir` on the child (pyafc.py, pyside6afc.py), the other asks
    `get_file_info` (main.py, pyafc/file_logic.py). */
module Listing {
  import opened Device
  import opened Text
  import opened Paths
  import opened Ordering

  const FolderPrefix: string := "[FOLDER] "
  const UnknownPrefix: string := "[???] "
  const ErrorPrefix: string := "Error: "
  /** The error `_get_file_list_sync` reports when there is no AFC session. */
  const ServiceNotReady: string := "AFC service not ready"
  /** The error the listing views are given when there is no AFC session. */
  const NotReady: string := "AFC not ready"
  const DirFormat: string := "S_IFDIR"

  /** What one directory entry contributes to the listing. */
  datatype Entry =
    | Skip                    // `.` and `..`
    | FolderEntry(name: string)
    | FileEntry(row: string)
    | Abort(fault: Fault)     // an exception that ends the whole listing

  /** The `(folders, files, error)` triple; `error` is the text of the
      exception, as the views print it. */
  datatype Listing = Listing(folders: seq<string>, files: seq<string>, error: Option<string>)

  /** The listing shown or sent when there is no file service: no rows but
      the "AFC not ready" error. */
  const NotReadyListing: Listing := Listing([], [], Some(NotReady))

  predicate IsDotEntry(item: string) {
    item == "." || item == ".."
  }

  /** What one entry does to the listing of the entries after it. */
  function Cons(e: Entry, rest: Listing): Listing {
    match e
    case Skip => rest
    case FolderEntry(n) => Listing([FolderPrefix + n] + rest.folders, rest.files, rest.error)
    case FileEntry(r) => Listing(rest.folders, [r] + rest.files, rest.error)
    case Abort(f) => Listing([], [], Some(f.message))
  }

  /** The loop over the entries, as a function: folders and files in the
      order met; an abort keeps what was collected before it. */
  function ScanOf(items: seq<string>, cls: string -> Entry): Listing
    decreases |items|
  {
    if items == [] then Listing([], [], None)
    else Cons(cls(items[0]), ScanOf(items[1..], cls))
  }

  lemma ScanAt(items: seq<string>, i: nat, cls: string -> Entry)
    requires i < |items|
    ensures ScanOf(items[i..], cls) == Cons(cls(items[i]), ScanOf(items[i + 1..], cls))
  {
    assert items[i..][0] == items[i] && items[i..][1..] == items[i + 1..];
  }

  /** The lists collected so far, followed by the listing of the rest. */
  function Join(folders: seq<string>, files: seq<string>, rest: Listing): Listing {
    Listing(folders + rest.folders, files + rest.files, rest.error)
  }

  /** One step of the loop: appending what an entry contributes keeps the
      collected lists joined to the listing of the remaining entries. */
  lemma JoinStep(folders: seq<string>, files: seq<string>, e: Entry, rest: Listing)
    ensures e.Skip? ==> Join(folders, files, Cons(e, rest)) == Join(folders, files, rest)
    ensures e.FolderEntry? ==>
      Join(folders, files, Cons(e, rest)) == Join(folders + [FolderPrefix + e.name], files, rest)
    ensures e.FileEntry? ==> Join(folders, files, Cons(e, rest)) == Join(folders, files + [e.row], rest)
    ensures e.Abort? ==> Join(folders, files, Cons(e, rest)) == Listing(folders, files, Some(e.fault.message))
  {
    if e.FolderEntry? {
      assert folders + ([FolderPrefix + e.name] + rest.folders) == (folders + [FolderPrefix + e.name]) + rest.folders;
    }
    if e.FileEntry? {
      assert files + ([e.row] + rest.files) == (files + [e.row]) + rest.files;
    }
    if e.Abort? {
      assert folders + [] == folders && files + [] == files;
    }
  }

  /** The entries that are not skipped, in order. */
  function NonSkipped(items: seq<string>, cls: string -> Entry): seq<string>
    decreases |items|
  {
    if items == [] then []
    else if cls(items[0]).Skip? then NonSkipped(items[1..], cls)
    else [items[0]] + NonSkipped(items[1..], cls)
  }

  /** `[x for x in items if x not in ('.', '..')]` */
  function Kept(items: seq<string>): (r: seq<string>)
    ensures forall x :: x in r <==> x in items && !IsDotEntry(x)
    decreases |items|
  {
    if items == [] then []
    else if IsDotEntry(items[0]) then Kept(items[1..])
    else [items[0]] + Kept(items[1..])
  }

  /** Dropping `.` and `..` keeps the other entries in order, each as
      often as it was listed: it works run by run, and one entry is kept
      exactly when it is not a dot entry. */
  lemma {:induction false} KeptConcat(a: seq<string>, b: seq<string>)
    ensures Kept(a + b) == Kept(a) + Kept(b)
    ensures Kept([]) == []
    ensures forall x :: Kept([x]) == if IsDotEntry(x) then [] else [x]
    decreases |a|
  {
    if a != [] {
      assert (a + b)[0] == a[0] && (a + b)[1..] == a[1..] + b;
      KeptConcat(a[1..], b);
    } else {
      assert a + b == b;
    }
    forall x ensures Kept([x]) == if IsDotEntry(x) then [] else [x] {
      assert [x][1..] == [];
    }
  }

  /** A listing has an error exactly when some entry aborts it. */
  lemma {:induction false} ScanErrorIffAbort(items: seq<string>, cls: string -> Entry)
    ensures ScanOf(items, cls).error.Some? <==> exists i :: 0 <= i < |items| && cls(items[i]).Abort?
    decreases |items|
  {
    if items != [] {
      ScanErrorIffAbort(items[1..], cls);
      if exists i :: 0 <= i < |items[1..]| && cls(items[1..][i]).Abort? {
        var i :| 0 <= i < |items[1..]| && cls(items[1..][i]).Abort?;
        assert cls(items[i + 1]).Abort?;
      }
      if exists i :: 0 <= i < |items| && cls(items[i]).Abort? {
        var i :| 0 <= i < |items| && cls(items[i]).Abort?;
        if i > 0 { assert cls(items[1..][i - 1]).Abort?; }
      }
    }
  }

  /** Without an abort, every entry that is not skipped lands in exactly one
      of the two lists: as `[FOLDER] name` among the folders or as its row
      among the files, and nothing else is in them. */
  lemma {:induction false} ScanPartition(items: seq<string>, cls: string -> Entry)
    requires ScanOf(items, cls).error == None
    ensures var l := ScanOf(items, cls);
      |l.folders| + |l.files| == |NonSkipped(items, cls)|
      && (forall x :: x in l.folders <==>
            exists i :: 0 <= i < |items| && cls(items[i]).FolderEntry? && x == FolderPrefix + cls(items[i]).name)
      && (forall x :: x in l.files <==>
            exists i :: 0 <= i < |items| && cls(items[i]).FileEntry? && x == cls(items[i]).row)
    decreases |items|
  {
    if items != [] {
      var tail := items[1..];
      assert !cls(items[0]).Abort?;
      ScanPartition(tail, cls);
      var l := ScanOf(items, cls);
      var r := ScanOf(tail, cls);
      forall x ensures x in l.folders <==>
        exists i :: 0 <= i < |items| && cls(items[i]).FolderEntry? && x == FolderPrefix + cls(items[i]).name
      {
        if x in l.folders {
          if cls(items[0]).FolderEntry? && x == FolderPrefix + cls(items[0]).name {
          } else {
            assert x in r.folders;
            var i :| 0 <= i < |tail| && cls(tail[i]).FolderEntry? && x == FolderPrefix + cls(tail[i]).name;
            assert items[i + 1] == tail[i];
          }
        }
        if exists i :: 0 <= i < |items| && cls(items[i]).FolderEntry? && x == FolderPrefix + cls(items[i]).name {
          var i :| 0 <= i < |items| && cls(items[i]).FolderEntry? && x == FolderPrefix + cls(items[i]).name;
          if i > 0 { assert tail[i - 1] == items[i]; }
        }
      }
      forall x ensures x in l.files <==>
        exists i :: 0 <= i < |items| && cls(items[i]).FileEntry? && x == cls(items[i]).row
      {
        if x in l.files {
          if cls(items[0]).FileEntry? && x == cls(items[0]).row {
          } else {
            assert x in r.files;
            var i :| 0 <= i < |tail| && cls(tail[i]).FileEntry? && x == cls(tail[i]).row;
            assert items[i + 1] == tail[i];
          }
        }
        if exists i :: 0 <= i < |items| && cls(items[i]).FileEntry? && x == cls(items[i]).row {
          var i :| 0 <= i < |items| && cls(items[i]).FileEntry? && x == cls(items[i]).row;
          if i > 0 { assert tail[i - 1] == items[i]; }
        }
      }
    }
  }

  /** A classifier that skips exactly the dot entries keeps exactly the
      entries `Kept` keeps. */
  lemma {:induction false} NonSkippedIsKept(items: seq<string>, cls: string -> Entry)
    requires forall x :: cls(x).Skip? <==> IsDotEntry(x)
    ensures NonSkipped(items, cls) == Kept(items)
    decreases |items|
  {
    if items != [] { NonSkippedIsKept(items[1..], cls); }
  }

  // ---- the stat-based classifier (pyafc.py, pyside6afc.py) ----

  /** The classification of one entry by `stat`, falling back to
      `listdir` on the child when `stat` raises a device error or an
      AttributeError. A non-device error of the fallback, or any other error
      of `stat`, propagates out of the loop. */
  function StatEntry(afc: Afc, dir: string, item: string): Entry {
    if IsDotEntry(item) then Skip
    else
      var fp := DevicePath(dir, item);
      match afc.stat(fp)
      case Ok(info) => if info.hasIfmt && info.dirMode then FolderEntry(item) else FileEntry(item)
      case Err(f) =>
        if IsDeviceFault(f) || f.kind == AttributeError then
          match afc.listdir(fp)
          case Ok(_) => FolderEntry(item)
          case Err(g) => if IsDeviceFault(g) then FileEntry(item) else Abort(g)
        else Abort(f)
  }

  function StatClassifier(afc: Afc, dir: string): string -> Entry {
    item => StatEntry(afc, dir, item)
  }

  /** `_get_file_list_sync(path)` */
  function StatListing(afc: Option<Afc>, path: string): Listing {
    match afc
    case None => Listing([], [], Some(ServiceNotReady))
    case Some(a) =>
      match a.listdir(path)
      case Err(f) => Listing([], [], Some(f.message))
      case Ok(items) => ScanOf(items, StatClassifier(a, path))
  }

  /** The stat classifier keeps an entry's own name, decides "folder" by a
      directory mode or, when `stat` fails in the caught way, by whether the
      child can be listed, and skips exactly `.` and `..`. */
  lemma StatEntryRule(afc: Afc, dir: string, item: string)
    ensures StatEntry(afc, dir, item).Skip? <==> IsDotEntry(item)
    ensures StatEntry(afc, dir, item).FolderEntry? ==> StatEntry(afc, dir, item).name == item
    ensures StatEntry(afc, dir, item).FileEntry? ==> StatEntry(afc, dir, item).row == item
    ensures !IsDotEntry(item) && afc.stat(DevicePath(dir, item)).Ok? ==>
      (StatEntry(afc, dir, item).FolderEntry? <==>
         afc.stat(DevicePath(dir, item)).value.hasIfmt && afc.stat(DevicePath(dir, item)).value.dirMode)
    ensures (!IsDotEntry(item) && afc.stat(DevicePath(dir, item)).Err?
      && (IsDeviceFault(afc.stat(DevicePath(dir, item)).fault) || afc.stat(DevicePath(dir, item)).fault.kind == AttributeError)) ==>
      (StatEntry(afc, dir, item).FolderEntry? <==> afc.listdir(DevicePath(dir, item)).Ok?)
  {
  }

  /** With no AFC session the listing is empty with the "not ready" error,
      and a failing top-level `listdir` gives empty lists and its error. */
  lemma StatListingErrors(afc: Option<Afc>, path: string)
    ensures afc.None? ==> StatListing(afc, path) == Listing([], [], Some(ServiceNotReady))
    ensures afc.Some? && afc.value.listdir(path).Err? ==>
      StatListing(afc, path) == Listing([], [], Some(afc.value.listdir(path).fault.message))
  {
  }

  /** A successful stat listing holds every entry but `.` and `..` exactly
      once: folder rows are `[FOLDER] ` and the name of an entry the
      classifier calls a folder, file rows are the names of the others. */
  lemma StatListingPartition(afc: Afc, path: string, items: seq<string>)
    requires afc.listdir(path) == Ok(items)
    requires StatListing(Some(afc), path).error == None
    ensures var l := StatListing(Some(afc), path);
      |l.folders| + |l.files| == |Kept(items)|
      && (forall x :: x in l.folders <==>
            exists i :: 0 <= i < |items| && !IsDotEntry(items[i])
              && StatEntry(afc, path, items[i]).FolderEntry? && x == FolderPrefix + items[i])
      && (forall x :: x in l.files <==>
            x in items && !IsDotEntry(x) && StatEntry(afc, path, x).FileEntry?)
  {
    var cls := StatClassifier(afc, path);
    forall x ensures cls(x).Skip? <==> IsDotEntry(x) { StatEntryRule(afc, path, x); }
    NonSkippedIsKept(items, cls);
    ScanPartition(items, cls);
    var l := StatListing(Some(afc), path);
    forall x ensures x in l.folders <==>
      exists i :: 0 <= i < |items| && !IsDotEntry(items[i])
        && StatEntry(afc, path, items[i]).FolderEntry? && x == FolderPrefix + items[i]
    {
      if x in l.folders {
        var i :| 0 <= i < |items| && cls(items[i]).FolderEntry? && x == FolderPrefix + cls(items[i]).name;
        StatEntryRule(afc, path, items[i]);
      }
      if exists i :: (0 <= i < |items| && !IsDotEntry(items[i])
        && StatEntry(afc, path, items[i]).FolderEntry? && x == FolderPrefix + items[i]) {
        var i :| 0 <= i < |items| && !IsDotEntry(items[i])
          && StatEntry(afc, path, items[i]).FolderEntry? && x == FolderPrefix + items[i];
        StatEntryRule(afc, path, items[i]);
        assert cls(items[i]).FolderEntry? && x == FolderPrefix + cls(items[i]).name;
      }
    }
    forall x ensures x in l.files <==> x in items && !IsDotEntry(x) && StatEntry(afc, path, x).FileEntry? {
      if x in l.files {
        var i :| 0 <= i < |items| && cls(items[i]).FileEntry? && x == cls(items[i]).row;
        StatEntryRule(afc, path, items[i]);
      }
      if x in items && !IsDotEntry(x) && StatEntry(afc, path, x).FileEntry? {
        var i :| 0 <= i < |items| && items[i] == x;
        StatEntryRule(afc, path, x);
        assert cls(items[i]).FileEntry? && x == cls(items[i]).row;
      }
    }
  }

  /** The loop of `_get_file_list_sync` (pyafc.py, pyside6afc.py): list the
      directory, then stat each entry, appending to `folders` or `files`. */
  method ListByStat(afc: Option<Afc>, path: string) returns (l: Listing)
    ensures l == StatListing(afc, path)
  {
    if afc.None? {
      return Listing([], [], Some(ServiceNotReady));
    }
    var a := afc.value;
    var top := a.listdir(path);
    if top.Err? {
      return Listing([], [], Some(top.fault.message));
    }
    var items := top.value;
    ghost var cls := StatClassifier(a, path);
    var folders: seq<string> := [];
    var files: seq<string> := [];
    var error: Option<string> := None;
    var i := 0;
    while i < |items|
      invariant 0 <= i <= |items|
      invariant error == None
      invariant Join(folders, files, ScanOf(items[i..], cls)) == ScanOf(items, cls)
    {
      var item := items[i];
      ScanAt(items, i, cls);
      JoinStep(folders, files, cls(item), ScanOf(items[i + 1..], cls));
      if item == "." || item == ".." {
        i := i + 1;
        continue;
      }
      assert cls(item) == StatEntry(a, path, item);
      var fp := DevicePath(path, item);
      var isDir := false;
      var st := a.stat(fp);
      if st.Ok? {
        isDir := st.value.hasIfmt && st.value.dirMode;
      } else if IsDeviceFault(st.fault) || st.fault.kind == AttributeError {
        var probe := a.listdir(fp);
        if probe.Ok? {
          isDir := true;
        } else if IsDeviceFault(probe.fault) {
          isDir := false;
        } else {
          error := Some(probe.fault.message);
          break;
        }
      } else {
        error := Some(st.fault.message);
        break;
      }
      if isDir {
        folders := folders + [FolderPrefix + item];
      } else {
        files := files + [item];
      }
      i := i + 1;
    }
    if error == None {
      assert items[i..] == [] && folders + [] == folders && files + [] == files;
    }
    l := Listing(folders, files, error);
  }

  // ---- the file-info classifier (main.py, pyafc/file_logic.py) ----

  /** The classification of one entry by `get_file_info`: a folder when its
      `st_ifmt` is `S_IFDIR`; an AfcError makes it a `[???] ` file row; any
      other error ends the listing. */
  function InfoEntry(afc: Afc, dir: string, item: string): Entry {
    if IsDotEntry(item) then Skip
    else
      match afc.fileInfo(DevicePath(dir, item))
      case Ok(info) => if info.ifmt == Some(DirFormat) then FolderEntry(item) else FileEntry(item)
      case Err(f) => if f.kind == AfcError then FileEntry(UnknownPrefix + item) else Abort(f)
  }

  function InfoClassifier(afc: Afc, dir: string): string -> Entry {
    item => InfoEntry(afc, dir, item)
  }

  /** The lists `browse_to_path` builds (main.py, pyafc/file_logic.py). */
  function InfoListing(afc: Afc, path: string): Listing {
    match afc.listdir(path)
    case Err(f) => Listing([], [], Some(f.message))
    case Ok(items) => ScanOf(items, InfoClassifier(afc, path))
  }

  /** The row an entry that is not a folder gets: its name when its info
      was read, `[???] ` and its name when reading it raised an AfcError. */
  predicate InfoFileRow(afc: Afc, dir: string, item: string, x: string) {
    var info := afc.fileInfo(DevicePath(dir, item));
    (info.Ok? && info.value.ifmt != Some(DirFormat) && x == item)
    || (info.Err? && info.fault.kind == AfcError && x == UnknownPrefix + item)
  }

  lemma InfoEntryRule(afc: Afc, dir: string, item: string, x: string)
    ensures InfoEntry(afc, dir, item).Skip? <==> IsDotEntry(item)
    ensures InfoEntry(afc, dir, item).FolderEntry? <==>
      (!IsDotEntry(item) && afc.fileInfo(DevicePath(dir, item)) == Ok(FileInfo(Some(DirFormat))))
    ensures InfoEntry(afc, dir, item).FolderEntry? ==> InfoEntry(afc, dir, item).name == item
    ensures (InfoEntry(afc, dir, item).FileEntry? && InfoEntry(afc, dir, item).row == x) <==>
      (!IsDotEntry(item) && InfoFileRow(afc, dir, item, x))
  {
  }

  /** A successful file-info listing holds every entry but `.` and `..`
      exactly once: a folder row for an `S_IFDIR` entry, a `[???] ` row for
      an entry whose info raised an AfcError, its plain name otherwise. */
  lemma InfoListingPartition(afc: Afc, path: string, items: seq<string>)
    requires afc.listdir(path) == Ok(items)
    requires InfoListing(afc, path).error == None
    ensures var l := InfoListing(afc, path);
      |l.folders| + |l.files| == |Kept(items)|
      && (forall x :: x in l.folders <==>
            exists i :: 0 <= i < |items| && !IsDotEntry(items[i])
              && afc.fileInfo(DevicePath(path, items[i])) == Ok(FileInfo(Some(DirFormat)))
              && x == FolderPrefix + items[i])
      && (forall x :: x in l.files <==>
            exists i :: 0 <= i < |items| && !IsDotEntry(items[i]) && InfoFileRow(afc, path, items[i], x))
  {
    var cls := InfoClassifier(afc, path);
    forall x ensures cls(x).Skip? <==> IsDotEntry(x) { InfoEntryRule(afc, path, x, x); }
    NonSkippedIsKept(items, cls);
    ScanPartition(items, cls);
    var l := InfoListing(afc, path);
    forall x ensures x in l.folders <==>
      exists i :: 0 <= i < |items| && !IsDotEntry(items[i])
        && afc.fileInfo(DevicePath(path, items[i])) == Ok(FileInfo(Some(DirFormat)))
        && x == FolderPrefix + items[i]
    {
      if x in l.folders {
        var i :| 0 <= i < |items| && cls(items[i]).FolderEntry? && x == FolderPrefix + cls(items[i]).name;
        InfoEntryRule(afc, path, items[i], x);
      }
      if exists i :: (0 <= i < |items| && !IsDotEntry(items[i])
        && afc.fileInfo(DevicePath(path, items[i])) == Ok(FileInfo(Some(DirFormat)))
        && x == FolderPrefix + items[i]) {
        var i :| 0 <= i < |items| && !IsDotEntry(items[i])
          && afc.fileInfo(DevicePath(path, items[i])) == Ok(FileInfo(Some(DirFormat)))
          && x == FolderPrefix + items[i];
        InfoEntryRule(afc, path, items[i], x);
        assert cls(items[i]).FolderEntry? && x == FolderPrefix + cls(items[i]).name;
      }
    }
    forall x ensures x in l.files <==>
      exists i :: 0 <= i < |items| && !IsDotEntry(items[i]) && InfoFileRow(afc, path, items[i], x)
    {
      if x in l.files {
        var i :| 0 <= i < |items| && cls(items[i]).FileEntry? && x == cls(items[i]).row;
        InfoEntryRule(afc, path, items[i], x);
      }
      if exists i :: 0 <= i < |items| && !IsDotEntry(items[i]) && InfoFileRow(afc, path, items[i], x) {
        var i :| 0 <= i < |items| && !IsDotEntry(items[i]) && InfoFileRow(afc, path, items[i], x);
        InfoEntryRule(afc, path, items[i], x);
        assert cls(items[i]).FileEntry? && x == cls(items[i]).row;
      }
    }
  }

  /** The loop of `browse_to_path` (main.py, pyafc/file_logic.py). */
  method ListByInfo(afc: Afc, path: string) returns (l: Listing)
    ensures l == InfoListing(afc, path)
  {
    var top := afc.listdir(path);
    if top.Err? {
      return Listing([], [], Some(top.fault.message));
    }
    var items := top.value;
    ghost var cls := InfoClassifier(afc, path);
    var folders: seq<string> := [];
    var files: seq<string> := [];
    var error: Option<string> := None;
    var i := 0;
    while i < |items|
      invariant 0 <= i <= |items|
      invariant error == None
      invariant Join(folders, files, ScanOf(items[i..], cls)) == ScanOf(items, cls)
    {
      var item := items[i];
      ScanAt(items, i, cls);
      JoinStep(folders, files, cls(item), ScanOf(items[i + 1..], cls));
      if item == "." || item == ".." {
        i := i + 1;
        continue;
      }
      assert cls(item) == InfoEntry(afc, path, item);
      var info := afc.fileInfo(DevicePath(path, item));
      if info.Ok? {
        if info.value.ifmt == Some(DirFormat) {
          folders := folders + [FolderPrefix + item];
        } else {
          files := files + [item];
        }
      } else if info.fault.kind == AfcError {
        files := files + [UnknownPrefix + item];
      } else {
        error := Some(info.fault.message);
        break;
      }
      i := i + 1;
    }
    if error == None {
      assert items[i..] == [] && folders + [] == folders && files + [] == files;
    }
    l := Listing(folders, files, error);
  }

  // ---- the view ----

  /** The rows a listing view shows: one `Error: ...` row, or the folders
      sorted case-insensitively followed by the files sorted the same way. */
  function Rows(l: Listing): (rows: seq<string>)
    ensures l.error.Some? ==> rows == [ErrorPrefix + l.error.value]
    ensures l.error.None? ==>
      |rows| == |l.folders| + |l.files|
      && multiset(rows[..|l.folders|]) == multiset(l.folders)
      && multiset(rows[|l.folders|..]) == multiset(l.files)
      && SortedBy(rows[..|l.folders|], Lower)
      && SortedBy(rows[|l.folders|..], Lower)
  {
    if l.error.Some? then [ErrorPrefix + l.error.value]
    else
      var fo := SortedCaseless(l.folders);
      var fi := SortedCaseless(l.files);
      assert (fo + fi)[..|l.folders|] == fo && (fo + fi)[|l.folders|..] == fi;
      fo + fi
  }

  /** In a listing without error every folder row comes before every file
      row and carries the folder prefix. */
  lemma FoldersFirst(l: Listing, i: nat)
    requires l.error.None? && (forall x :: x in l.folders ==> StartsWith(x, FolderPrefix))
    requires i < |l.folders|
    ensures i < |Rows(l)| && StartsWith(Rows(l)[i], FolderPrefix)
  {
    var rows := Rows(l);
    assert rows[i] in multiset(rows[..|l.folders|]);
  }

  // ---- the download selection ----

  /** The selected rows that do not start with `prefix`, in selection
      order: the files a download takes. */
  function WithoutPrefix(rows: seq<string>, prefix: string): (r: seq<string>)
    ensures |r| <= |rows|
    ensures forall x :: x in r <==> (x in rows && !StartsWith(x, prefix))
    decreases |rows|
  {
    if rows == [] then []
    else (if StartsWith(rows[0], prefix) then [] else [rows[0]]) + WithoutPrefix(rows[1..], prefix)
  }

  /** The filter keeps the selection order and every repeat: it works run
      by run, and one row is kept exactly when it lacks the prefix. */
  lemma {:induction false} WithoutPrefixConcat(a: seq<string>, b: seq<string>, prefix: string)
    ensures WithoutPrefix(a + b, prefix) == WithoutPrefix(a, prefix) + WithoutPrefix(b, prefix)
    ensures forall x :: WithoutPrefix([x], prefix) == if StartsWith(x, prefix) then [] else [x]
    decreases |a|
  {
    if a != [] {
      assert (a + b)[0] == a[0] && (a + b)[1..] == a[1..] + b;
      WithoutPrefixConcat(a[1..], b, prefix);
    } else {
      assert a + b == b;
    }
    forall x ensures WithoutPrefix([x], prefix) == if StartsWith(x, prefix) then [] else [x] {
      assert [x][1..] == [];
    }
  }

  /** Nothing is left exactly when every row carries the prefix. */
  lemma WithoutPrefixEmpty(rows: seq<string>, prefix: string)
    ensures WithoutPrefix(rows, prefix) == [] <==> forall i :: 0 <= i < |rows| ==> StartsWith(rows[i], prefix)
  {
    var r := WithoutPrefix(rows, prefix);
    if r != [] {
      assert r[0] in r;
    }
    if exists i :: 0 <= i < |rows| && !StartsWith(rows[i], prefix) {
      var i :| 0 <= i < |rows| && !StartsWith(rows[i], prefix);
      assert rows[i] in r;
    }
  }

  /** The `for i in selection` loop that collects the rows to download. */
  method CollectWithoutPrefix(rows: seq<string>, prefix: string) returns (r: seq<string>)
    ensures r == WithoutPrefix(rows, prefix)
  {
    r := [];
    var i := 0;
    while i < |rows|
      invariant 0 <= i <= |rows|
      invariant r + WithoutPrefix(rows[i..], prefix) == WithoutPrefix(rows, prefix)
    {
      var head: seq<string> := if StartsWith(rows[i], prefix) then [] else [rows[i]];
      assert rows[i..][0] == rows[i] && rows[i..][1..] == rows[i + 1..];
      assert WithoutPrefix(rows[i..], prefix) == head + WithoutPrefix(rows[i + 1..], prefix);
      assert r + WithoutPrefix(rows[i..], prefix) == (r + head) + WithoutPrefix(rows[i + 1..], prefix);
      r := r + head;
      i := i + 1;
    }
    assert rows[i..] == [];
  }

  /** The download button's loop: enabled as soon as one selected row is
      not a folder row. */
  method DownloadEnabled(rows: seq<string>) returns (enable: bool)
    ensures enable <==> WithoutPrefix(rows, FolderPrefix) != []
  {
    enable := false;
    for i := 0 to |rows|
      invariant forall j :: 0 <= j < i ==> StartsWith(rows[j], FolderPrefix)
    {
      if !StartsWith(rows[i], FolderPrefix) {
        assert rows[i] in WithoutPrefix(rows, FolderPrefix);
        return true;
      }
    }
    WithoutPrefixEmpty(rows, FolderPrefix);
  }
}
