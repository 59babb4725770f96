/** Installed applications as the two generations of the program present
    them. main.py and pyafc/app_logic.py show one text row per application,
    `name (vversion) - [type] - bundle`, and recover the bundle identifier
    and the name from a selected row by splitting it again; pyafc.py and
    pyside6afc.py keep `(name, version, type, bundle)` records for a grid. */
module AppRows {
  import opened Device
  import opened Text
  import opened Ordering

  const Sep: string := " - "
  const VersionMark: string := " (v"
  const UnknownApp: string := "Unknown App"
  const NoVersion: string := "N/A"
  const UserType: string := "User"
  const SystemTag: string := "[System]"
  const ApplePrefix: string := "com.apple."
  const NoApps: string := "No applications found."
  const ListError: string := "Error listing applications."
  const NotConnected: string := "Client not connected"

  const DisplayNameKey: string := "CFBundleDisplayName"
  const VersionKey: string := "CFBundleShortVersionString"
  const TypeKey: string := "ApplicationType"

  /** `info.get(key, default)` */
  function Get(info: map<string, string>, key: string, default: string): string {
    if key in info then info[key] else default
  }

  // ---- text rows (main.py, pyafc/app_logic.py) ----

  /** The f-string `"{name} (v{version}) - [{type}] - {bundle}"`. */
  function FormatRow(name: string, version: string, appType: string, bundleId: string): string {
    name + VersionMark + version + ") - [" + appType + "]" + Sep + bundleId
  }

  /** The row of one application, with the listing's defaults. */
  function EntryRow(e: AppEntry): string {
    FormatRow(Get(e.info, DisplayNameKey, UnknownApp), Get(e.info, VersionKey, NoVersion),
              Get(e.info, TypeKey, UserType), e.bundleId)
  }

  /** The rows the listing loop appends, in the dictionary's order. */
  function EntryRows(apps: seq<AppEntry>): (rows: seq<string>)
    ensures |rows| == |apps|
    ensures forall i :: 0 <= i < |apps| ==> rows[i] == EntryRow(apps[i])
  {
    seq(|apps|, i requires 0 <= i < |apps| => EntryRow(apps[i]))
  }

  /** The `for bundle_id, info in apps.items()` loop of `list_applications`. */
  method BuildRows(apps: seq<AppEntry>) returns (rows: seq<string>)
    ensures rows == EntryRows(apps)
  {
    rows := [];
    for i := 0 to |apps|
      invariant rows == EntryRows(apps[..i])
    {
      assert apps[..i + 1] == apps[..i] + [apps[i]];
      rows := rows + [EntryRow(apps[i])];
    }
    assert apps[..|apps|] == apps;
  }

  /** The list box after `list_applications`: the error row, the empty
      row, or every application's row sorted case-insensitively. */
  function AppListView(apps: Result<seq<AppEntry>>): (rows: seq<string>)
    ensures apps.Err? ==> rows == [ListError]
    ensures apps == Ok([]) ==> rows == [NoApps]
    ensures apps.Ok? && apps.value != [] ==>
      |rows| == |apps.value| && multiset(rows) == multiset(EntryRows(apps.value))
      && forall i, j :: 0 <= i < j < |rows| ==> LexLe(Lower(rows[i]), Lower(rows[j]))
  {
    match apps
    case Err(_) => [ListError]
    case Ok(entries) => if entries == [] then [NoApps] else SortedCaseless(EntryRows(entries))
  }

  /** `row.split(" - ")[-1]` */
  function BundleIdOf(row: string): string {
    Last(Split(row, Sep))
  }

  /** `row.split(" (v")[0]` */
  function NameOf(row: string): string {
    Split(row, VersionMark)[0]
  }

  /** Splitting on " - " puts everything after the last separator in the
      last piece, provided the text before it ends with `]` (so no match
      can straddle it) and the tail holds no separator. */
  lemma {:induction false} SplitLastAfter(q: string, b: string, cur: string)
    requires q == [] || q[|q| - 1] == ']'
    requires !Contains(b, Sep)
    ensures Last(SplitFrom(q + Sep + b, Sep, cur)) == b
    decreases |q|
  {
    var s := q + Sep + b;
    if q == [] {
      assert s == Sep + b;
      assert s[..|Sep|] == Sep && s[|Sep|..] == b;
      SplitAbsent(b, Sep, []);
      assert [] + b == b;
    } else if |q| >= 3 && StartsWith(s, Sep) {
      assert s[|Sep|..] == q[3..] + Sep + b;
      SplitLastAfter(q[3..], b, []);
    } else {
      assert !StartsWith(s, Sep) by {
        if |q| < 3 {
          assert s[|q| - 1] == ']';
          assert s[..3][|q| - 1] != Sep[|q| - 1];
        }
      }
      assert s[1..] == q[1..] + Sep + b;
      SplitLastAfter(q[1..], b, cur + [s[0]]);
    }
  }

  /** Splitting on " (v" ends the first piece where the version mark
      begins, provided the name before it holds no mark. */
  lemma {:induction false} SplitFirstBefore(name: string, t: string, cur: string)
    requires !Contains(name, VersionMark) && StartsWith(t, VersionMark)
    ensures SplitFrom(name + t, VersionMark, cur)[0] == cur + name
    decreases |name|
  {
    var s := name + t;
    if name == [] {
      assert s == t;
      assert cur + name == cur;
    } else {
      assert !StartsWith(s, VersionMark) by {
        if |name| >= 3 {
          assert s[..3] == name[..3];
        } else {
          assert s[|name|] == t[0] == ' ';
          assert s[..3][|name|] != VersionMark[|name|];
        }
      }
      assert s[1..] == name[1..] + t;
      SplitFirstBefore(name[1..], t, cur + [name[0]]);
      assert cur + [name[0]] + name[1..] == cur + name;
    }
  }

  /** A row splits back into the bundle identifier it was made from, when
      that identifier holds no " - ". */
  lemma BundleIdRoundTrip(name: string, version: string, appType: string, bundleId: string)
    requires !Contains(bundleId, Sep)
    ensures BundleIdOf(FormatRow(name, version, appType, bundleId)) == bundleId
  {
    var q := name + VersionMark + version + ") - [" + appType + "]";
    assert FormatRow(name, version, appType, bundleId) == q + Sep + bundleId;
    SplitLastAfter(q, bundleId, []);
  }

  /** A row splits back into the name it was made from, when that name
      holds no " (v". */
  lemma NameRoundTrip(name: string, version: string, appType: string, bundleId: string)
    requires !Contains(name, VersionMark)
    ensures NameOf(FormatRow(name, version, appType, bundleId)) == name
  {
    var t := VersionMark + version + ") - [" + appType + "]" + Sep + bundleId;
    assert FormatRow(name, version, appType, bundleId) == name + t;
    assert t[..|VersionMark|] == VersionMark;
    SplitFirstBefore(name, t, []);
    assert [] + name == name;
  }

  /** The uninstall loop's guard: a core system app is one whose bundle
      identifier holds `com.apple.` and whose row holds `[System]`. */
  predicate IsProtectedRow(row: string) {
    Contains(BundleIdOf(row), ApplePrefix) && Contains(row, SystemTag)
  }

  /** The row of an Apple system app is protected. */
  lemma SystemAppProtected(e: AppEntry)
    requires !Contains(e.bundleId, Sep) && Contains(e.bundleId, ApplePrefix)
    requires Get(e.info, TypeKey, UserType) == "System"
    ensures IsProtectedRow(EntryRow(e))
  {
    var name := Get(e.info, DisplayNameKey, UnknownApp);
    var version := Get(e.info, VersionKey, NoVersion);
    var row := EntryRow(e);
    BundleIdRoundTrip(name, version, "System", e.bundleId);
    var k := |name + VersionMark + version + ") - "|;
    assert row == name + VersionMark + version + ") - " + SystemTag + Sep + e.bundleId;
    assert row[k..k + |SystemTag|] == SystemTag;
    ContainsAt(row, SystemTag, k);
  }

  /** The row of an application outside `com.apple.` is never protected,
      whatever its type. */
  lemma OtherAppNotProtected(e: AppEntry)
    requires !Contains(e.bundleId, Sep) && !Contains(e.bundleId, ApplePrefix)
    ensures !IsProtectedRow(EntryRow(e))
  {
    BundleIdRoundTrip(Get(e.info, DisplayNameKey, UnknownApp), Get(e.info, VersionKey, NoVersion),
                      Get(e.info, TypeKey, UserType), e.bundleId);
  }

  /** The outcome of the selection loop of `uninstall_apps`: the bundle
      identifiers and names to uninstall, and the names skipped with a
      warning. */
  datatype Selection = Selection(bundleIds: seq<string>, names: seq<string>, skipped: seq<string>)

  function Select(rows: seq<string>): (s: Selection)
    ensures |s.bundleIds| == |s.names|
    ensures |s.bundleIds| + |s.skipped| == |rows|
    decreases |rows|
  {
    if rows == [] then Selection([], [], [])
    else
      var r := Select(rows[..|rows| - 1]);
      var row := rows[|rows| - 1];
      if IsProtectedRow(row) then Selection(r.bundleIds, r.names, r.skipped + [NameOf(row)])
      else Selection(r.bundleIds + [BundleIdOf(row)], r.names + [NameOf(row)], r.skipped)
  }

  /** The selection of one row then another: each list of the first
      followed by the same list of the second. */
  function Concat(a: Selection, b: Selection): Selection {
    Selection(a.bundleIds + b.bundleIds, a.names + b.names, a.skipped + b.skipped)
  }

  /** One row: a protected row is skipped under its name, any other row is
      uninstalled under its bundle identifier and name. */
  lemma SelectOne(row: string)
    ensures IsProtectedRow(row) ==> Select([row]) == Selection([], [], [NameOf(row)])
    ensures !IsProtectedRow(row) ==> Select([row]) == Selection([BundleIdOf(row)], [NameOf(row)], [])
  {
  }

  /** Selecting two runs of rows is selecting each in turn: with
      `SelectOne`, every unprotected row is uninstalled and every protected
      one skipped, each exactly once and in selection order. */
  lemma {:induction false} SelectConcat(a: seq<string>, b: seq<string>)
    ensures Select(a + b) == Concat(Select(a), Select(b))
    decreases |b|
  {
    if b == [] {
      assert a + b == a;
    } else {
      var b0 := b[..|b| - 1];
      assert (a + b)[..|a + b| - 1] == a + b0;
      assert (a + b)[|a + b| - 1] == b[|b| - 1];
      SelectConcat(a, b0);
    }
  }

  /** `b` and `n` are the identifier and name of an unprotected row. */
  predicate FromUnprotectedRow(rows: seq<string>, b: string, n: string) {
    exists i :: 0 <= i < |rows| && !IsProtectedRow(rows[i]) && b == BundleIdOf(rows[i]) && n == NameOf(rows[i])
  }

  /** Every selected identifier and name comes from one unprotected row. */
  lemma {:induction false} SelectFromUnprotected(rows: seq<string>)
    ensures forall k :: 0 <= k < |Select(rows).bundleIds| ==>
      FromUnprotectedRow(rows, Select(rows).bundleIds[k], Select(rows).names[k])
    decreases |rows|
  {
    if rows != [] {
      var init := rows[..|rows| - 1];
      SelectFromUnprotected(init);
      var s := Select(rows);
      var r := Select(init);
      forall k | 0 <= k < |s.bundleIds| ensures FromUnprotectedRow(rows, s.bundleIds[k], s.names[k]) {
        if k < |r.bundleIds| {
          assert FromUnprotectedRow(init, r.bundleIds[k], r.names[k]);
          var i :| 0 <= i < |init| && !IsProtectedRow(init[i])
            && r.bundleIds[k] == BundleIdOf(init[i]) && r.names[k] == NameOf(init[i]);
          assert init[i] == rows[i];
        } else {
          var i := |rows| - 1;
          assert !IsProtectedRow(rows[i]) && s.bundleIds[k] == BundleIdOf(rows[i]) && s.names[k] == NameOf(rows[i]);
        }
      }
    }
  }

  /** Nothing is left to uninstall exactly when every selected row is
      protected. */
  lemma {:induction false} SelectEmptyIff(rows: seq<string>)
    ensures Select(rows).bundleIds == [] <==> forall i :: 0 <= i < |rows| ==> IsProtectedRow(rows[i])
    decreases |rows|
  {
    if rows != [] {
      var init := rows[..|rows| - 1];
      SelectEmptyIff(init);
      assert forall i :: 0 <= i < |init| ==> init[i] == rows[i];
    }
  }

  /** The `for i in selected_indices` loop of `uninstall_apps`. */
  method SelectForUninstall(rows: seq<string>) returns (s: Selection)
    ensures s == Select(rows)
  {
    var bundleIds: seq<string> := [];
    var names: seq<string> := [];
    var skipped: seq<string> := [];
    for i := 0 to |rows|
      invariant Selection(bundleIds, names, skipped) == Select(rows[..i])
    {
      assert rows[..i + 1][..i] == rows[..i];
      var row := rows[i];
      var bundleId := BundleIdOf(row);
      var name := NameOf(row);
      if Contains(bundleId, ApplePrefix) && Contains(row, SystemTag) {
        skipped := skipped + [name];
        continue;
      }
      bundleIds := bundleIds + [bundleId];
      names := names + [name];
    }
    assert rows[..|rows|] == rows;
    s := Selection(bundleIds, names, skipped);
  }

  // ---- records (pyafc.py, pyside6afc.py) ----

  datatype AppRecord = AppRecord(name: string, version: string, appType: string, bundleId: string)

  /** One record; the name falls back to the bundle identifier. */
  function RecordOf(e: AppEntry): AppRecord {
    AppRecord(Get(e.info, DisplayNameKey, e.bundleId), Get(e.info, VersionKey, NoVersion),
              Get(e.info, TypeKey, UserType), e.bundleId)
  }

  /** A record keeps its application's bundle identifier and is named by
      its display name, or by that identifier when it has none. */
  lemma RecordNames(e: AppEntry)
    ensures RecordOf(e).bundleId == e.bundleId
    ensures DisplayNameKey in e.info ==> RecordOf(e).name == e.info[DisplayNameKey]
    ensures DisplayNameKey !in e.info ==> RecordOf(e).name == e.bundleId
  {
  }

  function Records(apps: seq<AppEntry>): (rs: seq<AppRecord>)
    ensures |rs| == |apps|
    ensures forall i :: 0 <= i < |apps| ==> rs[i] == RecordOf(apps[i])
  {
    seq(|apps|, i requires 0 <= i < |apps| => RecordOf(apps[i]))
  }

  /** The outcome of an installation-proxy call: opening the service, then
      the call itself. */
  function ProxyCall(lock: Lockdown, call: string -> Status, arg: string): (st: Status)
    ensures lock.installProxy.Failed? ==> st == lock.installProxy
    ensures lock.installProxy.Done? ==> st == call(arg)
  {
    if lock.installProxy.Failed? then lock.installProxy else call(arg)
  }

  /** The result of `_get_app_list_sync`: the records and an error text.
      Without a client the error is "Client not connected"; a failing
      service leaves no records and its error. */
  function FetchRecords(client: Option<Lockdown>): (r: (seq<AppRecord>, Option<string>))
    ensures client.None? ==> r == ([], Some(NotConnected))
    ensures client.Some? && client.value.apps.Err? ==> r == ([], Some(client.value.apps.fault.message))
    ensures client.Some? && client.value.apps.Ok? ==>
      (r.1 == None && |r.0| == |client.value.apps.value|
       && forall i :: 0 <= i < |r.0| ==> r.0[i].bundleId == client.value.apps.value[i].bundleId)
    ensures client.Some? && client.value.apps.Ok? ==> r.0 == Records(client.value.apps.value)
  {
    if client.None? then ([], Some(NotConnected))
    else match client.value.apps
      case Err(f) => ([], Some(f.message))
      case Ok(entries) => (Records(entries), None)
  }

  /** The record-collecting loop of `_get_app_list_sync`. */
  method CollectRecords(apps: seq<AppEntry>) returns (rs: seq<AppRecord>)
    ensures rs == Records(apps)
  {
    rs := [];
    for i := 0 to |apps|
      invariant rs == Records(apps[..i])
    {
      rs := rs + [RecordOf(apps[i])];
    }
    assert apps[..|apps|] == apps;
  }

  /** The sort key `x[0].lower()`. */
  function RecordKey(r: AppRecord): string {
    Lower(r.name)
  }

  /** Removing one app goes through a second confirmation when its bundle
      identifier holds `com.apple.` (pyafc.py, pyside6afc.py). */
  function UninstallConfirmed(bundleId: string, confirmed: bool, confirmedSystem: bool): (go: bool)
    ensures go ==> confirmed
    ensures !Contains(bundleId, ApplePrefix) ==> (go <==> confirmed)
    ensures Contains(bundleId, ApplePrefix) ==> (go <==> confirmed && confirmedSystem)
  {
    confirmed && (!Contains(bundleId, ApplePrefix) || confirmedSystem)
  }
}
