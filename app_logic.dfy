/** pyafc/app_logic.py: the package's `AppLogic`, the application list of
    the list-box program with the client `core.py` hands it. Dialog answers
    and the list-box selection are parameters; every method is proved
    against the functions of `ListboxLogic`. */
module PyafcApps {
  import opened Device
  import opened Batch
  import opened Ordering
  import opened AppRows
  import opened Ui
  import opened ListboxLogic

  class AppLogic {
    var client: Option<Lockdown>
    var events: seq<Event>

    constructor ()
      ensures client == None && events == []
    {
      client := None;
      events := [];
    }

    /** `list_applications` */
    method ListApplications()
      modifies this
      ensures client == old(client)
      ensures events == old(events) + AppList(old(client))
    {
      if client.None? {
        return;
      }
      var lock := client.value;
      match lock.apps
      case Err(f) =>
        events := events + [AppRows([LoadingRow]), AppRows([ListError]),
                            Message(ErrorBox, "App List Error", "Could not list applications: " + f.message)];
      case Ok(entries) =>
        if entries == [] {
          events := events + [AppRows([LoadingRow]), AppRows([NoApps])];
        } else {
          var rows := BuildRows(entries);
          events := events + [AppRows([LoadingRow]), AppRows(SortedCaseless(rows))];
        }
    }

    /** `install_app`, with the package the dialog returned and the answer to
        the confirmation. */
    method InstallApp(ipaPath: string, confirmed: bool)
      modifies this
      ensures client == old(client)
      ensures events == old(events) + Install(old(client), ipaPath, confirmed)
    {
      if client.None? || ipaPath == "" || !confirmed {
        return;
      }
      var lock := client.value;
      var st := ProxyCall(lock, lock.install, ipaPath);
      if st.Failed? {
        events := events + [Status("Status: Installing .ipa..."),
                            Message(ErrorBox, "Install Error", "Could not install .ipa: " + st.fault.message),
                            Status("Status: Install failed.")];
        return;
      }
      ghost var before := events;
      var done := [Status("Status: Installing .ipa..."),
                   Message(InfoBox, "Install Complete", "Application installed successfully."),
                   Status("Status: Install complete.")];
      events := events + done;
      ListApplications();
      Appended(before, done, AppList(client));
    }

    /** `uninstall_apps`, with the selected rows and the answer to the
        confirmation. */
    method UninstallApps(selection: seq<string>, confirmed: bool)
      modifies this
      ensures client == old(client)
      ensures events == old(events) + Uninstall(old(client), selection, confirmed)
    {
      if client.None? {
        return;
      }
      if selection == [] {
        events := events + [Message(WarningBox, "No Selection", "Please select one or more applications to uninstall.")];
        return;
      }
      var sel := SelectForUninstall(selection);
      var skips := SkipWarnings(sel.skipped);
      ghost var before := events;
      events := events + skips;
      if sel.bundleIds == [] || !confirmed {
        return;
      }
      RemoveApps(client.value, sel.bundleIds);
      Appended(before, skips, UninstallRun(client.value, sel.bundleIds));
    }

    /** The confirmed part of `uninstall_apps`: the uninstalls in one
        installation-proxy session, then the report and the refresh. */
    method RemoveApps(lock: Lockdown, bundleIds: seq<string>)
      requires client == Some(lock)
      modifies this
      ensures client == old(client)
      ensures events == old(events) + UninstallRun(lock, bundleIds)
    {
      var o := RunSession(lock.installProxy, bundleIds, lock.uninstall);
      if o.fault.Some? {
        events := events + [Status("Status: Uninstalling..."),
                            Message(ErrorBox, "Uninstall Error", "Could not uninstall app: " + o.fault.value.message),
                            Status("Status: Uninstall failed.")];
        return;
      }
      ghost var before := events;
      var done := [Status("Status: Uninstalling..."),
                   Message(InfoBox, "Uninstall Complete", "Application(s) uninstalled successfully."),
                   Status("Status: Uninstall complete.")];
      events := events + done;
      ListApplications();
      Appended(before, done, AppList(client));
    }
  }
}
