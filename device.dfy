/** The device library, seen from the application: every call is an oracle
    that answers with a value or a fault. Nothing here models the wire
    protocol; the application only ever branches on "did it work" and, in a
    few except clauses, on the class of the exception raised. */
module Device {

  datatype Option<+T> = None | Some(value: T)

  /** The exception classes the application's except clauses tell apart.
      AfcError is the file-service subclass of the library's base exception
      (DeviceError stands for every other subclass); AttributeError is caught
      by one stat fallback; anything else (OSError, NameError, ...) is
      OtherError and only reaches the broad `except Exception` handlers. */
  datatype ErrorKind = AfcError | DeviceError | AttributeError | OtherError

  datatype Fault = Fault(kind: ErrorKind, message: string)

  /** `except PyMobileDevice3Exception` catches these two kinds. */
  predicate IsDeviceFault(f: Fault) {
    f.kind == AfcError || f.kind == DeviceError
  }

  datatype Result<+T> = Ok(value: T) | Err(fault: Fault)

  /** The outcome of a call made for its effect (push, pull, uninstall, ...). */
  datatype Status = Done | Failed(fault: Fault)

  /** What `afc.stat(path)` returns, reduced to the two facts the listing
      looks at: whether the object has an `st_ifmt` attribute, and whether
      `stat.S_ISDIR` holds of it. */
  datatype StatInfo = StatInfo(hasIfmt: bool, dirMode: bool)

  /** What `afc.get_file_info(path)` returns, reduced to its `st_ifmt` key. */
  datatype FileInfo = FileInfo(ifmt: Option<string>)

  /** An open file-transfer (AFC) session. */
  datatype Afc = Afc(
    listdir: string -> Result<seq<string>>,
    stat: string -> Result<StatInfo>,
    fileInfo: string -> Result<FileInfo>,
    push: (string, string) -> Status,
    pull: (string, string) -> Status)

  /** A property value returned by `get_value(None)`: a string, a
      dictionary, or anything else (bytes, numbers, lists, None). */
  datatype Value = Str(text: string) | Dict(entries: map<string, Value>) | OtherValue

  /** One item of the installation proxy's `get_apps()` dictionary, in the
      dictionary's iteration order: the bundle identifier and the string
      form of the info keys the application reads. */
  datatype AppEntry = AppEntry(bundleId: string, info: map<string, string>)

  /** A device log stream: the lines it yields, then either a normal end or
      the fault it raises after the last of them. Opening the syslog service
      and failing is a stream with no lines and a fault. */
  datatype LogStream = LogStream(lines: seq<string>, failure: Option<Fault>)

  /** A lockdown client with the services the application starts from it.
      Each service field is the combined outcome of opening the service and
      making the one call the application makes on it. */
  datatype Lockdown = Lockdown(
    values: Result<Value>,                 // get_value(None)
    mount: Status,                         // MounterService(...).mount_developer_image()
    afcService: Result<Afc>,               // AfcService(client)
    apps: Result<seq<AppEntry>>,           // InstallationProxyService + get_apps()
    installProxy: Status,                  // opening InstallationProxyService
    install: string -> Status,             // ip.install(path)
    uninstall: string -> Status,           // ip.uninstall(bundle_id)
    restart: Status,                       // DiagnosticsService + restart()
    shutdown: Status,                      // DiagnosticsService + shutdown()
    recovery: Status,                      // DiagnosticsService + enter_recovery()
    syslog: LogStream)                     // SyslogService(client).watch()

  /** `create_using_usbmux(serial=...)`. */
  type Usbmux = string -> Result<Lockdown>
}
