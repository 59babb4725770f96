/** The first half of the connect handshake, shared by pyafc.py and
    pyside6afc.py: create the lockdown client, read `get_value(None)` and
    validate the device name. An info error of the library's own kind is
    reported as a pairing problem and the client is closed; any other error
    reaches the outer handler, which reports a connection problem and
    closes the client only when no earlier client is kept. */
module Handshake {
  import opened Device
  import opened Text

  const NoDeviceFound: string := "No device found by usbmux."
  const ConnectFailPrefix: string := "Could not connect.\nTrusted?\niTunes/AMDS running?\n\nError: "
  const InfoFailPrefix: string := "Connected but failed info.\nPairing issue?\n\nError: "
  const AfcStartFailed: string := "Failed AFC service start."
  const NameKey: string := "DeviceName"

  /** How a generation validates the device info: whether an empty name
      passes, and the texts of its two validation errors (the `repr` of the
      offending value that follows them is not modelled). */
  datatype InfoRule = InfoRule(emptyNameOk: bool, invalidData: string, invalidName: string)

  const PyAfcRule: InfoRule := InfoRule(true, "get_value(None) returned invalid data", "DeviceName missing or invalid")
  const PySide6Rule: InfoRule := InfoRule(false, "Invalid data", "Invalid DeviceName")

  /** The device name of `get_value(None)`'s answer, or the fault the
      validation raises: the answer must be a non-empty dictionary whose
      `DeviceName` is a string (and, under the stricter rule, not empty). */
  function DeviceName(values: Value, rule: InfoRule): (r: Result<string>)
    ensures r.Ok? <==>
      (values.Dict? && values.entries != map[] && NameKey in values.entries
       && values.entries[NameKey].Str? && (rule.emptyNameOk || values.entries[NameKey].text != ""))
    ensures r.Ok? ==> r.value == values.entries[NameKey].text
    ensures r.Err? ==> r.fault.kind == DeviceError
    ensures r.Err? ==> r.fault.message == (if values.Dict? && values.entries != map[] then rule.invalidName else rule.invalidData)
  {
    if !values.Dict? || values.entries == map[] then Err(Fault(DeviceError, rule.invalidData))
    else
      var name := if NameKey in values.entries then values.entries[NameKey] else OtherValue;
      if name.Str? && (rule.emptyNameOk || name.text != "") then Ok(name.text)
      else Err(Fault(DeviceError, rule.invalidName))
  }

  /** pyafc.py accepts an empty device name; pyside6afc.py does not. */
  lemma EmptyNameRules()
    ensures DeviceName(Dict(map[NameKey := Str("")]), PyAfcRule) == Ok("")
    ensures DeviceName(Dict(map[NameKey := Str("")]), PySide6Rule).Err?
  {
    var m := map[NameKey := Str("")];
    assert NameKey in m && m[NameKey] == Str("");
    assert m != map[];
  }

  datatype Attach = Attached(lock: Lockdown, name: string) | AttachFailed(text: string, closed: bool)

  /** Whether a failure comes from the info step's own handler. */
  predicate InfoFailure(created: Result<Lockdown>, rule: InfoRule) {
    created.Ok? &&
    match created.value.values
    case Err(f) => IsDeviceFault(f)
    case Ok(v) => DeviceName(v, rule).Err?
  }

  /** From `create_using_usbmux` to a validated device name. */
  function AttachTo(created: Result<Lockdown>, keptClient: bool, rule: InfoRule): (a: Attach)
    ensures a.Attached? <==> created.Ok? && created.value.values.Ok? && DeviceName(created.value.values.value, rule).Ok?
    ensures a.Attached? ==> a.lock == created.value && a.name == DeviceName(created.value.values.value, rule).value
    ensures a.AttachFailed? ==>
      (if InfoFailure(created, rule) then StartsWith(a.text, InfoFailPrefix) else StartsWith(a.text, ConnectFailPrefix))
    ensures a.AttachFailed? ==> (a.closed <==> created.Ok? && (InfoFailure(created, rule) || !keptClient))
    ensures created.Err? ==> a == AttachFailed(ConnectFailPrefix + created.fault.message, false)
  {
    match created
    case Err(f) => Failure(ConnectFailPrefix, f, false)
    case Ok(lock) =>
      match lock.values
      case Err(f) =>
        if IsDeviceFault(f) then Failure(InfoFailPrefix, f, true)
        else Failure(ConnectFailPrefix, f, !keptClient)
      case Ok(v) =>
        match DeviceName(v, rule)
        case Ok(name) => Attached(lock, name)
        case Err(f) => Failure(InfoFailPrefix, f, true)
  }

  function Failure(prefix: string, f: Fault, closed: bool): (a: Attach)
    ensures a == AttachFailed(prefix + f.message, closed) && StartsWith(a.text, prefix)
  {
    var text := prefix + f.message;
    assert text[..|prefix|] == prefix;
    AttachFailed(text, closed)
  }
}
