/** The device watcher of pyafc.py and pyside6afc.py: poll the USB
    multiplexer until a device shows up, the poll raises, or the stop flag
    is seen. Each poll is the outcome of one `list_devices()` call, reduced
    to the devices' serial numbers. */
module Listener {
  import opened Device

  /** How the watch ends: a device was found (its first serial), a poll
      raised, the stop flag was seen, or the polls seen so far were all
      empty and the watcher is still polling. */
  datatype End = HandedOff(serial: string) | ListenFailed(fault: Fault) | StopRequested | StillPolling

  /** The number of empty polls (each one a "waiting" update) and the end. */
  datatype Watch = Watch(waits: nat, end: End)

  /** The watch when the stop flag is first seen before poll number
      `stopAt`. Every wait is one empty poll; the end names the poll that
      ended the watch. */
  function WatchOf(polls: seq<Result<seq<string>>>, stopAt: nat): (w: Watch)
    ensures w.waits <= |polls| && w.waits <= stopAt
    ensures forall j :: 0 <= j < w.waits ==> polls[j] == Ok([])
    ensures w.end.HandedOff? ==>
      w.waits < |polls| && w.waits < stopAt && polls[w.waits].Ok? && polls[w.waits].value != []
      && w.end.serial == polls[w.waits].value[0]
    ensures w.end.ListenFailed? ==>
      w.waits < |polls| && w.waits < stopAt && polls[w.waits] == Err(w.end.fault)
    ensures w.end == StopRequested ==> w.waits == stopAt
    ensures w.end == StillPolling ==> w.waits == |polls| < stopAt
    decreases |polls|
  {
    if stopAt == 0 then Watch(0, StopRequested)
    else if polls == [] then Watch(0, StillPolling)
    else
      match polls[0]
      case Err(f) => Watch(0, ListenFailed(f))
      case Ok(devices) =>
        if devices != [] then Watch(0, HandedOff(devices[0]))
        else
          var r := WatchOf(polls[1..], stopAt - 1);
          assert forall j :: 0 < j <= r.waits ==> polls[j] == polls[1..][j - 1];
          Watch(r.waits + 1, r.end)
  }

  /** Conversely, a device that shows up before the stop flag after only
      empty polls is handed off, and nothing is waited for after it. */
  lemma {:induction false} FirstDeviceHandedOff(polls: seq<Result<seq<string>>>, stopAt: nat, i: nat)
    requires i < |polls| && i < stopAt
    requires polls[i].Ok? && polls[i].value != []
    requires forall j :: 0 <= j < i ==> polls[j] == Ok([])
    ensures WatchOf(polls, stopAt) == Watch(i, HandedOff(polls[i].value[0]))
    decreases i
  {
    if i > 0 {
      assert polls[0] == Ok([]);
      assert forall j :: 0 <= j < i - 1 ==> polls[1..][j] == polls[j + 1];
      FirstDeviceHandedOff(polls[1..], stopAt - 1, i - 1);
    }
  }

  /** The watcher's `while not stop.is_set()` loop. */
  method Listen(polls: seq<Result<seq<string>>>, stopAt: nat) returns (w: Watch)
    ensures w == WatchOf(polls, stopAt)
  {
    var waits := 0;
    while true
      invariant waits <= |polls| && waits <= stopAt
      invariant WatchOf(polls, stopAt) ==
        var r := WatchOf(polls[waits..], stopAt - waits); Watch(r.waits + waits, r.end)
      decreases |polls| - waits
    {
      if waits == stopAt {
        return Watch(waits, StopRequested);
      }
      if waits == |polls| {
        return Watch(waits, StillPolling);
      }
      assert polls[waits..][0] == polls[waits] && polls[waits..][1..] == polls[waits + 1..];
      var poll := polls[waits];
      if poll.Err? {
        return Watch(waits, ListenFailed(poll.fault));
      }
      if poll.value != [] {
        return Watch(waits, HandedOff(poll.value[0]));
      }
      waits := waits + 1;
    }
  }
}
