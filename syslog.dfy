/** The syslog streaming task of pyafc.py and pyside6afc.py: forward each
    line of the device log until the stop flag is seen, report a stream
    error as one marker line, and always signal that the stream stopped. */
module Syslog {
  import opened Device

  /** What the stream loop hands to the interface: a line for the log view, or
      the final "stream stopped" signal (the `finally` clause). */
  datatype Out = Line(text: string) | Stopped

  const ErrorOpen: string := "\n--- SYSLOG ERROR: "
  const ErrorClose: string := " ---\n"

  /** The line shown when the stream raises `e`. */
  function ErrorMarker(f: Fault): string {
    ErrorOpen + f.message + ErrorClose
  }

  /** The stream loop's output when the stop flag is first seen set before line
      number `stopAt` (a flag never set is any `stopAt >= |lines|`). */
  function StreamOutput(lines: seq<string>, failure: Option<Fault>, stopAt: nat): (out: seq<Out>)
    ensures out != [] && out[|out| - 1] == Stopped
    decreases |lines|
  {
    if lines == [] then (if failure.Some? then [Line(ErrorMarker(failure.value))] else []) + [Stopped]
    else if stopAt == 0 then [Stopped]
    else [Line(lines[0])] + StreamOutput(lines[1..], failure, stopAt - 1)
  }

  function Min(a: nat, b: nat): nat {
    if a <= b then a else b
  }

  /** The stream forwards exactly the lines before the stop, in order;
      signals "stopped" once, as its last output; and shows the error marker
      exactly when the stream failed before the flag was seen. */
  lemma {:induction false} StreamShape(lines: seq<string>, failure: Option<Fault>, stopAt: nat)
    ensures var out := StreamOutput(lines, failure, stopAt);
      var n := Min(stopAt, |lines|);
      var failed := failure.Some? && stopAt >= |lines|;
      |out| == n + (if failed then 1 else 0) + 1
      && (forall i :: 0 <= i < n ==> out[i] == Line(lines[i]))
      && (failed ==> out[n] == Line(ErrorMarker(failure.value)))
      && (forall i :: 0 <= i < |out| - 1 ==> out[i].Line?)
    decreases |lines|
  {
    if lines != [] && stopAt > 0 {
      StreamShape(lines[1..], failure, stopAt - 1);
      var rest := StreamOutput(lines[1..], failure, stopAt - 1);
      var out := StreamOutput(lines, failure, stopAt);
      assert out == [Line(lines[0])] + rest;
      forall i | 1 <= i < Min(stopAt, |lines|) ensures out[i] == Line(lines[i]) {
        assert out[i] == rest[i - 1] && lines[1..][i - 1] == lines[i];
      }
    }
  }

  /** One forwarded line: before the stop, the output from line `i` on is
      that line followed by the output from line `i + 1` on. */
  lemma StreamStep(lines: seq<string>, failure: Option<Fault>, stopAt: nat, i: nat)
    requires i < |lines| && i < stopAt
    ensures StreamOutput(lines[i..], failure, stopAt - i)
      == [Line(lines[i])] + StreamOutput(lines[i + 1..], failure, stopAt - i - 1)
  {
    assert lines[i..][0] == lines[i] && lines[i..][1..] == lines[i + 1..];
  }

  /** The body of the streaming thread: the `for line in syslog.watch()`
      loop with its stop test, error handler and `finally` signal. */
  method Stream(log: LogStream, stopAt: nat) returns (out: seq<Out>)
    ensures out == StreamOutput(log.lines, log.failure, stopAt)
  {
    out := [];
    var i := 0;
    while i < |log.lines| && i < stopAt
      invariant 0 <= i <= |log.lines| && i <= stopAt
      invariant out + StreamOutput(log.lines[i..], log.failure, stopAt - i) ==
        StreamOutput(log.lines, log.failure, stopAt)
    {
      StreamStep(log.lines, log.failure, stopAt, i);
      assert out + StreamOutput(log.lines[i..], log.failure, stopAt - i)
        == (out + [Line(log.lines[i])]) + StreamOutput(log.lines[i + 1..], log.failure, stopAt - i - 1);
      out := out + [Line(log.lines[i])];
      i := i + 1;
    }
    if i == |log.lines| {
      assert log.lines[i..] == [];
      if log.failure.Some? {
        out := out + [Line(ErrorMarker(log.failure.value))];
      }
    } else {
      assert log.lines[i..] != [];
    }
    out := out + [Stopped];
  }

  /** The fault of a service opened without a client; its text is not
      modelled. */
  const NoClientFault: Fault := Fault(OtherError, "")

  /** The log stream of the current client; without one, opening the
      service fails before any line. */
  function StreamOf(client: Option<Lockdown>): LogStream {
    if client.Some? then client.value.syslog else LogStream([], Some(NoClientFault))
  }
}
