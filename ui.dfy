/** What the device logic hands to the interface, in the order it hands it
    over: dialogs, status and log lines, list and grid updates, and the
    connection and syslog notifications. Tk callbacks scheduled with
    `after` and Qt signals both appear here as one event each. */
module Ui {
  import opened Device
  import opened Listing
  import opened AppRows
  import opened Syslog

  datatype Box = InfoBox | WarningBox | ErrorBox

  datatype Event =
    | Message(box: Box, title: string, text: string)              // a dialog, or action_finished / action_error
    | Status(text: string)                                        // the status label
    | Log(text: string)                                           // log_message
    | PathShown(path: string)                                     // the path entry
    | FilesShown(listing: Listing)                                // the file list box, showing Rows(listing)
    | FileListSignal(listing: Listing)                            // file_list_updated
    | AppListSignal(apps: seq<AppRecord>, error: Option<string>)  // app_list_updated
    | GridShown(apps: seq<AppRecord>, error: Option<string>, width: int)  // the grid, showing GridView(apps, error, width)
    | GridLoading                                                 // the "Loading..." label of the grid
    | AppRows(rows: seq<string>)                                  // the application list box
    | StatusAppended(suffix: string)                              // text appended to the status label
    | ConnectFailed(text: string)                                 // failure_callback / connection_failed
    | ConnectSucceeded(name: string, apps: seq<AppRecord>, files: Listing)
    | ClientClosed                                                // client.close()
    | ConnectScheduled                                            // the watcher schedules a connection
    | WaitLabel(text: string)                                     // the watcher's waiting label
    | SyslogText(text: string)                                    // a line for the syslog view
    | SyslogButton(caption: string)                               // the syslog button's caption
    | SyslogStopped                                               // syslog_stopped
    | Disconnected(text: string)                                  // device_disconnected

  /** The status lines of a batch, one per attempted item. */
  function Progress(verb: string, names: seq<string>): (r: seq<Event>)
    ensures |r| == |names|
    ensures forall i :: 0 <= i < |names| ==> r[i] == Status(verb + names[i] + "...")
  {
    seq(|names|, i requires 0 <= i < |names| => Status(verb + names[i] + "..."))
  }

  /** Regrouping event traces: appending two batches one after the other
      is appending their concatenation. */
  lemma Appended(trace: seq<Event>, first: seq<Event>, second: seq<Event>)
    ensures trace + first + second == trace + (first + second)
  {
  }

  function Digit(d: nat): char
    requires d < 10
  {
    "0123456789"[d]
  }

  /** `str(n)` for a count. */
  function Decimal(n: nat): (s: string)
    ensures |s| >= 1
    ensures forall i :: 0 <= i < |s| ==> '0' <= s[i] <= '9'
    ensures n < 10 <==> |s| == 1
  {
    if n < 10 then [Digit(n)] else Decimal(n / 10) + [Digit(n % 10)]
  }

  /** The value of a decimal text. */
  function ValueOf(s: string): nat
    requires forall i :: 0 <= i < |s| ==> '0' <= s[i] <= '9'
  {
    if s == [] then 0 else ValueOf(s[..|s| - 1]) * 10 + (s[|s| - 1] as int - '0' as int)
  }

  /** A count is printed so that it reads back as itself. */
  lemma {:induction false} DecimalRoundTrip(n: nat)
    ensures ValueOf(Decimal(n)) == n
  {
    if n >= 10 {
      DecimalRoundTrip(n / 10);
      var s := Decimal(n);
      assert s[..|s| - 1] == Decimal(n / 10);
    }
  }

  /** The outcome of a connection attempt. */
  predicate IsOutcome(e: Event) {
    e.ConnectFailed? || e.ConnectSucceeded?
  }

  /** The stream's output as interface events: each line for the view,
      and `stopped` as the given event. */
  function SyslogEvents(out: seq<Out>, stopped: Event): (r: seq<Event>)
    ensures |r| == |out|
    ensures forall i :: 0 <= i < |out| ==> r[i] == (if out[i].Line? then SyslogText(out[i].text) else stopped)
  {
    seq(|out|, i requires 0 <= i < |out| => if out[i].Line? then SyslogText(out[i].text) else stopped)
  }

  /** Whatever the stream does, the stream task's last event is its
      "stopped" event, sent once: every earlier event is a line. */
  lemma SyslogStoppedOnce(log: LogStream, stopAt: nat, stopped: Event)
    requires !stopped.SyslogText?
    ensures var r := SyslogEvents(StreamOutput(log.lines, log.failure, stopAt), stopped);
      r != [] && r[|r| - 1] == stopped
      && forall i :: 0 <= i < |r| - 1 ==> r[i].SyslogText? && r[i] != stopped
  {
    StreamShape(log.lines, log.failure, stopAt);
  }
}
