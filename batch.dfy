/** Sequential batches: every transfer loop and the multi-app uninstall make
    one device call per item, in order, and the first failure ends the
    batch. */
module Batch {
  import opened Device
  import opened Paths

  /** How many calls were made and the fault of the last one, if it failed. */
  datatype Outcome = Outcome(attempted: nat, fault: Option<Fault>)

  /** The batch as a function of the per-item outcomes. */
  function RunAll<T>(items: seq<T>, op: T -> Status): (o: Outcome)
    ensures o.attempted <= |items|
    ensures o.fault.None? ==> o.attempted == |items|
    ensures o.fault.Some? ==> o.attempted >= 1
    decreases |items|
  {
    if items == [] then Outcome(0, None)
    else
      match op(items[0])
      case Failed(f) => Outcome(1, Some(f))
      case Done =>
        var r := RunAll(items[1..], op);
        Outcome(r.attempted + 1, r.fault)
  }

  /** A batch succeeds exactly when every call succeeds; when it fails, the
      fault is that of the first failing call, every call before it
      succeeded, and no call after it was made. */
  lemma {:induction false} RunAllFirstFailure<T>(items: seq<T>, op: T -> Status)
    ensures var o := RunAll(items, op);
      (o.fault.None? <==> forall i :: 0 <= i < |items| ==> op(items[i]) == Done)
      && (o.fault.Some? ==>
            op(items[o.attempted - 1]) == Failed(o.fault.value)
            && forall i :: 0 <= i < o.attempted - 1 ==> op(items[i]) == Done)
    decreases |items|
  {
    if items != [] {
      RunAllFirstFailure(items[1..], op);
      var o := RunAll(items, op);
      if op(items[0]) == Done {
        var r := RunAll(items[1..], op);
        forall i | 0 <= i < |items| - 1 ensures items[1..][i] == items[i + 1] { }
        if o.fault.Some? {
          forall i | 0 <= i < o.attempted - 1 ensures op(items[i]) == Done {
            if i > 0 { assert items[1..][i - 1] == items[i]; }
          }
        }
        if forall i :: 0 <= i < |items| ==> op(items[i]) == Done {
          assert forall i :: 0 <= i < |items[1..]| ==> op(items[1..][i]) == Done;
        }
      }
    }
  }

  /** The `for` loop of a batch: call `op` on each item in order and stop
      at the first failure. */
  method Run<T>(items: seq<T>, op: T -> Status) returns (o: Outcome)
    ensures o == RunAll(items, op)
  {
    var i := 0;
    while i < |items|
      invariant 0 <= i <= |items|
      invariant RunAll(items, op) ==
        var r := RunAll(items[i..], op); Outcome(r.attempted + i, r.fault)
    {
      assert items[i..][0] == items[i] && items[i..][1..] == items[i + 1..];
      var st := op(items[i]);
      if st.Failed? {
        return Outcome(i + 1, Some(st.fault));
      }
      i := i + 1;
    }
    assert items[i..] == [];
    o := Outcome(i, None);
  }

  /** A batch inside one service session (`with Service(...) as s: for
      ...`): when opening the service fails, no call is made. */
  function RunInSession<T>(open: Status, items: seq<T>, op: T -> Status): Outcome {
    if open.Failed? then Outcome(0, Some(open.fault)) else RunAll(items, op)
  }

  /** The session's `with` block around the loop. */
  method RunSession<T>(open: Status, items: seq<T>, op: T -> Status) returns (o: Outcome)
    ensures o == RunInSession(open, items, op)
  {
    if open.Failed? {
      return Outcome(0, Some(open.fault));
    }
    o := Run(items, op);
  }

  // ---- the calls the transfer loops make ----

  /** One upload: `push(p, join(dest, basename(p)))` with `/` separators. */
  function PushOp(afc: Afc, dest: string): string -> Status {
    p => afc.push(p, DevicePath(dest, Basename(p)))
  }

  /** One download: `pull(join(current, name), join(save_dir, name))`; the
      device side gets `/` separators, the local side is joined as is. */
  function PullOp(afc: Afc, current: string, saveDir: string): string -> Status {
    name => afc.pull(DevicePath(current, name), Join(saveDir, name))
  }

  /** The upload loop pushes every file, in order, into the destination
      directory under its own base name, up to the first failure. */
  lemma UploadTargets(afc: Afc, dest: string, paths: seq<string>)
    ensures var o := RunAll(paths, PushOp(afc, dest));
      (o.fault.None? <==> forall i :: 0 <= i < |paths| ==> afc.push(paths[i], DevicePath(dest, Basename(paths[i]))) == Done)
      && (o.fault.Some? ==> afc.push(paths[o.attempted - 1], DevicePath(dest, Basename(paths[o.attempted - 1]))).Failed?)
  {
    RunAllFirstFailure(paths, PushOp(afc, dest));
  }

  /** The fault a failed upload reports is that of the push it stopped at. */
  lemma UploadFault(afc: Afc, dest: string, paths: seq<string>, o: Outcome)
    requires o == RunAll(paths, PushOp(afc, dest)) && o.fault.Some?
    ensures afc.push(paths[o.attempted - 1], DevicePath(dest, Basename(paths[o.attempted - 1]))) == Failed(o.fault.value)
  {
    RunAllFirstFailure(paths, PushOp(afc, dest));
  }
}
