/** The change-only emitter of watch.py. Every durable write -- of the checkpoint file, or of
    the inbox by an emit -- costs one unit of `fuel`; when it runs out the process has
    crashed there, or the write failed, and what was written stays. */
module Watch {
  import opened Sequences
  import opened Envelopes
  import opened Inbox

  datatype Transition = Transition(uuid: nat, previous: Sample, current: Sample)

  datatype Checkpoint = Checkpoint(last: Sample, pending: Option<Transition>)

  /** What survives a crash. */
  datatype Store = Store(checkpoint: Option<Checkpoint>, db: Db)

  datatype Progress = Done(changed: bool) | EmitFailed | Halted

  function ChangeEvent(c: Transition): Envelope {
    var payload := FileChanged(c.previous, c.current);
    Envelope(EventId.Change(c.uuid), MANAGED_SOURCE, "monitor.file.changed", payload, None, 0)
  }

  /** Emit the pending event, then forget it. */
  function Flush(limits: Limits, b: string, s: Store, now: real, fuel: nat): (Store, Progress, nat) {
    if s.checkpoint.None? || s.checkpoint.value.pending.None? then (s, Done(false), fuel)
    else if fuel == 0 then (s, Halted, 0)
    else
      var c := s.checkpoint.value.pending.value;
      var (db, receipt) := s.db.Ingest(limits, b, ChangeEvent(c), now);
      if receipt.Err? then (s, EmitFailed, fuel - 1)
      else if fuel == 1 then (s.(db := db), Halted, 0)
      else (Store(Some(Checkpoint(c.current, None)), db), Done(true), fuel - 2)
  }

  function CheckStore(limits: Limits, b: string, s: Store, sample: Sample, uuid: nat, now: real, fuel: nat)
    : (Store, Progress, nat)
  {
    if s.checkpoint.None? then
      if fuel == 0 then (s, Halted, 0)
      else (s.(checkpoint := Some(Checkpoint(sample, None))), Done(false), fuel - 1)
    else
      var (flushed, progress, left) := Flush(limits, b, s, now, fuel);
      if !progress.Done? || flushed.checkpoint.None? then (flushed, progress, left)
      else if sample == flushed.checkpoint.value.last then (flushed, Done(false), left)
      else if left == 0 then (flushed, Halted, 0)
      else
        var last := flushed.checkpoint.value.last;
        var armed := flushed.(checkpoint := Some(Checkpoint(last, Some(Transition(uuid, last, sample)))));
        Flush(limits, b, armed, now, left - 1)
  }

  class ChangeWatcher {
    const binding: string
    const monitor: Monitor
    var checkpoint: Option<Checkpoint>    // the checkpoint file

    constructor (binding: string, monitor: Monitor, checkpoint: Option<Checkpoint>)
      ensures this.binding == binding && this.monitor == monitor && this.checkpoint == checkpoint
    {
      this.binding, this.monitor, this.checkpoint := binding, monitor, checkpoint;
    }

    function Durable(): Store
      reads this, monitor
    {
      Store(checkpoint, monitor.Tables())
    }

    /** Emit the stored event and clear it; the two halves of `check` share it. */
    method FlushPending(now: real, fuel: nat) returns (r: Progress, left: nat)
      modifies this`checkpoint, monitor`events
      ensures (Durable(), r, left) == Flush(monitor.limits, binding, old(Durable()), now, fuel)
    {
      if checkpoint.None? || checkpoint.value.pending.None? {
        return Done(false), fuel;
      }
      if fuel == 0 {
        return Halted, 0;
      }
      var change := checkpoint.value.pending.value;
      var receipt := monitor.Ingest(binding, ChangeEvent(change), now);
      if receipt.Err? {
        return EmitFailed, fuel - 1;
      }
      if fuel == 1 {
        return Halted, 0;
      }
      checkpoint := Some(Checkpoint(change.current, None));
      r, left := Done(true), fuel - 2;
    }

    method Check(sample: Sample, uuid: nat, now: real, fuel: nat) returns (r: Progress, left: nat)
      modifies this`checkpoint, monitor`events
      ensures (Durable(), r, left) == CheckStore(monitor.limits, binding, old(Durable()), sample, uuid, now, fuel)
    {
      if checkpoint.None? {
        if fuel == 0 {
          return Halted, 0;
        }
        checkpoint := Some(Checkpoint(sample, None));
        return Done(false), fuel - 1;
      }
      r, left := FlushPending(now, fuel);
      if !r.Done? || checkpoint.None? {
        return;
      }
      var last := checkpoint.value.last;
      if sample == last {
        return Done(false), left;
      }
      if left == 0 {
        return Halted, 0;
      }
      checkpoint := Some(Checkpoint(last, Some(Transition(uuid, last, sample))));
      r, left := FlushPending(now, left - 1);
    }
  }
}
