/**
 The lane as the object the program keeps. Until the device is lost its methods demand what the
 Vulkan specification demands of their callers, so that a lane method verifies at all shows it never
 resets, reuses or destroys anything in flight. Every method is proved to be the step of the model,
 on a lost device too.
 */
module SyncLaneObject {
  import opened Common
  import opened SyncLane

  class VideoDevice {
    var state: Device

    /** The object may be reset, reused or destroyed; nothing is promised of a lost device. */
    ghost predicate Free(h: Handle) reads this { state.lost || (h in state.live && !Pending(state, h)) }

    method CreateObject() returns (h: Handle)
      modifies this
      ensures (state, h) == Create(old(state))
    {
      h := state.next;
      state := state.(live := state.live + {h}, next := h + 1);
    }

    method ResetFence(f: Handle)
      requires Free(f)
      modifies this
      ensures state == SyncLane.ResetFence(old(state), f)
    {
      state := SyncLane.ResetFence(state, f);
    }

    /** Resetting a command pool, or importing a payload into a semaphore: the object must be idle. */
    method UseObject(h: Handle)
      requires Free(h)
      modifies this
      ensures state == UseIdle(old(state), h)
    {
      state := UseIdle(state, h);
    }

    method DestroyObject(h: Handle)
      requires Free(h)
      modifies this
      ensures state == Destroy(old(state), h)
    {
      state := Destroy(state, h);
    }

    method DestroyInOrder(order: seq<Handle>)
      requires state.lost || (Distinct(order) && Elements(order) <= state.live && Idle(state, Elements(order)) && DeviceInv(state))
      modifies this
      ensures state == DestroyAll(old(state), order)
    {
      var i := 0;
      while i < |order|
        invariant 0 <= i <= |order|
        invariant DestroyAll(state, order[i..]) == DestroyAll(old(state), order)
        invariant state.lost || (Distinct(order[i..]) && Elements(order[i..]) <= state.live && Idle(state, Elements(order[i..])))
      {
        ghost var d := state;
        ghost var rest := order[i..];
        assert rest[0] == order[i] && rest[1..] == order[i + 1..] && rest[0] in Elements(rest);
        assert state.lost || rest[0] !in rest[1..];
        DestroyObject(order[i]);
        SamePending(d, state);
        i := i + 1;
      }
    }

    method SubmitVideoQueue(s: Submission, r: SubmitResult)
      requires state.lost || (s.uses + {s.fence} <= state.live && s.fence !in state.signaled && !Pending(state, s.fence))
      modifies this
      ensures r.Fine? ==> state == Submit(old(state), s)
      ensures r.Lost? ==> state == (if r.consumed then Submit(old(state), s) else old(state)).(lost := true)
      ensures r.Failed? ==> state == old(state)
    {
      if r.Fine? || (r.Lost? && r.consumed) {
        state := Submit(state, s);
      }
      if r.Lost? {
        state := state.(lost := true);
      }
    }

    method CreateQueryPool(r: QueryResult) returns (pool: Option<Handle>)
      modifies this
      ensures r.MadeQuery? ==> pool.Some? && (state, pool.value) == Create(old(state))
      ensures !r.MadeQuery? ==> pool.None? && state == if r.QueryLost? then old(state).(lost := true, marked := true) else old(state)
    {
      pool := None;
      if r.MadeQuery? {
        var h := CreateObject();
        pool := Some(h);
      }
      if r.QueryLost? {
        state := state.(lost := true);
        MarkDeviceLost();
      }
    }

    /** The flag of the device context: it only records what its caller saw or feared. */
    method MarkDeviceLost()
      modifies this
      ensures state == old(state).(marked := true)
    {
      state := state.(marked := true);
    }
  }

  class ImportedImageSync {
    const acquirePool: Handle
    const releasePool: Handle
    const acquireFence: Handle
    const releaseFence: Handle
    const query: Option<Handle>
    var importedAcquire: Option<Handle>
    var ready: Option<Handle>
    var importId: Option<nat>
    var staged: bool
    var acquireSubmitted: bool
    var accepted: bool
    var rejected: bool
    var releaseSubmitted: bool
    var timed: bool
    var releaseAt: nat

    function Value(): Lane reads this {
      Lane(acquirePool, releasePool, acquireFence, releaseFence, query, importedAcquire, ready, importId, staged,
           acquireSubmitted, accepted, rejected, releaseSubmitted, timed, releaseAt)
    }

    ghost predicate Valid(device: VideoDevice) reads this, device {
      !device.state.lost ==> LaneInv(Value(), device.state) && DeviceInv(device.state)
    }

    constructor (pool0: Handle, pool1: Handle, fence0: Handle, fence1: Handle, timestamps: Option<Handle>)
      ensures Value() == EmptyLane(pool0, pool1, fence0, fence1, timestamps)
    {
      acquirePool, releasePool, acquireFence, releaseFence, query := pool0, pool1, fence0, fence1, timestamps;
      importedAcquire, ready, importId, staged := None, None, None, false;
      acquireSubmitted, accepted, rejected, releaseSubmitted, timed, releaseAt := false, false, false, false, false, 0;
    }

    /** `new`: a step that fails destroys what the earlier ones made. */
    static method New(device: VideoDevice, c: NewChoice) returns (sync: Option<ImportedImageSync>)
      requires !device.state.lost ==> DeviceInv(device.state)
      modifies device
      ensures device.state == TryNew(old(device.state), c).1
      ensures if sync.Some? then fresh(sync.value) && TryNew(old(device.state), c).0 == Some(sync.value.Value()) && sync.value.Valid(device)
              else TryNew(old(device.state), c).0.None?
      ensures sync.None? && !device.state.lost ==> device.state == old(device.state).(next := device.state.next)
    {
      ghost var d := device.state;
      if !d.lost {
        if Builds(c) { NewLaneKeeps(d, c); } else { NewFails(d, c); }
      }
      hide LaneInv, Pending, Owned;
      if !c.acquirePoolOk {
        return None;
      }
      var pool0 := device.CreateObject();
      if !c.releasePoolOk {
        if !d.lost {
          NewIsIdle(d, pool0);
          SamePending(d, device.state);
        }
        device.DestroyObject(pool0);
        return None;
      }
      var pool1 := device.CreateObject();
      ghost var d2 := device.state;
      sync := NewRest(device, pool0, pool1, c);
      if sync.None? {
        if !device.state.lost { RestFails(d2, pool0, pool1, c); }
        hide BuildRest;
        device.DestroyObject(pool1);
        device.DestroyObject(pool0);
      }
    }

    static method NewRest(device: VideoDevice, pool0: Handle, pool1: Handle, c: NewChoice) returns (sync: Option<ImportedImageSync>)
      requires !device.state.lost ==> DeviceInv(device.state)
      modifies device
      ensures device.state == BuildRest(old(device.state), pool0, pool1, c).1
      ensures if sync.Some? then fresh(sync.value) && BuildRest(old(device.state), pool0, pool1, c).0 == Some(sync.value.Value())
              else BuildRest(old(device.state), pool0, pool1, c).0.None?
    {
      if !c.commandsOk || !c.acquireFenceOk {
        return None;
      }
      var fence0 := device.CreateObject();
      if !c.releaseFenceOk {
        device.DestroyObject(fence0);
        return None;
      }
      var fence1 := device.CreateObject();
      var timestamps := device.CreateQueryPool(c.query);
      if c.query.QueryFailed? || c.query.QueryLost? {
        device.DestroyObject(fence1);
        device.DestroyObject(fence0);
        return None;
      }
      var s := new ImportedImageSync(pool0, pool1, fence0, fence1, timestamps);
      sync := Some(s);
    }

    method ImportSyncFd(device: VideoDevice, c: AcquireChoice) returns (ok: bool)
      requires Valid(device) && !acquireSubmitted
      modifies this`importedAcquire, device
      ensures (Value(), device.state, ok) == ImportFd(old(Value()), old(device.state), c)
      ensures Valid(device) && !acquireSubmitted
    {
      ghost var l, d := Value(), device.state;
      if !d.lost {
        ImportKeeps(l, d, c, Owned(l) + {d.next});
        FreshCreates(l, d, {d.next});
      }
      ok := true;
      if c.hasFd {
        match importedAcquire
        case Some(s) =>
          device.UseObject(s);
          ok := c.importOk;
        case None =>
          ok := c.semaphoreOk && c.importOk;
          if c.semaphoreOk {
            var s := device.CreateObject();
            if c.importOk {
              device.UseObject(s);
              importedAcquire := Some(s);
            } else {
              device.DestroyObject(s);
            }
          }
      }
    }

    method SubmitAcquire(device: VideoDevice, c: AcquireChoice) returns (semaphore: Option<Handle>)
      requires Valid(device)
      modifies this, device
      ensures Attempt(Value(), device.state, semaphore) == SyncLane.SubmitAcquire(old(Value()), old(device.state), c)
      ensures Valid(device)
      ensures semaphore.Some? ==> ready == semaphore && acquireSubmitted
      ensures old(acquireSubmitted) ==> semaphore.None? && device.state == old(device.state) && Value() == old(Value())
    {
      ghost var l, d := Value(), device.state;
      if d.lost { AcquireStaysLost(l, d, c); } else { AcquireKeeps(l, d, c, Owned(l) + {d.next, d.next + 1}); }
      if acquireSubmitted || releaseSubmitted {
        hide ImportFd, LaneInv, DeviceInv, OnlyMine, Owned;
        return None;
      }
      AcquireContinues(l, d, c);
      hide LaneInv, DeviceInv, ImportFd, OnlyMine, Owned, SyncLane.SubmitAcquire, AfterImport;
      var ok := ImportSyncFd(device, c);
      if !ok || !c.readyOk {
        return None;
      }
      semaphore := AfterImportOf(device, c);
    }

    /** What the acquire submission refers to: the imported fence and the timing queries only when it uses them. */
    method RecordAcquire(signal: Handle, c: AcquireChoice) returns (submission: Submission)
      ensures submission == AcquireSubmission(Value(), signal, c)
    {
      var uses := {acquirePool, signal};
      if c.hasFd {
        uses := uses + Maybe(importedAcquire);
      }
      if c.timed {
        uses := uses + Maybe(query);
      }
      submission := Submission(uses, acquireFence);
    }

    /** The rest of `submit_acquire`: the ready semaphore, the fence, the commands and the submission. */
    method AfterImportOf(device: VideoDevice, c: AcquireChoice) returns (semaphore: Option<Handle>)
      requires Valid(device) && !acquireSubmitted
      modifies this, device
      ensures Attempt(Value(), device.state, semaphore) == AfterImport(old(Value()), old(device.state), c)
      ensures semaphore.Some? ==> ready == semaphore && acquireSubmitted
    {
      ghost var l, d := Value(), device.state;
      if !d.lost {
        FreshCreates(l, d, Owned(l) + {d.next});
        NewIsIdle(d, d.next);
      }
      hide Recorded, Distinct, DropOrder, ReleasedInv, OnlyMine, DeviceInv;
      var signal := device.CreateObject();
      if !c.fenceOk {
        device.UseObject(acquireFence);
        device.DestroyObject(signal);
        return None;
      }
      semaphore := RecordAndSubmit(device, signal, c);
    }

    /** The acquire fence and pool, both idle before the acquire is submitted, are reset. */
    method PrepareAcquire(device: VideoDevice)
      requires Valid(device) && !acquireSubmitted
      modifies device
      ensures device.state == Prepared(Value(), old(device.state))
      ensures !device.state.lost ==> device.state == old(device.state).(signaled := old(device.state).signaled - {acquireFence})
                                     && Owned(Value()) <= device.state.live && !Pending(device.state, acquireFence)
    {
      ghost var l, d := Value(), device.state;
      if !d.lost { PreparedKeeps(l, d, Owned(l)); }
      device.ResetFence(acquireFence);
      device.UseObject(acquirePool);
    }

    /** The fence and the pool are reset, the commands recorded and submitted. */
    method RecordAndSubmit(device: VideoDevice, signal: Handle, c: AcquireChoice) returns (semaphore: Option<Handle>)
      requires Valid(device) && !acquireSubmitted && device.Free(signal)
      modifies this, device
      ensures Attempt(Value(), device.state, semaphore) == Recorded(old(Value()), old(device.state), signal, c)
      ensures semaphore.Some? ==> ready == semaphore && acquireSubmitted
    {
      ghost var d := device.state;
      PrepareAcquire(device);
      SamePending(d, device.state);
      hide LaneInv, DeviceInv, Submitted, Prepared, Pending;
      timed := c.timed;
      if !c.recordOk {
        device.DestroyObject(signal);
        return None;
      }
      semaphore := SubmitRecorded(device, signal, c);
    }

    /** The submission: a loss after it leaves the lane submitted, so nothing it refers to is touched again. */
    method SubmitRecorded(device: VideoDevice, signal: Handle, c: AcquireChoice) returns (semaphore: Option<Handle>)
      requires device.state.lost || AcquireSubmission(Value(), signal, c).uses + {acquireFence} <= device.state.live
      requires device.state.lost || (acquireFence !in device.state.signaled && device.Free(acquireFence) && device.Free(signal))
      modifies this, device
      ensures Attempt(Value(), device.state, semaphore) == Submitted(old(Value()), old(device.state), signal, c)
      ensures semaphore.Some? ==> ready == semaphore && acquireSubmitted
    {
      var submission := RecordAcquire(signal, c);
      device.SubmitVideoQueue(submission, c.submit);
      if c.submit.Failed? {
        device.DestroyObject(signal);
        return None;
      }
      importId, staged, acquireSubmitted, ready := Some(c.importId), c.staged, true, Some(signal);
      if c.submit.Lost? {
        device.MarkDeviceLost();
      }
      semaphore := if c.submit.Fine? then Some(signal) else None;
    }

    /** `ganesh_wait_accepted`: the semaphore now belongs to the renderer. */
    method WaitAccepted(device: VideoDevice, semaphore: Handle) returns (ok: bool)
      requires Valid(device)
      modifies this`ready, this`accepted
      ensures Valid(device) && (ok <==> old(ready) == Some(semaphore))
      ensures ok ==> Value() == old(Value()).(ready := None, accepted := true)
      ensures ok && !device.state.lost ==> semaphore !in Owned(Value())
      ensures !ok ==> Value() == old(Value())
    {
      ok := ready == Some(semaphore);
      if ok {
        if !device.state.lost { AcceptKeeps(Value(), device.state); }
        ready, accepted := None, true;
      }
    }

    method WaitRejected(device: VideoDevice, semaphore: Handle) returns (ok: bool)
      requires Valid(device)
      modifies this`rejected
      ensures Valid(device) && (ok <==> ready == Some(semaphore)) && rejected == (old(rejected) || ok)
    {
      ok := ready == Some(semaphore);
      if ok {
        if !device.state.lost { RejectKeeps(Value(), device.state); }
        rejected := true;
      }
    }

    method SubmitRelease(device: VideoDevice, c: ReleaseChoice)
      requires Valid(device)
      modifies this`releaseSubmitted, this`releaseAt, device
      ensures (Value(), device.state) == SyncLane.SubmitRelease(old(Value()), old(device.state), c)
      ensures Valid(device)
    {
      ghost var l, d := Value(), device.state;
      if !d.lost { ReleaseKeeps(l, d, c, Owned(l)); }
      if releaseSubmitted || !acquireSubmitted || (!accepted && !rejected) || importId != Some(c.importId) {
        return;
      }
      if !d.lost { ReleasePrepares(l, d, Owned(l)); }
      assert d.lost || (device.Free(releaseFence) && device.Free(releasePool) && Owned(l) <= d.live);
      hide LaneInv, DeviceInv, OnlyMine, ReleaseQueued;
      if !c.fenceOk {
        device.UseObject(releaseFence);
        return;
      }
      device.ResetFence(releaseFence);
      device.UseObject(releasePool);
      if !c.poolOk || !c.recordOk {
        return;
      }
      SamePending(d, device.state);
      QueueRelease(device, c.submit);
    }

    /** The recorded release is submitted, behind everything the renderer submitted. */
    method QueueRelease(device: VideoDevice, r: SubmitResult)
      requires device.state.lost || (releaseFence !in device.state.signaled && device.Free(releaseFence) && Owned(Value()) <= device.state.live)
      modifies this`releaseSubmitted, this`releaseAt, device
      ensures (Value(), device.state) == ReleaseQueued(old(Value()), old(device.state), r)
    {
      var place := |device.state.queue|;
      var uses := {releasePool};
      if timed {
        uses := uses + Maybe(query);
      }
      var submission := Submission(uses, releaseFence);
      assert submission == ReleaseSubmission(Value());
      device.SubmitVideoQueue(submission, r);
      if r.Fine? {
        releaseSubmitted, releaseAt := true, place;
      }
      if r.Lost? {
        device.MarkDeviceLost();
      }
    }

    /** `reset_for_reuse`, with the answer of the fence poll. */
    method ResetForReuse(device: VideoDevice, complete: bool) returns (ok: bool)
      requires Valid(device) && Honest(device.state, releaseFence, complete)
      modifies this, device
      ensures (Value(), device.state, ok) == SyncLane.ResetForReuse(old(Value()), old(device.state), complete)
      ensures Valid(device) && (ok ==> old(releaseSubmitted) && complete && !acquireSubmitted)
      ensures !device.state.lost ==> (ok <==> old(releaseSubmitted) && complete) && (ok ==> Idle(device.state, Owned(Value())))
    {
      ghost var l, d := Value(), device.state;
      if !d.lost { ReuseKeeps(l, d, complete, Owned(l)); }
      ok := false;
      if !releaseSubmitted || !complete {
        return;
      }
      if !d.lost { SignaledIsIdle(l, d); }
      if rejected && ready.Some? {
        device.DestroyObject(ready.value);
        ready := None;
      }
      if ready.Some? {
        return;
      }
      importId, staged, acquireSubmitted, accepted, rejected := None, false, false, false, false;
      releaseSubmitted, timed := false, false;
      ok := true;
    }

    /** `drop`: every handle is destroyed in turn, or none is and the device is marked. */
    method Drop(device: VideoDevice, complete: bool)
      requires Valid(device) && Honest(device.state, releaseFence, complete)
      modifies device
      ensures device.state == DropLane(Value(), old(device.state), complete)
      ensures SafeToDestroy(Value(), complete) && !device.state.lost
              ==> device.state == old(device.state).(live := old(device.state).live - Owned(Value()))
      ensures !SafeToDestroy(Value(), complete) ==> device.state == old(device.state).(marked := true)
    {
      if acquireSubmitted && !(releaseSubmitted && complete) {
        device.MarkDeviceLost();
        return;
      }
      ghost var l, d := Value(), device.state;
      if !d.lost {
        if acquireSubmitted { SignaledIsIdle(l, d); }
        DropKeeps(l, d, complete, Owned(l));
        DropOrderOwned(l);
      } else {
        DropStaysLost(l, d, complete);
      }
      var order := Sequence(importedAcquire) + Sequence(ready) + Sequence(query) + [releaseFence, acquireFence, releasePool, acquirePool];
      assert order == DropOrder(l);
      hide DropOrder, Owned, DestroyAll;
      device.DestroyInOrder(order);
    }
  }
}
