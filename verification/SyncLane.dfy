/**
 The one-shot synchronization lanes of imported frames over one in-order GPU queue.

 The device keeps what it was asked to do in submission order and finishes it in that order, so
 a signalled fence proves every earlier submission finished. `misused` records a call the Vulkan
 specification forbids: resetting, reusing or destroying an object a pending submission refers
 to, using a destroyed one, or submitting with a fence that is signalled or in use. Every result
 the driver returns is a choice, also after the device was `lost`. `marked` is the flag of the
 device context, set by whoever saw or feared a loss; no lane reads it.
 */
module SyncLane {
  import opened Common

  type Handle = int
  type Id = int

  datatype Submission = Submission(uses: set<Handle>, fence: Handle)

  datatype Device = Device(
    queue: seq<Submission>,
    done: nat,
    signaled: set<Handle>,
    live: set<Handle>,
    next: Handle,
    lost: bool,
    misused: bool,
    marked: bool)

  predicate Refers(s: Submission, h: Handle) { h in s.uses || h == s.fence }

  /** A submission the GPU has not finished refers to `h`. */
  predicate Pending(d: Device, h: Handle) { exists i :: d.done <= i < |d.queue| && Refers(d.queue[i], h) }

  function Create(d: Device): (r: (Device, Handle))
    ensures r.1 == d.next && r.1 in r.0.live
  {
    (d.(live := d.live + {d.next}, next := d.next + 1), d.next)
  }

  /** A call that requires `h` to exist and to be idle. */
  function UseIdle(d: Device, h: Handle): Device { d.(misused := d.misused || Pending(d, h) || h !in d.live) }

  function ResetFence(d: Device, f: Handle): Device { UseIdle(d, f).(signaled := d.signaled - {f}) }

  function Destroy(d: Device, h: Handle): Device { UseIdle(d, h).(live := d.live - {h}) }

  function DestroyAll(d: Device, hs: seq<Handle>): Device
    decreases |hs|
  {
    if hs == [] then d else DestroyAll(Destroy(d, hs[0]), hs[1..])
  }

  function Submit(d: Device, s: Submission): Device {
    d.(queue := d.queue + [s],
       misused := d.misused || !(s.uses + {s.fence} <= d.live) || s.fence in d.signaled || Pending(d, s.fence))
  }

  /** The GPU finishes the oldest unfinished submission. */
  function Retire(d: Device): Device
    requires d.done < |d.queue|
  {
    d.(done := d.done + 1, signaled := d.signaled + {d.queue[d.done].fence})
  }

  /** One lane. `releaseAt` is where its release submission stands in the queue. */
  datatype Lane = Lane(
    acquirePool: Handle,
    releasePool: Handle,
    acquireFence: Handle,
    releaseFence: Handle,
    query: Option<Handle>,
    importedAcquire: Option<Handle>,
    ready: Option<Handle>,
    importId: Option<nat>,
    staged: bool,
    acquireSubmitted: bool,
    accepted: bool,
    rejected: bool,
    releaseSubmitted: bool,
    timed: bool,
    releaseAt: nat)

  function Maybe(h: Option<Handle>): set<Handle> { if h.Some? then {h.value} else {} }

  function Owned(l: Lane): set<Handle> {
    {l.acquirePool, l.releasePool, l.acquireFence, l.releaseFence} + Maybe(l.query) + Maybe(l.importedAcquire) + Maybe(l.ready)
  }

  datatype SubmitResult = Fine | Lost(consumed: bool) | Failed

  datatype QueryResult = NoQuery | MadeQuery | QueryFailed | QueryLost

  /** What the driver decides while a lane is built. Without timing, or without memory for it, the lane has no query pool. */
  datatype NewChoice = NewChoice(
    acquirePoolOk: bool, releasePoolOk: bool, commandsOk: bool, acquireFenceOk: bool, releaseFenceOk: bool, query: QueryResult)

  /** What the driver and the producer decide during one `submit_acquire`. */
  datatype AcquireChoice = AcquireChoice(
    importId: nat, staged: bool, hasFd: bool, semaphoreOk: bool, importOk: bool, readyOk: bool, fenceOk: bool, recordOk: bool,
    timed: bool, submit: SubmitResult)

  datatype ReleaseChoice = ReleaseChoice(importId: nat, fenceOk: bool, poolOk: bool, recordOk: bool, submit: SubmitResult)

  datatype Attempt = Attempt(lane: Lane, device: Device, ready: Option<Handle>)

  function EmptyLane(acquirePool: Handle, releasePool: Handle, acquireFence: Handle, releaseFence: Handle, query: Option<Handle>): Lane {
    Lane(acquirePool, releasePool, acquireFence, releaseFence, query, None, None, None, false, false, false, false, false, false, 0)
  }

  /** `new` once both pools exist: a failure destroys the fences it made. */
  function BuildRest(d: Device, acquirePool: Handle, releasePool: Handle, c: NewChoice): (Option<Lane>, Device) {
    if !c.commandsOk || !c.acquireFenceOk then (None, d)
    else
      var (d1, acquireFence) := Create(d);
      if !c.releaseFenceOk then (None, Destroy(d1, acquireFence))
      else
        var (d2, releaseFence) := Create(d1);
        match c.query
        case NoQuery => (Some(EmptyLane(acquirePool, releasePool, acquireFence, releaseFence, None)), d2)
        case MadeQuery =>
          var (d3, query) := Create(d2);
          (Some(EmptyLane(acquirePool, releasePool, acquireFence, releaseFence, Some(query))), d3)
        case QueryFailed => (None, Destroy(Destroy(d2, releaseFence), acquireFence))
        case QueryLost => (None, Destroy(Destroy(d2.(lost := true, marked := true), releaseFence), acquireFence))
  }

  /** `new`: the lane and its objects, or none of them. */
  function TryNew(d: Device, c: NewChoice): (Option<Lane>, Device) {
    if !c.acquirePoolOk then (None, d)
    else
      var (d1, acquirePool) := Create(d);
      if !c.releasePoolOk then (None, Destroy(d1, acquirePool))
      else
        var (d2, releasePool) := Create(d1);
        var (lane, d3) := BuildRest(d2, acquirePool, releasePool, c);
        if lane.None? then (None, Destroy(Destroy(d3, releasePool), acquirePool)) else (lane, d3)
  }

  /** The temporary sync-file import: reuses the lane's semaphore, or creates one and keeps it on success. */
  function ImportFd(l: Lane, d: Device, c: AcquireChoice): (Lane, Device, bool) {
    if !c.hasFd then (l, d, true)
    else
      match l.importedAcquire
      case Some(s) => (l, UseIdle(d, s), c.importOk)
      case None =>
        if !c.semaphoreOk then (l, d, false)
        else
          var (d1, s) := Create(d);
          if c.importOk then (l.(importedAcquire := Some(s)), UseIdle(d1, s), true) else (l, Destroy(d1, s), false)
  }

  function AcquireSubmission(l: Lane, ready: Handle, c: AcquireChoice): Submission {
    Submission({l.acquirePool, ready} + (if c.hasFd then Maybe(l.importedAcquire) else {}) + (if c.timed then Maybe(l.query) else {}),
               l.acquireFence)
  }

  function Prepared(l: Lane, d: Device): Device { UseIdle(ResetFence(d, l.acquireFence), l.acquirePool) }

  function SubmitAcquire(l: Lane, d: Device, c: AcquireChoice): Attempt {
    if l.acquireSubmitted || l.releaseSubmitted then Attempt(l, d, None)
    else
      var (l1, d1, ok) := ImportFd(l, d, c);
      if !ok || !c.readyOk then Attempt(l1, d1, None)
      else
        var (d2, ready) := Create(d1);
        if !c.fenceOk then Attempt(l1, Destroy(UseIdle(d2, l1.acquireFence), ready), None)
        else
          var d3 := Prepared(l1, d2);
          if !c.recordOk then Attempt(l1.(timed := c.timed), Destroy(d3, ready), None)
          else
            var s := AcquireSubmission(l1, ready, c);
            var l2 := l1.(importId := Some(c.importId), staged := c.staged, acquireSubmitted := true, ready := Some(ready), timed := c.timed);
            match c.submit
            case Fine => Attempt(l2, Submit(d3, s), Some(ready))
            case Lost(consumed) => Attempt(l2, (if consumed then Submit(d3, s) else d3).(lost := true, marked := true), None)
            case Failed => Attempt(l1.(timed := c.timed), Destroy(d3, ready), None)
  }

  function ReleaseSubmission(l: Lane): Submission {
    Submission({l.releasePool} + (if l.timed then Maybe(l.query) else {}), l.releaseFence)
  }

  function SubmitRelease(l: Lane, d: Device, c: ReleaseChoice): (Lane, Device) {
    if l.releaseSubmitted || !l.acquireSubmitted || (!l.accepted && !l.rejected) || l.importId != Some(c.importId) then (l, d)
    else if !c.fenceOk then (l, UseIdle(d, l.releaseFence))
    else
      var d1 := ResetFence(d, l.releaseFence);
      var d2 := UseIdle(d1, l.releasePool);
      if !c.poolOk || !c.recordOk then (l, d2) else ReleaseQueued(l, d2, c.submit)
  }

  /** The recorded release is submitted. */
  function ReleaseQueued(l: Lane, d: Device, r: SubmitResult): (Lane, Device) {
    match r
    case Fine => (l.(releaseSubmitted := true, releaseAt := |d.queue|), Submit(d, ReleaseSubmission(l)))
    case Lost(consumed) => (l, (if consumed then Submit(d, ReleaseSubmission(l)) else d).(lost := true, marked := true))
    case Failed => (l, d)
  }

  /** `reset_for_reuse`; `complete` is what polling the release fence said. */
  function ResetForReuse(l: Lane, d: Device, complete: bool): (Lane, Device, bool) {
    if !l.releaseSubmitted || !complete then (l, d, false)
    else
      var drops := l.rejected && l.ready.Some?;
      var d1 := if drops then Destroy(d, l.ready.value) else d;
      var l1 := if drops then l.(ready := None) else l;
      if l1.ready.Some? then (l1, d1, false)
      else
        (l1.(importId := None, staged := false, acquireSubmitted := false, accepted := false, rejected := false,
             releaseSubmitted := false, timed := false), d1, true)
  }

  function Sequence(h: Option<Handle>): seq<Handle> { if h.Some? then [h.value] else [] }

  /** The handles `drop` destroys, in its order. */
  function DropOrder(l: Lane): seq<Handle> {
    Sequence(l.importedAcquire) + Sequence(l.ready) + Sequence(l.query) + [l.releaseFence, l.acquireFence, l.releasePool, l.acquirePool]
  }

  predicate SafeToDestroy(l: Lane, complete: bool) { !l.acquireSubmitted || (l.releaseSubmitted && complete) }

  function DropLane(l: Lane, d: Device, complete: bool): Device {
    if SafeToDestroy(l, complete) then DestroyAll(d, DropOrder(l)) else d.(marked := true)
  }

  // ---- all lanes ---------------------------------------------------------------------------

  /** `elsewhere` are the handles of everybody else, the renderer's accepted semaphores among them; `given`
      and `freed` the semaphores and other handles lanes handed over and destroyed; `kept` the lanes
      dropped without proof of completion. */
  datatype System = System(
    device: Device,
    lanes: map<Id, Lane>,
    elsewhere: set<Handle>,
    given: set<Handle>,
    freed: set<Handle>,
    kept: set<Lane>)

  datatype Action =
    | NewLane(id: Id, build: NewChoice)
    | Acquire(id: Id, acquire: AcquireChoice)
    | Accept(id: Id, semaphore: Handle)
    | Reject(id: Id, semaphore: Handle)
    | Release(id: Id, release: ReleaseChoice)
    | Reuse(id: Id, complete: bool)
    | DropIt(id: Id, complete: bool)
    | Finish
    | OthersCreate
    | OthersSubmit(submission: Submission)
    | OthersDestroy(handle: Handle)
    | LoseDevice
    | ReportLoss

  /** A fence poll answers yes only for a signalled fence, unless the device is lost. */
  predicate Honest(d: Device, f: Handle, complete: bool) { complete && !d.lost ==> f in d.signaled }

  predicate Enabled(y: System, a: Action) {
    match a
    case NewLane(id, _) => id !in y.lanes
    case Acquire(id, _) => id in y.lanes
    case Accept(id, _) => id in y.lanes
    case Reject(id, _) => id in y.lanes
    case Release(id, _) => id in y.lanes
    case Reuse(id, complete) => id in y.lanes && Honest(y.device, y.lanes[id].releaseFence, complete)
    case DropIt(id, complete) => id in y.lanes && Honest(y.device, y.lanes[id].releaseFence, complete)
    case Finish => y.device.done < |y.device.queue|
    case OthersCreate => true
    case OthersSubmit(s) => s.uses + {s.fence} <= y.elsewhere
    case OthersDestroy(h) => h in y.elsewhere
    case LoseDevice => true
    case ReportLoss => y.device.lost
  }

  ghost function Next(y: System, a: Action): System
    requires Enabled(y, a)
  {
    match a
    case NewLane(id, c) =>
      var (l, d) := TryNew(y.device, c);
      y.(lanes := if l.Some? then y.lanes[id := l.value] else y.lanes, device := d)
    case Acquire(id, c) =>
      var r := SubmitAcquire(y.lanes[id], y.device, c);
      y.(lanes := y.lanes[id := r.lane], device := r.device)
    case Accept(id, semaphore) =>
      var l := y.lanes[id];
      if l.ready == Some(semaphore) then
        y.(lanes := y.lanes[id := l.(ready := None, accepted := true)], elsewhere := y.elsewhere + {semaphore}, given := y.given + {semaphore})
      else y
    case Reject(id, semaphore) =>
      var l := y.lanes[id];
      if l.ready == Some(semaphore) then y.(lanes := y.lanes[id := l.(rejected := true)]) else y
    case Release(id, c) =>
      var (l, d) := SubmitRelease(y.lanes[id], y.device, c);
      y.(lanes := y.lanes[id := l], device := d)
    case Reuse(id, complete) =>
      var (l, d, ok) := ResetForReuse(y.lanes[id], y.device, complete);
      y.(lanes := y.lanes[id := l], device := d, freed := y.freed + (y.device.live - d.live))
    case DropIt(id, complete) =>
      var l := y.lanes[id];
      var d := DropLane(l, y.device, complete);
      var z := y.(lanes := y.lanes - {id}, device := d, freed := y.freed + (y.device.live - d.live));
      if SafeToDestroy(l, complete) then z else z.(kept := y.kept + {l})
    case Finish => y.(device := Retire(y.device))
    case OthersCreate => var (d, h) := Create(y.device); y.(device := d, elsewhere := y.elsewhere + {h})
    case OthersSubmit(s) => y.(device := y.device.(queue := y.device.queue + [s]))
    case OthersDestroy(h) => y.(device := y.device.(live := y.device.live - {h}), elsewhere := y.elsewhere - {h})
    case LoseDevice => y.(device := y.device.(lost := true))
    case ReportLoss => y.(device := y.device.(marked := true))
  }

  const STARTED := System(Device([], 0, {}, {}, 0, false, false, false), map[], {}, {}, {}, {})

  // ---- the invariant -----------------------------------------------------------------------

  ghost predicate Idle(d: Device, hs: set<Handle>) { forall h :: h in hs ==> !Pending(d, h) }

  /** The release submission is the last that refers to anything of the lane, and its fence tells when it is done. */
  ghost predicate ReleasedInv(l: Lane, d: Device) {
    && l.releaseAt < |d.queue| && d.queue[l.releaseAt].fence == l.releaseFence
    && (l.releaseFence in d.signaled <==> l.releaseAt < d.done)
    && (forall i, h :: d.done <= i < |d.queue| && h in Owned(l) && Refers(d.queue[i], h) ==> i <= l.releaseAt)
    && (forall i :: d.done <= i < |d.queue| && Refers(d.queue[i], l.releaseFence) ==> i == l.releaseAt)
  }

  ghost predicate LaneInv(l: Lane, d: Device) {
    && Owned(l) <= d.live && Distinct(DropOrder(l)) && (forall h :: h in Owned(l) ==> h < d.next)
    && (!l.acquireSubmitted ==> Idle(d, Owned(l)) && l.ready.None? && !l.releaseSubmitted && !l.accepted && !l.rejected)
    && (l.acquireSubmitted && !l.releaseSubmitted ==> Idle(d, {l.releasePool, l.releaseFence}))
    && (l.acquireSubmitted ==> (l.ready.None? <==> l.accepted))
    && (l.releaseSubmitted ==> l.acquireSubmitted && (l.accepted || l.rejected) && ReleasedInv(l, d))
  }

  ghost predicate DeviceInv(d: Device) {
    && d.done <= |d.queue| && (forall h :: h in d.live ==> h < d.next)
    && (forall i: int, h: Handle :: 0 <= i < |d.queue| && Refers(d.queue[i], h) ==> h < d.next)
  }

  /** A release fence seen signalled leaves nothing of the lane in flight. */
  lemma SignaledIsIdle(l: Lane, d: Device)
    requires LaneInv(l, d) && l.releaseSubmitted && l.releaseFence in d.signaled
    ensures Idle(d, Owned(l))
  {
  }

  // ---- what one lane's calls do to the device ----------------------------------------------

  /** `e` is `d` after calls that concern only `mine`, none of them a misuse. */
  ghost predicate OnlyMine(d: Device, e: Device, mine: set<Handle>) {
    && d.queue <= e.queue && e.done == d.done && d.next <= e.next && e.lost == d.lost && (!d.misused ==> !e.misused)
    && (forall i, h :: |d.queue| <= i < |e.queue| && Refers(e.queue[i], h) ==> h in mine)
    && (forall h :: h in d.live && h !in mine ==> h in e.live)
    && (forall h :: h !in mine ==> (h in d.signaled <==> h in e.signaled))
  }

  lemma PendingMine(d: Device, e: Device, mine: set<Handle>, h: Handle)
    requires OnlyMine(d, e, mine) && h !in mine
    ensures Pending(e, h) <==> Pending(d, h)
  {
    if Pending(d, h) {
      var i :| d.done <= i < |d.queue| && Refers(d.queue[i], h);
      assert e.queue[i] == d.queue[i];
    }
    if Pending(e, h) {
      var i :| e.done <= i < |e.queue| && Refers(e.queue[i], h);
      assert i < |d.queue| && e.queue[i] == d.queue[i];
    }
  }

  lemma MineTwice(d: Device, e: Device, f: Device, mine: set<Handle>)
    requires OnlyMine(d, e, mine) && OnlyMine(e, f, mine)
    ensures OnlyMine(d, f, mine)
  {
    forall i, h | |d.queue| <= i < |f.queue| && Refers(f.queue[i], h) ensures h in mine {
      if i < |e.queue| { assert e.queue[i] == f.queue[i]; }
    }
  }

  /** Calls about one lane's handles leave every other lane as it was. */
  lemma OtherLaneStays(l: Lane, d: Device, e: Device, mine: set<Handle>)
    requires LaneInv(l, d) && OnlyMine(d, e, mine) && Owned(l) !! mine && d.done <= |d.queue|
    ensures LaneInv(l, e)
  {
    assert Owned(l) <= e.live by {
      forall h | h in Owned(l) ensures h in e.live { assert h in d.live && h !in mine; }
    }
    forall h | h in Owned(l) ensures Pending(e, h) <==> Pending(d, h) { PendingMine(d, e, mine, h); }
    if l.releaseSubmitted {
      assert forall i, h :: e.done <= i < |e.queue| && h in Owned(l) && Refers(e.queue[i], h) ==> i < |d.queue| && d.queue[i] == e.queue[i];
      assert l.releaseFence in Owned(l);
    }
  }

  lemma UseIdleMine(d: Device, h: Handle, mine: set<Handle>)
    requires h in d.live && !Pending(d, h)
    ensures OnlyMine(d, UseIdle(d, h), mine) && UseIdle(d, h) == d
  {
  }

  lemma DestroyMine(d: Device, h: Handle, mine: set<Handle>)
    requires h in d.live && !Pending(d, h) && h in mine
    ensures OnlyMine(d, Destroy(d, h), mine) && Destroy(d, h) == d.(live := d.live - {h})
  {
  }

  lemma SamePending(d: Device, e: Device)
    requires e.queue == d.queue && e.done == d.done
    ensures forall h :: Pending(e, h) <==> Pending(d, h)
  {
    forall h ensures Pending(e, h) <==> Pending(d, h) {
      if Pending(d, h) { var i :| d.done <= i < |d.queue| && Refers(d.queue[i], h); assert Refers(e.queue[i], h); }
      if Pending(e, h) { var i :| e.done <= i < |e.queue| && Refers(e.queue[i], h); assert Refers(d.queue[i], h); }
    }
  }

  // ---- acquiring ---------------------------------------------------------------------------

  lemma NewIsIdle(d: Device, h: Handle)
    requires DeviceInv(d) && d.next <= h
    ensures !Pending(d, h) && h !in d.live
  {
  }

  lemma DropOrderOwned(l: Lane)
    ensures Elements(DropOrder(l)) == Owned(l)
  {
    assert forall h :: h in DropOrder(l) <==> h in Owned(l);
  }

  lemma ImportOrder(l: Lane, h: Handle)
    requires l.importedAcquire.None?
    ensures var m := l.(importedAcquire := Some(h));
            DropOrder(m) == DropOrder(l)[..0] + [h] + DropOrder(l)[0..] && Owned(m) == Owned(l) + {h}
  {
    var m := l.(importedAcquire := Some(h));
    var o, n := DropOrder(l), DropOrder(m);
    assert |n| == |o| + 1 && n[0] == h;
    assert forall i :: 0 <= i < |o| ==> n[i + 1] == o[i];
    hide DropOrder, Sequence;
    assert n == o[..0] + [h] + o[0..];
  }

  lemma ReadyOrder(l: Lane, h: Handle)
    requires l.ready.None?
    ensures var m, k := l.(ready := Some(h)), |Sequence(l.importedAcquire)|;
            k <= |DropOrder(l)| && DropOrder(m) == DropOrder(l)[..k] + [h] + DropOrder(l)[k..] && Owned(m) == Owned(l) + {h}
  {
    var a, rest := Sequence(l.importedAcquire), Sequence(l.query) + [l.releaseFence, l.acquireFence, l.releasePool, l.acquirePool];
    assert DropOrder(l) == a + rest && DropOrder(l.(ready := Some(h))) == a + [h] + rest;
  }

  /** A lane that gains a handle nobody had. */
  lemma GainsHandle(l: Lane, m: Lane, h: Handle)
    requires Distinct(DropOrder(l)) && h !in Owned(l)
    requires (l.importedAcquire.None? && m == l.(importedAcquire := Some(h))) || (l.ready.None? && m == l.(ready := Some(h)))
    ensures Distinct(DropOrder(m)) && Owned(m) == Owned(l) + {h}
  {
    DropOrderOwned(l);
    assert h !in Elements(DropOrder(l)) && h !in DropOrder(l);
    hide DropOrder, Owned, Distinct, Elements;
    if l.importedAcquire.None? && m == l.(importedAcquire := Some(h)) {
      ImportOrder(l, h);
      InsertDistinct(DropOrder(l), 0, h);
    } else {
      ReadyOrder(l, h);
      InsertDistinct(DropOrder(l), |Sequence(l.importedAcquire)|, h);
    }
  }

  lemma InsertDistinct(s: seq<Handle>, k: nat, h: Handle)
    requires Distinct(s) && k <= |s| && h !in s
    ensures Distinct(s[..k] + [h] + s[k..])
    ensures Elements(s[..k] + [h] + s[k..]) == Elements(s) + {h}
  {
    var t := s[..k] + [h] + s[k..];
    assert forall i :: 0 <= i < |t| ==> t[i] == if i < k then s[i] else if i == k then h else s[i - 1];
    assert forall i :: 0 <= i < |s| ==> s[i] == if i < k then t[i] else t[i + 1];
    assert t[k] == h;
  }

  /** Before its acquire is submitted nothing of the lane is in flight. */
  ghost predicate Fresh(l: Lane, d: Device) { LaneInv(l, d) && DeviceInv(d) && !l.acquireSubmitted }

  lemma FreshCreates(l: Lane, d: Device, mine: set<Handle>)
    requires Fresh(l, d) && d.next in mine
    ensures var (e, h) := Create(d);
            Fresh(l, e) && OnlyMine(d, e, mine) && h !in Owned(l) && !Pending(e, h) && h in e.live && e.queue == d.queue
  {
    var e := Create(d).0;
    NewIsIdle(d, d.next);
    SamePending(d, e);
  }

  lemma ImportKeeps(l: Lane, d: Device, c: AcquireChoice, mine: set<Handle>)
    requires Fresh(l, d) && Owned(l) + {d.next} <= mine
    ensures var (m, e, ok) := ImportFd(l, d, c);
            && Fresh(m, e) && OnlyMine(d, e, mine) && Owned(m) <= Owned(l) + {d.next} && d.next <= e.next <= d.next + 1
            && m == l.(importedAcquire := m.importedAcquire) && (ok && c.hasFd ==> m.importedAcquire.Some?)
  {
    if c.hasFd {
      match l.importedAcquire
      case Some(s) => UseIdleMine(d, s, mine);
      case None =>
        if c.semaphoreOk {
          FreshCreates(l, d, mine);
          var (e, s) := Create(d);
          if c.importOk {
            UseIdleMine(e, s, mine);
            GainsHandle(l, l.(importedAcquire := Some(s)), s);
            NewIsIdle(d, s);
            SamePending(d, e);
          } else {
            DestroyMine(e, s, mine);
            SamePending(e, Destroy(e, s));
          }
        }
    }
  }

  lemma PreparedKeeps(l: Lane, d: Device, mine: set<Handle>)
    requires Fresh(l, d) && Owned(l) <= mine
    ensures Prepared(l, d) == d.(signaled := d.signaled - {l.acquireFence})
    ensures Fresh(l, Prepared(l, d)) && OnlyMine(d, Prepared(l, d), mine)
  {
    UseIdleMine(d, l.acquireFence, mine);
    var e := d.(signaled := d.signaled - {l.acquireFence});
    SamePending(d, e);
  }

  /** Destroying the semaphore created for this attempt undoes its creation. */
  lemma GivesUp(l: Lane, d: Device, ready: Handle, mine: set<Handle>)
    requires Fresh(l, d) && ready in d.live && !Pending(d, ready) && ready !in Owned(l) && ready in mine
    ensures Fresh(l, Destroy(d, ready)) && OnlyMine(d, Destroy(d, ready), mine)
  {
    DestroyMine(d, ready, mine);
    SamePending(d, Destroy(d, ready));
  }

  /** The acquire submission uses live, idle objects, and leaves the release objects idle. */
  lemma AcquireSubmits(l: Lane, d: Device, ready: Handle, c: AcquireChoice, m: Lane, mine: set<Handle>)
    requires Fresh(l, d) && ready in d.live && !Pending(d, ready) && ready !in Owned(l) && Owned(l) + {ready} <= mine
    requires l.acquireFence !in d.signaled && ready < d.next
    requires m == l.(importId := m.importId, staged := m.staged, acquireSubmitted := true, ready := Some(ready), timed := m.timed)
    ensures var e := Submit(d, AcquireSubmission(l, ready, c));
            && LaneInv(m, e) && DeviceInv(e) && OnlyMine(d, e, mine) && Owned(m) == Owned(l) + {ready}
  {
    var s := AcquireSubmission(l, ready, c);
    var e := Submit(d, s);
    GainsHandle(l, m.(acquireSubmitted := false, importId := l.importId, staged := l.staged, timed := l.timed), ready);
    assert DropOrder(m) == DropOrder(m.(acquireSubmitted := false, importId := l.importId, staged := l.staged, timed := l.timed));
    assert s.uses + {s.fence} <= Owned(l) + {ready};
    assert !Pending(d, s.fence);
    DropOrderDistinct(l);
    assert !Refers(s, l.releasePool) && !Refers(s, l.releaseFence) by {
      assert ready !in {l.releasePool, l.releaseFence};
    }
    PendingMine(d, e, s.uses + {s.fence}, l.releasePool);
    PendingMine(d, e, s.uses + {s.fence}, l.releaseFence);
  }

  /** The release pool and fence are none of the objects the acquire uses. */
  lemma DropOrderDistinct(l: Lane)
    requires Distinct(DropOrder(l))
    ensures l.releaseFence != l.acquireFence && l.releaseFence != l.releasePool && l.releaseFence != l.acquirePool
    ensures l.releasePool != l.acquireFence && l.releasePool != l.acquirePool && l.acquireFence != l.acquirePool
    ensures {l.releaseFence, l.acquireFence, l.releasePool, l.acquirePool} !! Maybe(l.query) + Maybe(l.importedAcquire) + Maybe(l.ready)
    ensures Maybe(l.ready) !! Maybe(l.query) + Maybe(l.importedAcquire)
  {
    var o := DropOrder(l);
    var n := |o|;
    assert o[n - 4] == l.releaseFence && o[n - 3] == l.acquireFence && o[n - 2] == l.releasePool && o[n - 1] == l.acquirePool;
    assert l.query.Some? ==> o[n - 5] == l.query.value;
    assert l.importedAcquire.Some? ==> o[0] == l.importedAcquire.value;
    assert l.ready.Some? ==> o[|Sequence(l.importedAcquire)|] == l.ready.value;
  }

  lemma AcquireContinues(l: Lane, d: Device, c: AcquireChoice)
    requires !l.acquireSubmitted && !l.releaseSubmitted
    ensures var (l1, d1, ok) := ImportFd(l, d, c);
            SubmitAcquire(l, d, c) == if ok && c.readyOk then AfterImport(l1, d1, c) else Attempt(l1, d1, None)
  {
    hide ImportFd;
  }

  /** Whatever `submit_acquire` meets, it misuses nothing and leaves the lane consistent. */
  lemma AcquireKeeps(l: Lane, d: Device, c: AcquireChoice, mine: set<Handle>)
    requires LaneInv(l, d) && DeviceInv(d) && Owned(l) + {d.next, d.next + 1} <= mine
    ensures var r := SubmitAcquire(l, d, c);
            !r.device.lost && !d.lost ==> LaneInv(r.lane, r.device) && DeviceInv(r.device) && OnlyMine(d, r.device, mine)
                                          && Owned(r.lane) <= Owned(l) + {d.next, d.next + 1}
  {
    if !(l.acquireSubmitted || l.releaseSubmitted) {
      ImportKeeps(l, d, c, mine);
      AcquireContinues(l, d, c);
      var (l1, d1, ok) := ImportFd(l, d, c);
      hide ImportFd, SubmitAcquire;
      if ok && c.readyOk {
        hide LaneInv;
        AcquireCreates(l1, d1, c, mine);
        hide AfterImport, OnlyMine, DeviceInv;
        if !AfterImport(l1, d1, c).device.lost { MineTwice(d, d1, AfterImport(l1, d1, c).device, mine); }
      }
    } else {
      assert OnlyMine(d, d, mine);
    }
  }

  /** `submit_acquire` once the producer's sync file has been imported. */
  function AfterImport(l1: Lane, d1: Device, c: AcquireChoice): Attempt {
    var (d2, ready) := Create(d1);
    if !c.fenceOk then Attempt(l1, Destroy(UseIdle(d2, l1.acquireFence), ready), None) else Recorded(l1, d2, ready, c)
  }

  /** The fence and the pool are reset and the commands recorded. */
  function Recorded(l: Lane, d: Device, ready: Handle, c: AcquireChoice): Attempt {
    var e := Prepared(l, d);
    if !c.recordOk then Attempt(l.(timed := c.timed), Destroy(e, ready), None) else Submitted(l.(timed := c.timed), e, ready, c)
  }

  /** The recorded commands are submitted. */
  function Submitted(l: Lane, d: Device, ready: Handle, c: AcquireChoice): Attempt {
    var s := AcquireSubmission(l, ready, c);
    var m := l.(importId := Some(c.importId), staged := c.staged, acquireSubmitted := true, ready := Some(ready));
    match c.submit
    case Fine => Attempt(m, Submit(d, s), Some(ready))
    case Lost(consumed) => Attempt(m, (if consumed then Submit(d, s) else d).(lost := true, marked := true), None)
    case Failed => Attempt(l, Destroy(d, ready), None)
  }

  lemma SubmittedKeeps(l: Lane, d: Device, ready: Handle, c: AcquireChoice, mine: set<Handle>)
    requires Fresh(l, d) && ready in d.live && !Pending(d, ready) && ready !in Owned(l) && Owned(l) + {ready} <= mine
    requires l.acquireFence !in d.signaled && ready < d.next
    ensures var r := Submitted(l, d, ready, c);
            !r.device.lost ==> LaneInv(r.lane, r.device) && DeviceInv(r.device) && OnlyMine(d, r.device, mine) && Owned(r.lane) <= Owned(l) + {ready}
  {
    var m := l.(importId := Some(c.importId), staged := c.staged, acquireSubmitted := true, ready := Some(ready));
    AcquireSubmits(l, d, ready, c, m, mine);
    GivesUp(l, d, ready, mine);
    hide Distinct, DropOrder, Pending, ReleasedInv, OnlyMine, Owned;
  }

  lemma AcquireCreates(l: Lane, d: Device, c: AcquireChoice, mine: set<Handle>)
    requires Fresh(l, d) && Owned(l) + {d.next} <= mine
    ensures var r := AfterImport(l, d, c);
            !r.device.lost ==> LaneInv(r.lane, r.device) && DeviceInv(r.device) && OnlyMine(d, r.device, mine) && Owned(r.lane) <= Owned(l) + {d.next}
  {
    var (d2, ready) := Create(d);
    FreshCreates(l, d, mine);
    NewIsIdle(d, ready);
    if !c.fenceOk {
      UseIdleMine(d2, l.acquireFence, mine);
      GivesUp(l, d2, ready, mine);
      MineTwice(d, d2, Destroy(d2, ready), mine);
    } else {
      var d3, timed := Prepared(l, d2), l.(timed := c.timed);
      PreparedKeeps(l, d2, mine);
      SamePending(d2, d3);
      MineTwice(d, d2, d3, mine);
      TimedSame(l, timed, d3);
      hide LaneInv, OnlyMine, DeviceInv, Pending, Distinct, DropOrder, Owned;
      if !c.recordOk {
        GivesUp(timed, d3, ready, mine);
        MineTwice(d, d3, Destroy(d3, ready), mine);
      } else {
        SubmittedKeeps(timed, d3, ready, c, mine);
        hide Submitted;
        if !Submitted(timed, d3, ready, c).device.lost { MineTwice(d, d3, Submitted(timed, d3, ready, c).device, mine); }
      }
    }
  }

  lemma TimedSame(l: Lane, m: Lane, d: Device)
    requires m == l.(timed := m.timed)
    ensures LaneInv(l, d) ==> LaneInv(m, d)
    ensures Owned(m) == Owned(l)
  {
    assert DropOrder(m) == DropOrder(l);
  }

  // ---- releasing ---------------------------------------------------------------------------

  lemma ReleasePrepares(l: Lane, d: Device, mine: set<Handle>)
    requires LaneInv(l, d) && DeviceInv(d) && l.acquireSubmitted && !l.releaseSubmitted && Owned(l) <= mine
    ensures UseIdle(d, l.releaseFence) == d
    ensures var e := UseIdle(ResetFence(d, l.releaseFence), l.releasePool);
            && e == d.(signaled := d.signaled - {l.releaseFence})
            && LaneInv(l, e) && DeviceInv(e) && OnlyMine(d, e, mine)
  {
    UseIdleMine(d, l.releaseFence, mine);
    var e := d.(signaled := d.signaled - {l.releaseFence});
    SamePending(d, e);
    UseIdleMine(e, l.releasePool, mine);
  }

  lemma OnlyLast(d: Device, e: Device, h: Handle)
    requires !Pending(d, h) && |e.queue| == |d.queue| + 1 && d.queue <= e.queue && e.done == d.done
    ensures forall i :: e.done <= i < |e.queue| && Refers(e.queue[i], h) ==> i == |d.queue|
  {
    assert forall i :: 0 <= i < |d.queue| ==> e.queue[i] == d.queue[i];
  }

  /** The release submission is behind everything else that refers to the lane. */
  lemma ReleaseSubmits(l: Lane, d: Device, m: Lane, mine: set<Handle>)
    requires LaneInv(l, d) && DeviceInv(d) && l.acquireSubmitted && !l.releaseSubmitted && (l.accepted || l.rejected)
    requires l.releaseFence !in d.signaled && Owned(l) <= mine && m == l.(releaseSubmitted := true, releaseAt := |d.queue|)
    ensures var e := Submit(d, ReleaseSubmission(l));
            LaneInv(m, e) && DeviceInv(e) && OnlyMine(d, e, mine) && Owned(m) == Owned(l)
  {
    var s := ReleaseSubmission(l);
    var e := Submit(d, s);
    assert s.uses + {s.fence} <= Owned(l);
    assert DropOrder(m) == DropOrder(l);
    assert e.queue[|d.queue|] == s;
    OnlyLast(d, e, l.releaseFence);
    assert ReleasedInv(m, e);
  }

  lemma ReleaseKeeps(l: Lane, d: Device, c: ReleaseChoice, mine: set<Handle>)
    requires LaneInv(l, d) && DeviceInv(d) && Owned(l) <= mine
    ensures var (m, e) := SubmitRelease(l, d, c);
            !e.lost && !d.lost ==> LaneInv(m, e) && DeviceInv(e) && OnlyMine(d, e, mine) && Owned(m) == Owned(l)
  {
    assert OnlyMine(d, d, mine);
    if !(l.releaseSubmitted || !l.acquireSubmitted || (!l.accepted && !l.rejected) || l.importId != Some(c.importId)) {
      ReleasePrepares(l, d, mine);
      if c.fenceOk {
        var e := UseIdle(ResetFence(d, l.releaseFence), l.releasePool);
        assert l.releaseFence !in e.signaled;
        hide LaneInv, DeviceInv, OnlyMine, UseIdle, ResetFence, Owned;
        ReleaseSubmits(l, e, l.(releaseSubmitted := true, releaseAt := |e.queue|), mine);
        MineTwice(d, e, Submit(e, ReleaseSubmission(l)), mine);
      }
    }
  }

  // ---- reuse and drop ----------------------------------------------------------------------

  lemma LosesReady(l: Lane)
    requires Distinct(DropOrder(l)) && l.ready.Some?
    ensures var m := l.(ready := None);
            Distinct(DropOrder(m)) && Owned(m) == Owned(l) - {l.ready.value}
  {
    DropOrderDistinct(l);
    var m := l.(ready := None);
    var o, n, k := DropOrder(l), DropOrder(m), |Sequence(l.importedAcquire)|;
    assert forall i :: 0 <= i < |n| ==> n[i] == if i < k then o[i] else o[i + 1];
    forall i, j | 0 <= i < j < |n| ensures n[i] != n[j] {
      assert o[if i < k then i else i + 1] != o[if j < k then j else j + 1];
    }
    assert Owned(m) == Owned(l) - {l.ready.value};
  }

  lemma ReuseKeeps(l: Lane, d: Device, complete: bool, mine: set<Handle>)
    requires LaneInv(l, d) && DeviceInv(d) && Owned(l) <= mine && (complete ==> l.releaseFence in d.signaled)
    ensures var (m, e, ok) := ResetForReuse(l, d, complete);
            && LaneInv(m, e) && DeviceInv(e) && OnlyMine(d, e, mine) && Owned(m) <= Owned(l)
            && d.live - e.live == Owned(l) - Owned(m)
            && (ok <==> l.releaseSubmitted && complete) && (ok ==> !m.acquireSubmitted)
  {
    if !(!l.releaseSubmitted || !complete) {
      SignaledIsIdle(l, d);
      if l.ready.Some? {
        LosesReady(l);
        DestroyMine(d, l.ready.value, mine);
        SamePending(d, Destroy(d, l.ready.value));
      }
      var (m, e, ok) := ResetForReuse(l, d, complete);
      assert m.ready.None? && ok;
      assert DropOrder(m) == DropOrder(l.(ready := None));
      hide Pending;
      assert Idle(e, Owned(m));
      assert LaneInv(m, e);
    } else {
      assert OnlyMine(d, d, mine);
    }
  }

  /** Destroying idle, live, distinct handles one after another misuses none of them. */
  lemma {:induction false} DestroyAllIdle(d: Device, hs: seq<Handle>, mine: set<Handle>)
    requires Distinct(hs) && Elements(hs) <= mine && Elements(hs) <= d.live && Idle(d, Elements(hs)) && DeviceInv(d)
    ensures var e := DestroyAll(d, hs);
            e == d.(live := d.live - Elements(hs)) && OnlyMine(d, e, mine) && DeviceInv(e)
    decreases |hs|
  {
    if hs == [] {
      assert Elements(hs) == {};
    } else {
      var e := Destroy(d, hs[0]);
      assert hs[0] in Elements(hs);
      DestroyMine(d, hs[0], mine);
      SamePending(d, e);
      assert Elements(hs) == {hs[0]} + Elements(hs[1..]);
      assert hs[0] !in hs[1..];
      DestroyAllIdle(e, hs[1..], mine);
      assert (d.live - {hs[0]}) - Elements(hs[1..]) == d.live - Elements(hs);
    }
  }

  /** Dropping a lane either destroys exactly its handles, all of them idle, or destroys nothing. */
  lemma DropKeeps(l: Lane, d: Device, complete: bool, mine: set<Handle>)
    requires LaneInv(l, d) && DeviceInv(d) && Owned(l) <= mine && (complete ==> l.releaseFence in d.signaled)
    ensures var e := DropLane(l, d, complete);
            if SafeToDestroy(l, complete) then e == d.(live := d.live - Owned(l)) && OnlyMine(d, e, mine) && DeviceInv(e)
            else e == d.(marked := true)
  {
    if SafeToDestroy(l, complete) {
      if l.acquireSubmitted { SignaledIsIdle(l, d); }
      DropOrderOwned(l);
      hide DropOrder, Owned, Pending;
      DestroyAllIdle(d, DropOrder(l), mine);
    }
  }

  // ---- the renderer and the rest of the queue ----------------------------------------------

  lemma AcceptKeeps(l: Lane, d: Device)
    requires LaneInv(l, d) && l.ready.Some?
    ensures LaneInv(l.(ready := None, accepted := true), d) && Owned(l.(ready := None, accepted := true)) == Owned(l) - {l.ready.value}
  {
    LosesReady(l);
    assert DropOrder(l.(ready := None, accepted := true)) == DropOrder(l.(ready := None));
  }

  lemma RejectKeeps(l: Lane, d: Device)
    requires LaneInv(l, d) && l.ready.Some?
    ensures LaneInv(l.(rejected := true), d) && Owned(l.(rejected := true)) == Owned(l)
  {
    assert DropOrder(l.(rejected := true)) == DropOrder(l);
  }

  lemma RetirePending(d: Device, h: Handle)
    requires d.done < |d.queue|
    ensures Pending(Retire(d), h) ==> Pending(d, h)
  {
    if Pending(Retire(d), h) {
      var i :| Retire(d).done <= i < |Retire(d).queue| && Refers(Retire(d).queue[i], h);
      assert Refers(d.queue[i], h);
    }
  }

  /** The GPU finishing a submission signals a release fence only when it is the lane's own release. */
  lemma RetireKeeps(l: Lane, d: Device)
    requires LaneInv(l, d) && DeviceInv(d) && d.done < |d.queue|
    ensures LaneInv(l, Retire(d)) && DeviceInv(Retire(d))
  {
    var e := Retire(d);
    forall h | h in Owned(l) ensures Pending(e, h) ==> Pending(d, h) { RetirePending(d, h); }
    if l.releaseSubmitted {
      assert Refers(d.queue[d.done], d.queue[d.done].fence);
    }
  }

  // ---- every lane, every run ---------------------------------------------------------------

  function Territory(lanes: map<Id, Lane>): map<Id, set<Handle>> { map a | a in lanes :: Owned(lanes[a]) }

  predicate PartOf(t: map<Id, set<Handle>>, a: Id, h: Handle) { a in t && h in t[a] }

  /** The parts of `t` share nothing with each other, with `out`, or with what was freed. */
  ghost predicate Separate(t: map<Id, set<Handle>>, out: set<Handle>, freed: set<Handle>, next: Handle) {
    && (forall a, b, h :: PartOf(t, a, h) && PartOf(t, b, h) ==> a == b)
    && (forall a, h :: PartOf(t, a, h) ==> h !in out && h !in freed && h < next)
    && (forall h :: h in freed ==> h !in out && h < next)
    && (forall h :: h in out ==> h < next)
  }

  /** The handles of the lanes dropped in flight. */
  function Quarantined(kept: set<Lane>): set<Handle> { set l, h | l in kept && h in Owned(l) :: h }

  /** What is no lane's any more: the rest of the program's, and the quarantined. */
  function Out(y: System): set<Handle> { y.elsewhere + y.given + Quarantined(y.kept) }

  /** Lanes share nothing with each other, with the rest of the program, with the quarantined or with what was freed. */
  ghost predicate Apart(y: System) { Separate(Territory(y.lanes), Out(y), y.freed, y.device.next) }

  /** Quarantined handles stay live, and nobody else has them. */
  ghost predicate KeptOk(y: System) { Quarantined(y.kept) <= y.device.live && Quarantined(y.kept) !! y.elsewhere }

  ghost predicate Inv(y: System) {
    !y.device.lost ==>
      && !y.device.misused && DeviceInv(y.device) && Apart(y) && KeptOk(y)
      && (forall a :: a in y.lanes ==> LaneInv(y.lanes[a], y.device))
  }

  lemma TerritoryPut(lanes: map<Id, Lane>, id: Id, l: Lane)
    ensures Territory(lanes[id := l]) == Territory(lanes)[id := Owned(l)]
    ensures Territory(lanes - {id}) == Territory(lanes) - {id}
  {
    hide Owned;
  }

  /** One part is replaced by what it had, less what moves to `out` or is freed, plus new handles. */
  lemma SeparateMoves(t: map<Id, set<Handle>>, out: set<Handle>, freed: set<Handle>, next: Handle,
                      id: Id, part: set<Handle>, handed: set<Handle>, gone: set<Handle>, later: Handle)
    requires Separate(t, out, freed, next) && next <= later
    requires forall h :: h in part || h in handed || h in gone ==> h < later && (h >= next || (id in t && h in t[id]))
    requires part !! handed && part !! gone && handed !! gone
    ensures Separate(t[id := part], out + handed, freed + gone, later)
    ensures Separate(t - {id}, out + handed, freed + gone, later)
  {
    var m, n := t[id := part], t - {id};
    assert id in t ==> forall h :: h in t[id] ==> PartOf(t, id, h);
    assert forall a, h :: PartOf(m, a, h) ==> if a == id then h in part else PartOf(t, a, h);
    assert forall a, h :: PartOf(n, a, h) ==> a != id && PartOf(t, a, h);
  }

  predicate Builds(c: NewChoice) {
    && c.acquirePoolOk && c.releasePoolOk && c.commandsOk && c.acquireFenceOk && c.releaseFenceOk
    && (c.query.NoQuery? || c.query.MadeQuery?)
  }

  lemma BuiltLane(d: Device, c: NewChoice)
    requires Builds(c)
    ensures var (l, e) := TryNew(d, c);
            var n := d.next;
            && l == Some(EmptyLane(n, n + 1, n + 2, n + 3, if c.query.MadeQuery? then Some(n + 4) else None))
            && e == d.(live := e.live, next := if c.query.MadeQuery? then n + 5 else n + 4) && e.live == d.live + Owned(l.value)
  {
  }

  /** A lane that could be built is consistent, and its objects are new. */
  lemma NewLaneKeeps(d: Device, c: NewChoice)
    requires DeviceInv(d) && Builds(c)
    ensures var (l, e) := TryNew(d, c);
            && l.Some? && LaneInv(l.value, e) && DeviceInv(e) && d.next <= e.next && e == d.(live := e.live, next := e.next)
            && d.live <= e.live && (forall h :: h in Owned(l.value) ==> d.next <= h < e.next)
  {
    BuiltLane(d, c);
    var l, e, n := TryNew(d, c).0.value, TryNew(d, c).1, d.next;
    assert DropOrder(l) == if c.query.MadeQuery? then [n + 4, n + 3, n + 2, n + 1, n] else [n + 3, n + 2, n + 1, n];
    assert forall h :: h in Owned(l) ==> n <= h < e.next;
    assert Distinct(DropOrder(l));
    hide TryNew, DropOrder, Owned, Distinct;
    forall h | h in Owned(l) ensures !Pending(e, h) {
      NewIsIdle(d, h);
      SamePending(d, e);
    }
    hide Pending;
  }

  /** What was created last is idle, and destroying it leaves only its number used. */
  lemma MadeAndDestroyed(d: Device, e: Device, h: Handle)
    requires DeviceInv(d) && !Pending(d, h) && h !in d.live && e == d.(live := d.live + {h}, next := e.next) && d.next <= e.next
    ensures Destroy(e, h) == d.(next := e.next) && DeviceInv(Destroy(e, h))
  {
    SamePending(d, e);
    assert (d.live + {h}) - {h} == d.live;
  }

  lemma RestFails(d: Device, acquirePool: Handle, releasePool: Handle, c: NewChoice)
    requires DeviceInv(d)
    ensures var (l, e) := BuildRest(d, acquirePool, releasePool, c);
            l.None? && !e.lost ==> e == d.(next := e.next) && d.next <= e.next
  {
    var (d1, acquireFence) := Create(d);
    var (d2, releaseFence) := Create(d1);
    NewIsIdle(d, acquireFence);
    NewIsIdle(d1, releaseFence);
    MadeAndDestroyed(d1, d2, releaseFence);
    MadeAndDestroyed(d, d1, acquireFence);
    MadeAndDestroyed(d, d1.(next := d2.next), acquireFence);
    hide Pending, DeviceInv;
  }

  /** A lane that could not be built leaves nothing behind, whichever step failed. */
  lemma NewFails(d: Device, c: NewChoice)
    requires DeviceInv(d) && !Builds(c)
    ensures var (l, e) := TryNew(d, c);
            l.None? && (!e.lost ==> e == d.(next := e.next) && d.next <= e.next && DeviceInv(e))
  {
    var (d1, acquirePool) := Create(d);
    var (d2, releasePool) := Create(d1);
    var e := BuildRest(d2, acquirePool, releasePool, c).1;
    NewIsIdle(d, acquirePool);
    NewIsIdle(d1, releasePool);
    RestFails(d2, acquirePool, releasePool, c);
    assert c.acquirePoolOk && c.releasePoolOk ==> BuildRest(d2, acquirePool, releasePool, c).0.None?;
    hide BuildRest, Pending;
    MadeAndDestroyed(d, d1, acquirePool);
    if e == d2.(next := e.next) && d2.next <= e.next {
      MadeAndDestroyed(d1, e, releasePool);
      MadeAndDestroyed(d, d1.(next := e.next), acquirePool);
    }
    hide DeviceInv;
  }

  /** Calls about `mine` leave alone every lane that owns none of it. */
  lemma LanesStay(y: System, z: System, moved: set<Id>, mine: set<Handle>)
    requires Inv(y) && !y.device.lost && !z.device.lost && OnlyMine(y.device, z.device, mine) && DeviceInv(z.device)
    requires forall a :: a in z.lanes && a !in moved ==> a in y.lanes && z.lanes[a] == y.lanes[a] && Owned(y.lanes[a]) !! mine
    requires forall a :: a in z.lanes && a in moved ==> LaneInv(z.lanes[a], z.device)
    requires Apart(z) && KeptOk(z)
    ensures Inv(z)
  {
    forall a | a in z.lanes && a !in moved ensures LaneInv(z.lanes[a], z.device) {
      assert LaneInv(y.lanes[a], y.device);
      hide LaneInv, OnlyMine, DeviceInv, Apart, KeptOk;
      OtherLaneStays(y.lanes[a], y.device, z.device, mine);
    }
  }

  /** Handles a lane owned, or that did not exist, belong to no other lane. */
  lemma MineApart(y: System, id: Id, mine: set<Handle>)
    requires Apart(y)
    requires forall h :: h in mine ==> h >= y.device.next || (id in y.lanes && h in Owned(y.lanes[id]))
    ensures forall a :: a in y.lanes && a != id ==> Owned(y.lanes[a]) !! mine
  {
    var t := Territory(y.lanes);
    forall a | a in y.lanes && a != id ensures Owned(y.lanes[a]) !! mine {
      assert id in y.lanes ==> id in t && t[id] == Owned(y.lanes[id]);
      forall h | h in Owned(y.lanes[a]) ensures h !in mine {
        assert PartOf(t, a, h);
        assert id in y.lanes && h in Owned(y.lanes[id]) ==> PartOf(t, id, h);
      }
    }
  }

  lemma LaneOf(y: System, id: Id)
    requires Inv(y) && !y.device.lost
    ensures id in y.lanes ==> LaneInv(y.lanes[id], y.device)
    ensures DeviceInv(y.device) && Apart(y) && KeptOk(y) && !y.device.misused
  {
  }

  lemma OwnedBelow(l: Lane, d: Device)
    requires LaneInv(l, d)
    ensures forall h :: h in Owned(l) ==> h < d.next
  {
  }

  /** Lane `id` became `l`, or is gone; `handed` went to the rest of the program and `gone` was freed. */
  lemma OneLaneApart(y: System, z: System, id: Id, part: set<Handle>, handed: set<Handle>, gone: set<Handle>)
    requires Apart(y) && y.device.next <= z.device.next
    requires forall h :: h in part || h in handed || h in gone ==> h < z.device.next && (h >= y.device.next || (id in y.lanes && h in Owned(y.lanes[id])))
    requires part !! handed && part !! gone && handed !! gone
    requires (id in z.lanes && z.lanes == y.lanes[id := z.lanes[id]] && Owned(z.lanes[id]) == part) || z.lanes == y.lanes - {id}
    requires Out(z) == Out(y) + handed && z.freed == y.freed + gone
    ensures Apart(z)
  {
    var t := Territory(y.lanes);
    assert id in y.lanes ==> id in t && t[id] == Owned(y.lanes[id]);
    if id in z.lanes { TerritoryPut(y.lanes, id, z.lanes[id]); } else if z.lanes == y.lanes - {id} { TerritoryPut(y.lanes, id, EmptyLane(0, 0, 0, 0, None)); }
    hide Territory, Owned, Out;
    SeparateMoves(t, Out(y), y.freed, y.device.next, id, part, handed, gone, z.device.next);
  }

  /** Calls about handles that are not quarantined leave the quarantine as it was. */
  lemma KeptStays(y: System, z: System, id: Id, mine: set<Handle>, handed: set<Handle>)
    requires Apart(y) && KeptOk(y) && OnlyMine(y.device, z.device, mine) && z.kept == y.kept && z.elsewhere <= y.elsewhere + handed
    requires forall h :: h in mine || h in handed ==> h >= y.device.next || (id in y.lanes && h in Owned(y.lanes[id]))
    ensures KeptOk(z)
  {
    var t := Territory(y.lanes);
    forall h | h in Quarantined(y.kept) ensures h !in mine && h !in handed {
      assert h in Out(y);
      if id in y.lanes && h in Owned(y.lanes[id]) { assert PartOf(t, id, h); }
    }
  }

  /** The whole step of one lane. */
  lemma LaneMoves(y: System, z: System, id: Id, l: Lane, handed: set<Handle>, gone: set<Handle>, mine: set<Handle>)
    requires Inv(y) && !y.device.lost && !z.device.lost && OnlyMine(y.device, z.device, mine) && DeviceInv(z.device)
    requires forall h :: h in mine ==> h >= y.device.next || (id in y.lanes && h in Owned(y.lanes[id]))
    requires LaneInv(l, z.device) && z.lanes == y.lanes[id := l]
    requires forall h :: h in Owned(l) || h in handed || h in gone ==> h < z.device.next && (h >= y.device.next || (id in y.lanes && h in Owned(y.lanes[id])))
    requires Owned(l) !! handed && Owned(l) !! gone && handed !! gone
    requires z.elsewhere == y.elsewhere + handed && z.given + z.elsewhere == y.given + y.elsewhere + handed && z.kept == y.kept && z.freed == y.freed + gone
    ensures Inv(z)
  {
    assert y.device.next <= z.device.next;
    assert Out(z) == Out(y) + handed;
    hide LaneInv, OnlyMine, DeviceInv, Owned, Apart, Inv, KeptOk, Out;
    LaneOf(y, id);
    KeptStays(y, z, id, mine, handed);
    MineApart(y, id, mine);
    OneLaneApart(y, z, id, Owned(l), handed, gone);
    LanesStay(y, z, {id}, mine);
  }

  lemma AcquireStaysLost(l: Lane, d: Device, c: AcquireChoice)
    requires d.lost
    ensures SubmitAcquire(l, d, c).device.lost
  {
  }

  lemma AcquireShape(y: System, id: Id, c: AcquireChoice)
    requires Enabled(y, Acquire(id, c))
    ensures var r := SubmitAcquire(y.lanes[id], y.device, c);
            Next(y, Acquire(id, c)) == y.(lanes := y.lanes[id := r.lane], device := r.device)
    ensures y.device.lost ==> SubmitAcquire(y.lanes[id], y.device, c).device.lost
  {
  }

  lemma OnlyMineNext(d: Device, e: Device, mine: set<Handle>)
    requires OnlyMine(d, e, mine)
    ensures d.next <= e.next && e.lost == d.lost
  {
  }

  lemma AcquireStep(y: System, id: Id, c: AcquireChoice)
    requires Inv(y) && Enabled(y, Acquire(id, c)) && id in y.lanes
    ensures Inv(Next(y, Acquire(id, c)))
  {
    var z := Next(y, Acquire(id, c));
    AcquireShape(y, id, c);
    var l, d, r := y.lanes[id], y.device, SubmitAcquire(y.lanes[id], y.device, c);
    if r.device.lost {
      assert z.device.lost;
    } else {
      hide Inv, Next, SubmitAcquire, LaneInv, OnlyMine, DeviceInv, Owned;
      var mine := Owned(l) + {d.next, d.next + 1};
      LaneOf(y, id);
      AcquireKeeps(l, d, c, mine);
      OnlyMineNext(d, r.device, mine);
      OwnedBelow(r.lane, r.device);
      LaneMoves(y, z, id, r.lane, {}, {}, mine);
    }
  }

  lemma ReleaseShape(y: System, id: Id, c: ReleaseChoice)
    requires Enabled(y, Release(id, c))
    ensures var r := SubmitRelease(y.lanes[id], y.device, c);
            Next(y, Release(id, c)) == y.(lanes := y.lanes[id := r.0], device := r.1)
    ensures y.device.lost ==> SubmitRelease(y.lanes[id], y.device, c).1.lost
  {
  }

  lemma ReleaseStep(y: System, id: Id, c: ReleaseChoice)
    requires Inv(y) && Enabled(y, Release(id, c)) && id in y.lanes
    ensures Inv(Next(y, Release(id, c)))
  {
    var z := Next(y, Release(id, c));
    ReleaseShape(y, id, c);
    var l, d, r := y.lanes[id], y.device, SubmitRelease(y.lanes[id], y.device, c);
    if r.1.lost {
      assert z.device.lost;
    } else {
      hide Inv, Next, SubmitRelease, LaneInv, OnlyMine, DeviceInv, Owned;
      LaneOf(y, id);
      ReleaseKeeps(l, d, c, Owned(l));
      OnlyMineNext(d, r.1, Owned(l));
      OwnedBelow(r.0, r.1);
      LaneMoves(y, z, id, r.0, {}, {}, Owned(l));
    }
  }

  lemma NothingMine(d: Device)
    ensures OnlyMine(d, d, {})
  {
  }

  lemma SettleStep(y: System, a: Action)
    requires Inv(y) && Enabled(y, a) && (a.Accept? || a.Reject?)
    ensures Inv(Next(y, a))
  {
    var z := Next(y, a);
    var id, semaphore, l, d := a.id, a.semaphore, y.lanes[a.id], y.device;
    if !d.lost && l.ready == Some(semaphore) {
      LaneOf(y, id);
      OwnedBelow(l, d);
      NothingMine(d);
      var m := if a.Accept? then l.(ready := None, accepted := true) else l.(rejected := true);
      assert z.lanes == y.lanes[id := m] && z.device == d && z.freed == y.freed + {};
      if a.Accept? { AcceptKeeps(l, d); } else { RejectKeeps(l, d); }
      assert semaphore in Owned(l);
      var handed := if a.Accept? then {semaphore} else {};
      assert z.elsewhere == y.elsewhere + handed && z.given + z.elsewhere == y.given + y.elsewhere + handed;
      hide Inv, Next, LaneInv, OnlyMine, DeviceInv, Owned;
      LaneMoves(y, z, id, m, handed, {}, {});
    }
  }

  lemma ReuseShape(y: System, id: Id, complete: bool)
    requires Enabled(y, Reuse(id, complete))
    ensures var r := ResetForReuse(y.lanes[id], y.device, complete);
            Next(y, Reuse(id, complete)) == y.(lanes := y.lanes[id := r.0], device := r.1, freed := y.freed + (y.device.live - r.1.live))
    ensures ResetForReuse(y.lanes[id], y.device, complete).1.lost == y.device.lost
    ensures complete && !y.device.lost ==> y.lanes[id].releaseFence in y.device.signaled
  {
  }

  lemma ReuseStep(y: System, id: Id, complete: bool)
    requires Inv(y) && Enabled(y, Reuse(id, complete)) && id in y.lanes
    ensures Inv(Next(y, Reuse(id, complete)))
  {
    var z := Next(y, Reuse(id, complete));
    ReuseShape(y, id, complete);
    var l, d, r := y.lanes[id], y.device, ResetForReuse(y.lanes[id], y.device, complete);
    if d.lost {
      assert z.device.lost;
    } else {
      hide Inv, Next, ResetForReuse, LaneInv, OnlyMine, DeviceInv, Owned;
      LaneOf(y, id);
      OwnedBelow(l, d);
      ReuseKeeps(l, d, complete, Owned(l));
      OnlyMineNext(d, r.1, Owned(l));
      LaneMoves(y, z, id, r.0, {}, Owned(l) - Owned(r.0), Owned(l));
    }
  }

  lemma DropShape(y: System, id: Id, complete: bool)
    requires Enabled(y, DropIt(id, complete)) && id in y.lanes
    ensures var e := DropLane(y.lanes[id], y.device, complete);
            var z := Next(y, DropIt(id, complete));
            && z.lanes == y.lanes - {id} && z.device == e && z.freed == y.freed + (y.device.live - e.live)
            && z.elsewhere == y.elsewhere && z.given == y.given
            && z.kept == (if SafeToDestroy(y.lanes[id], complete) then y.kept else y.kept + {y.lanes[id]})
    ensures complete && !y.device.lost ==> y.lanes[id].releaseFence in y.device.signaled
  {
    hide DropLane;
  }

  lemma QuarantineGrows(kept: set<Lane>, l: Lane)
    ensures Quarantined(kept + {l}) == Quarantined(kept) + Owned(l)
  {
    assert l in kept + {l};
    hide Owned;
    forall h ensures h in Quarantined(kept + {l}) <==> h in Quarantined(kept) + Owned(l) {
      if h in Quarantined(kept) {
        var k :| k in kept && h in Owned(k);
        assert k in kept + {l};
      }
    }
  }

  lemma KeptGrows(y: System, z: System, id: Id)
    requires Inv(y) && !y.device.lost && id in y.lanes
    requires z.kept == y.kept + {y.lanes[id]} && z.device.live == y.device.live && z.elsewhere == y.elsewhere
    ensures KeptOk(z)
  {
    var t := Territory(y.lanes);
    LaneOf(y, id);
    assert Owned(y.lanes[id]) <= y.device.live;
    QuarantineGrows(y.kept, y.lanes[id]);
    forall h | h in Owned(y.lanes[id]) ensures h !in y.elsewhere {
      assert PartOf(t, id, h) && h !in Out(y);
    }
    hide Inv, Owned;
  }

  lemma MarkedMine(d: Device)
    requires DeviceInv(d)
    ensures OnlyMine(d, d.(marked := true), {}) && DeviceInv(d.(marked := true))
  {
  }

  /** The lane's handles move to the quarantine. */
  lemma DroppedInFlight(y: System, z: System, id: Id)
    requires Inv(y) && !y.device.lost && id in y.lanes && z.device == y.device.(marked := true) && z.freed == y.freed + {}
    requires z.lanes == y.lanes - {id} && z.elsewhere == y.elsewhere && z.given == y.given && z.kept == y.kept + {y.lanes[id]}
    ensures Inv(z)
  {
    LaneOf(y, id);
    OwnedBelow(y.lanes[id], y.device);
    MarkedMine(y.device);
    QuarantineGrows(y.kept, y.lanes[id]);
    assert Out(z) == Out(y) + Owned(y.lanes[id]);
    hide LaneInv, OnlyMine, DeviceInv, Owned, Apart, KeptOk, Quarantined, Inv, Out;
    MineApart(y, id, {});
    OneLaneApart(y, z, id, {}, Owned(y.lanes[id]), {});
    KeptGrows(y, z, id);
    LanesStay(y, z, {}, {});
  }

  lemma DropStep(y: System, id: Id, complete: bool)
    requires Inv(y) && Enabled(y, DropIt(id, complete)) && id in y.lanes
    ensures Inv(Next(y, DropIt(id, complete)))
  {
    var z := Next(y, DropIt(id, complete));
    var l, d, e := y.lanes[id], y.device, DropLane(y.lanes[id], y.device, complete);
    DropShape(y, id, complete);
    if d.lost {
      DropStaysLost(l, d, complete);
    } else {
      LaneOf(y, id);
      OwnedBelow(l, d);
      assert Owned(l) <= d.live;
      hide Next, DropLane, LaneInv, OnlyMine, DeviceInv, Owned, Apart, KeptOk, Quarantined;
      DropKeeps(l, d, complete, Owned(l));
      if SafeToDestroy(l, complete) {
        assert d.live - e.live == Owned(l);
        MineApart(y, id, Owned(l));
        OneLaneApart(y, z, id, {}, {}, Owned(l));
        KeptStays(y, z, id, Owned(l), {});
        LanesStay(y, z, {}, Owned(l));
      } else {
        DroppedInFlight(y, z, id);
      }
    }
  }

  lemma DropStaysLost(l: Lane, d: Device, complete: bool)
    requires d.lost
    ensures DropLane(l, d, complete).lost
  {
    AllStaysLost(d, DropOrder(l));
    hide DropOrder, DestroyAll;
  }

  lemma {:induction false} AllStaysLost(d: Device, hs: seq<Handle>)
    ensures DestroyAll(d, hs).lost == d.lost && DestroyAll(d, hs).queue == d.queue
    decreases |hs|
  {
    if hs != [] { AllStaysLost(Destroy(d, hs[0]), hs[1..]); }
  }

  lemma NewShape(y: System, id: Id, c: NewChoice)
    requires Enabled(y, NewLane(id, c))
    ensures var (l, e) := TryNew(y.device, c);
            Next(y, NewLane(id, c)) == y.(lanes := if l.Some? then y.lanes[id := l.value] else y.lanes, device := e)
    ensures id !in y.lanes && (y.device.lost ==> TryNew(y.device, c).1.lost)
  {
  }

  lemma OnlyNew(d: Device, e: Device)
    requires e == d.(live := e.live, next := e.next) && d.live <= e.live && d.next <= e.next
    ensures OnlyMine(d, e, {})
  {
  }

  lemma NewLaneStep(y: System, id: Id, c: NewChoice)
    requires Inv(y) && Enabled(y, NewLane(id, c))
    ensures Inv(Next(y, NewLane(id, c)))
  {
    var z := Next(y, NewLane(id, c));
    var d, l, e := y.device, TryNew(y.device, c).0, TryNew(y.device, c).1;
    NewShape(y, id, c);
    hide Next, TryNew, OnlyMine, LaneInv, DeviceInv, Owned;
    if !e.lost {
      LaneOf(y, id);
      hide Inv;
      if Builds(c) {
        NewLaneKeeps(d, c);
        OnlyNew(d, e);
        LaneMoves(y, z, id, l.value, {}, {}, {});
      } else {
        NewFails(d, c);
        NothingMoves(y, z);
      }
    }
  }

  /** A step that only uses up numbers, or marks the device. */
  lemma NothingMoves(y: System, z: System)
    requires Inv(y) && !y.device.lost && z == y.(device := z.device) && y.device.next <= z.device.next
    requires z.device == y.device.(next := z.device.next, marked := z.device.marked)
    ensures Inv(z)
  {
    LaneOf(y, 0);
    assert OnlyMine(y.device, z.device, {}) && DeviceInv(z.device);
    assert Apart(z) && KeptOk(z);
    hide Inv, LaneInv, OnlyMine, DeviceInv, Owned, Apart, KeptOk;
    LanesStay(y, z, {}, {});
  }

  lemma FinishStep(y: System)
    requires Inv(y) && Enabled(y, Finish)
    ensures Inv(Next(y, Finish))
  {
    if !y.device.lost {
      var z := Next(y, Finish);
      forall a | a in z.lanes ensures LaneInv(z.lanes[a], z.device) { RetireKeeps(y.lanes[a], y.device); }
      assert DeviceInv(z.device);
    }
  }

  lemma OthersMine(y: System, a: Action, mine: set<Handle>)
    requires Enabled(y, a) && (a.OthersCreate? || a.OthersSubmit? || a.OthersDestroy?) && DeviceInv(y.device)
    requires forall h :: h in y.elsewhere ==> h < y.device.next
    requires mine == if a.OthersCreate? then {y.device.next} else if a.OthersSubmit? then a.submission.uses + {a.submission.fence} else {a.handle}
    ensures OnlyMine(y.device, Next(y, a).device, mine) && DeviceInv(Next(y, a).device)
  {
  }

  /** The quarantine is not the rest of the program's. */
  lemma OthersApart(y: System, a: Action)
    requires Apart(y) && KeptOk(y) && Enabled(y, a) && (a.OthersCreate? || a.OthersSubmit? || a.OthersDestroy?)
    requires forall h :: h in y.device.live ==> h < y.device.next
    ensures Apart(Next(y, a)) && KeptOk(Next(y, a))
  {
    var z := Next(y, a);
    assert forall h :: h in Out(z) ==> h in Out(y) || (a.OthersCreate? && h == y.device.next);
    assert z.lanes == y.lanes && z.freed == y.freed && y.device.next <= z.device.next;
    hide Territory, Quarantined, Owned, Out;
  }

  /** Nor are its handles any lane's. */
  lemma OthersElsewhere(y: System, mine: set<Handle>)
    requires Apart(y) && (mine <= y.elsewhere || mine == {y.device.next})
    ensures forall i :: i in y.lanes ==> Owned(y.lanes[i]) !! mine
  {
    var t := Territory(y.lanes);
    assert forall h :: h in y.elsewhere ==> h in Out(y);
    forall i | i in y.lanes ensures Owned(y.lanes[i]) !! mine {
      forall h | h in Owned(y.lanes[i]) ensures h !in mine {
        assert PartOf(t, i, h) && h !in Out(y) && h < y.device.next;
      }
    }
  }

  lemma OthersShape(y: System, a: Action)
    requires Enabled(y, a) && (a.OthersCreate? || a.OthersSubmit? || a.OthersDestroy?)
    ensures Next(y, a).lanes == y.lanes && Next(y, a).device.lost == y.device.lost
    ensures a.OthersSubmit? ==> a.submission.uses + {a.submission.fence} <= y.elsewhere
    ensures a.OthersDestroy? ==> a.handle in y.elsewhere
  {
  }

  lemma OthersBelow(y: System)
    requires Apart(y) && DeviceInv(y.device)
    ensures forall h :: h in y.elsewhere || h in y.device.live ==> h < y.device.next
  {
    assert forall h :: h in y.elsewhere ==> h in Out(y);
    hide Territory, Quarantined;
  }

  lemma LostInv(y: System)
    requires y.device.lost
    ensures Inv(y)
  {
  }

  /** What the rest of the program does with its own handles concerns no lane. */
  lemma OthersStep(y: System, a: Action)
    requires Inv(y) && Enabled(y, a) && (a.OthersCreate? || a.OthersSubmit? || a.OthersDestroy?)
    ensures Inv(Next(y, a))
  {
    hide Inv, Next, Apart, KeptOk, DeviceInv, OnlyMine, LaneInv, Owned, Enabled;
    OthersShape(y, a);
    if !y.device.lost {
      var mine := if a.OthersCreate? then {y.device.next} else if a.OthersSubmit? then a.submission.uses + {a.submission.fence} else {a.handle};
      LaneOf(y, 0);
      OthersBelow(y);
      OthersMine(y, a, mine);
      OthersApart(y, a);
      OthersElsewhere(y, mine);
      LanesStay(y, Next(y, a), {}, mine);
    } else {
      LostInv(Next(y, a));
    }
  }

  lemma StepKeeps(y: System, a: Action)
    requires Inv(y) && Enabled(y, a)
    ensures Inv(Next(y, a))
  {
    match a
    case NewLane(id, c) => NewLaneStep(y, id, c);
    case Acquire(id, c) => AcquireStep(y, id, c);
    case Accept(_, _) => SettleStep(y, a);
    case Reject(_, _) => SettleStep(y, a);
    case Release(id, c) => ReleaseStep(y, id, c);
    case Reuse(id, complete) => ReuseStep(y, id, complete);
    case DropIt(id, complete) => DropStep(y, id, complete);
    case Finish => FinishStep(y);
    case OthersCreate => OthersStep(y, a);
    case OthersSubmit(_) => OthersStep(y, a);
    case OthersDestroy(_) => OthersStep(y, a);
    case ReportLoss =>
    case LoseDevice =>
    hide Inv, Next;
  }

  ghost predicate IsRun(states: seq<System>, actions: seq<Action>) {
    && |states| == |actions| + 1 && states[0] == STARTED
    && forall i :: 0 <= i < |actions| ==> Enabled(states[i], actions[i]) && states[i + 1] == Next(states[i], actions[i])
  }

  lemma RunStep(states: seq<System>, actions: seq<Action>, i: nat)
    requires IsRun(states, actions) && i < |actions|
    ensures |states| == |actions| + 1 && Enabled(states[i], actions[i]) && states[i + 1] == Next(states[i], actions[i])
  {
    hide Enabled, Next;
  }

  lemma {:induction false} RunInv(states: seq<System>, actions: seq<Action>, i: nat)
    requires IsRun(states, actions) && i < |states|
    ensures Inv(states[i])
  {
    if i > 0 {
      RunInv(states, actions, i - 1);
      RunStep(states, actions, i - 1);
      hide IsRun, Inv, Enabled, Next;
      StepKeeps(states[i - 1], actions[i - 1]);
    }
  }

  /** Until the device is really lost no run ever resets, reuses or destroys an object that a pending submission
      refers to, whatever lanes were dropped in flight, and a semaphore handed to the renderer is never one a
      lane owns or destroyed. */
  lemma NoMisuse(states: seq<System>, actions: seq<Action>, i: nat, id: Id)
    requires IsRun(states, actions) && i < |states| && !states[i].device.lost
    ensures !states[i].device.misused && states[i].given !! states[i].freed
    ensures id in states[i].lanes ==> Owned(states[i].lanes[id]) !! states[i].given + states[i].freed
    ensures id in states[i].lanes && states[i].lanes[id].acquireSubmitted ==> (states[i].lanes[id].accepted <==> states[i].lanes[id].ready.None?)
  {
    RunInv(states, actions, i);
    hide IsRun, DeviceInv, Owned;
    var y := states[i];
    var t := Territory(y.lanes);
    assert y.given !! y.freed by {
      assert forall h :: h in y.freed ==> h !in Out(y);
    }
    if id in y.lanes {
      assert LaneInv(y.lanes[id], y.device);
      forall h | h in Owned(y.lanes[id]) ensures h !in y.given + y.freed {
        assert PartOf(t, id, h) && h !in Out(y);
      }
    }
  }

  /** The handles of a lane dropped in flight are destroyed by nobody and belong to nobody, for as long as the device
      is not really lost. */
  lemma QuarantineHolds(states: seq<System>, actions: seq<Action>, i: nat, l: Lane, other: Id)
    requires IsRun(states, actions) && i < |states| && !states[i].device.lost && l in states[i].kept
    ensures Owned(l) <= states[i].device.live && Owned(l) !! states[i].elsewhere + states[i].freed
    ensures other in states[i].lanes ==> Owned(l) !! Owned(states[i].lanes[other])
  {
    RunInv(states, actions, i);
    var y := states[i];
    var t := Territory(y.lanes);
    hide IsRun, DeviceInv;
    forall h | h in Owned(l) ensures h in Quarantined(y.kept) && h !in y.freed {
      assert h in Out(y);
    }
    if other in y.lanes {
      forall h | h in Owned(y.lanes[other]) ensures h !in Owned(l) {
        assert PartOf(t, other, h) && h !in Out(y);
      }
    }
  }

  // ---- after a lost submit -----------------------------------------------------------------

  /** The call passes every step before the submission. */
  predicate ReachesAcquire(l: Lane, c: AcquireChoice) {
    && !l.acquireSubmitted && !l.releaseSubmitted && c.readyOk && c.fenceOk && c.recordOk
    && (c.hasFd ==> c.importOk && (l.importedAcquire.Some? || c.semaphoreOk))
  }

  predicate ReachesRelease(l: Lane, c: ReleaseChoice) {
    && l.acquireSubmitted && !l.releaseSubmitted && (l.accepted || l.rejected) && l.importId == Some(c.importId)
    && c.fenceOk && c.poolOk && c.recordOk
  }

  /** Lane `id` submits, and the submission is lost: whether the queue took it cannot be known. */
  predicate LosesSubmit(y: System, a: Action, id: Id) {
    id in y.lanes
    && match a
       case Acquire(o, c) => o == id && ReachesAcquire(y.lanes[id], c) && c.submit.Lost?
       case Release(o, c) => o == id && ReachesRelease(y.lanes[id], c) && c.submit.Lost?
       case _ => false
  }

  /** Lane `id` submits its release, and the queue takes it. */
  predicate AcceptsRelease(y: System, a: Action, id: Id) {
    id in y.lanes && a.Release? && a.id == id && ReachesRelease(y.lanes[id], a.release) && a.release.submit.Fine?
  }

  predicate Drops(a: Action, id: Id) { a.DropIt? && a.id == id }

  /** The acquire may have been taken, and no release has been. */
  predicate Stuck(y: System, id: Id) { id in y.lanes && y.lanes[id].acquireSubmitted && !y.lanes[id].releaseSubmitted }

  lemma LostAcquire(l: Lane, d: Device, c: AcquireChoice)
    requires ReachesAcquire(l, c) && c.submit.Lost?
    ensures var r := SubmitAcquire(l, d, c);
            r.lane.acquireSubmitted && !r.lane.releaseSubmitted && r.device.lost && r.device.marked && r.ready.None?
  {
    AcquireContinues(l, d, c);
    var (l1, d1, ok) := ImportFd(l, d, c);
    assert ok && !l1.releaseSubmitted;
    hide ImportFd, SubmitAcquire;
  }

  /** A lost submit, the first or a later one, leaves its lane stuck and the device marked. */
  lemma LostSubmitSticks(y: System, a: Action, id: Id)
    requires Enabled(y, a) && LosesSubmit(y, a, id)
    ensures Stuck(Next(y, a), id) && Next(y, a).device.lost && Next(y, a).device.marked
  {
    if a.Acquire? {
      LostAcquire(y.lanes[id], y.device, a.acquire);
      AcquireShape(y, id, a.acquire);
      hide SubmitAcquire, Next;
    }
  }

  /** Exactly when a stuck lane stops being stuck, short of being dropped: when a release of its own is submitted
      and taken, which the guards allow also after a release that was lost. */
  lemma StuckStepIff(y: System, a: Action, id: Id)
    requires Enabled(y, a) && Stuck(y, id) && !Drops(a, id)
    ensures id in Next(y, a).lanes && (Stuck(Next(y, a), id) <==> !AcceptsRelease(y, a, id))
  {
    match a
    case Acquire(o, c) => AcquireShape(y, o, c); if o != id { hide SubmitAcquire; }
    case Reuse(o, complete) => ReuseShape(y, o, complete);
    case Release(o, c) => ReleaseShape(y, o, c);
    case DropIt(o, complete) => DropShape(y, o, complete); hide DropLane;
    case _ =>
  }

  /** Meanwhile it cannot be reset for reuse, and dropping it destroys none of its handles: they are left for the
      destruction of the whole device. */
  lemma StuckRefuses(y: System, a: Action, id: Id)
    requires Enabled(y, a) && Stuck(y, id)
    ensures a.Reuse? && a.id == id ==> Next(y, a).lanes[id] == y.lanes[id] && Next(y, a).device == y.device
    ensures Drops(a, id) ==> y.lanes[id] in Next(y, a).kept && Next(y, a).device == y.device.(marked := true)
  {
  }

  /** Over any run: a lane stuck once, by a lost submit or not, is stuck until it is dropped or a release of its own
      is taken; and a drop before that leaves every live handle live. */
  lemma {:induction false} StuckInRuns(states: seq<System>, actions: seq<Action>, i: nat, j: nat, id: Id)
    requires IsRun(states, actions) && i <= j < |states| && Stuck(states[i], id)
    requires forall k :: i <= k < j ==> !Drops(actions[k], id) && !AcceptsRelease(states[k], actions[k], id)
    ensures Stuck(states[j], id)
    ensures j < |actions| && Drops(actions[j], id) ==> states[j].lanes[id] in states[j + 1].kept && states[j + 1].device.live == states[j].device.live
    decreases j
  {
    hide *;
    RunStart(states, actions);
    if i < j {
      StuckInRuns(states, actions, i, j - 1, id);
      RunStep(states, actions, j - 1);
      assert !Drops(actions[j - 1], id) && !AcceptsRelease(states[j - 1], actions[j - 1], id);
      StuckStepIff(states[j - 1], actions[j - 1], id);
    }
    if j < |actions| && Drops(actions[j], id) {
      RunStep(states, actions, j);
      StuckRefuses(states[j], actions[j], id);
    }
  }

  lemma RunStart(states: seq<System>, actions: seq<Action>)
    requires IsRun(states, actions)
    ensures |states| == |actions| + 1
  {
    hide Enabled, Next;
  }

  // ---- a lost release, and a second one ----------------------------------------------------

  const MADE := NewChoice(true, true, true, true, true, NoQuery)

  const ACQUIRED := AcquireChoice(7, false, false, true, true, true, true, true, false, Fine)

  function ReleasedWith(r: SubmitResult): ReleaseChoice { ReleaseChoice(7, true, true, true, r) }

  function SecondRelease(): seq<Action> {
    [NewLane(0, MADE), Acquire(0, ACQUIRED), Accept(0, 4), Release(0, ReleasedWith(Lost(true))), Release(0, ReleasedWith(Fine)), Reuse(0, true)]
  }

  /** The lane's fields through that run. */
  function LaneAt(k: nat): Lane {
    var fresh0 := EmptyLane(0, 1, 2, 3, None);
    var acquired := fresh0.(importId := Some(7), acquireSubmitted := true, ready := Some(4));
    if k <= 1 then fresh0
    else if k == 2 then acquired
    else if k <= 4 then acquired.(ready := None, accepted := true)
    else if k == 5 then acquired.(ready := None, accepted := true, releaseSubmitted := true, releaseAt := 2)
    else fresh0.(releaseAt := 2)
  }

  lemma AcquiresFirst(y: System)
    requires y.lanes == map[0 := LaneAt(1)] && y.device.next == 4 && y.device.queue == []
    ensures Enabled(y, Acquire(0, ACQUIRED))
    ensures var z := Next(y, Acquire(0, ACQUIRED));
            z.lanes == map[0 := LaneAt(2)] && |z.device.queue| == 1 && z.device.done == y.device.done && z.device.lost == y.device.lost
  {
    AcquireShape(y, 0, ACQUIRED);
    AcquireContinues(LaneAt(1), y.device, ACQUIRED);
    hide SubmitAcquire;
  }

  lemma LosesThenReleases(y: System)
    requires y.lanes == map[0 := LaneAt(3)] && |y.device.queue| == 1 && y.device.done == 0
    ensures var a, b := Release(0, ReleasedWith(Lost(true))), Release(0, ReleasedWith(Fine));
            && Enabled(y, a) && LosesSubmit(y, a, 0)
            && var z := Next(y, a);
               && z.lanes == map[0 := LaneAt(4)] && z.device.lost && Enabled(z, b) && AcceptsRelease(z, b, 0)
               && Next(z, b).lanes == map[0 := LaneAt(5)] && Next(z, b).device.lost && Next(z, b).device.misused
  {
    var a := Release(0, ReleasedWith(Lost(true)));
    ReleaseShape(y, 0, a.release);
    var z := Next(y, a);
    assert z.device.queue[1] == ReleaseSubmission(LaneAt(3));
    assert Refers(z.device.queue[1], 3) && Pending(z.device, 3);
    ReleaseShape(z, 0, ReleasedWith(Fine));
  }

  lemma StartsAndAccepts()
    ensures var xs := SecondRelease();
            && Enabled(STARTED, xs[0])
            && var y1 := Next(STARTED, xs[0]);
               && Enabled(y1, xs[1])
               && var y2 := Next(y1, xs[1]);
                  && Enabled(y2, xs[2])
                  && var y3 := Next(y2, xs[2]);
                     y3.lanes == map[0 := LaneAt(3)] && |y3.device.queue| == 1 && y3.device.done == 0
  {
    var y1 := Next(STARTED, SecondRelease()[0]);
    assert y1.lanes == map[0 := LaneAt(1)];
    AcquiresFirst(y1);
  }

  lemma ReusesLast(y: System)
    requires y.lanes == map[0 := LaneAt(5)] && y.device.lost
    ensures Enabled(y, Reuse(0, true)) && Next(y, Reuse(0, true)).lanes == map[0 := LaneAt(6)]
  {
    ReuseShape(y, 0, true);
  }

  lemma SixSteps(xs: seq<Action>, y1: System, y2: System, y3: System, y4: System, y5: System, y6: System)
    requires |xs| == 6
    requires Enabled(STARTED, xs[0]) && y1 == Next(STARTED, xs[0])
    requires Enabled(y1, xs[1]) && y2 == Next(y1, xs[1])
    requires Enabled(y2, xs[2]) && y3 == Next(y2, xs[2])
    requires Enabled(y3, xs[3]) && y4 == Next(y3, xs[3])
    requires Enabled(y4, xs[4]) && y5 == Next(y4, xs[4])
    requires Enabled(y5, xs[5]) && y6 == Next(y5, xs[5])
    ensures IsRun([STARTED, y1, y2, y3, y4, y5, y6], xs)
  {
    hide Enabled, Next;
  }

  /** A release is lost, its submission having been taken. The guards let a second release through: it resets a
      fence that is pending, and if it is taken the lane can then be reset for reuse. */
  lemma LostReleaseReused() returns (states: seq<System>)
    ensures var xs := SecondRelease();
            && IsRun(states, xs) && LosesSubmit(states[3], xs[3], 0) && Stuck(states[4], 0)
            && AcceptsRelease(states[4], xs[4], 0) && states[5].device.misused && !Stuck(states[5], 0)
            && 0 in states[6].lanes && !states[6].lanes[0].acquireSubmitted
  {
    var xs := SecondRelease();
    StartsAndAccepts();
    var y1 := Next(STARTED, xs[0]);
    var y2 := Next(y1, xs[1]);
    var y3 := Next(y2, xs[2]);
    hide Next, Enabled, ReleasedWith, LosesSubmit, AcceptsRelease;
    LosesThenReleases(y3);
    var y4 := Next(y3, xs[3]);
    var y5 := Next(y4, xs[4]);
    ReusesLast(y5);
    var y6 := Next(y5, xs[5]);
    SixSteps(xs, y1, y2, y3, y4, y5, y6);
    hide IsRun;
    states := [STARTED, y1, y2, y3, y4, y5, y6];
  }
}
