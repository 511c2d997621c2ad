/**
 The bounded pool of converted outputs, and the layouts of its images across reuse.

 A claim takes the first matching free slot, or replaces an idle slot of another shape, or
 creates one; a lease is released by two atomic swaps. A staged import records its commands
 from the slot's `initialized` flag, which a successful submission sets. The queue runs in
 order, so the places of images are those after everything submitted so far.
 */
module OutputPool {
  import opened Common
  import opened Barriers

  type Id = int

  datatype Slot = Slot(shape: int, claimed: bool, initialized: bool, images: seq<Resource>)

  datatype LeaseAt = Held | Clearing | Released

  datatype Lease = Lease(slot: Id, at: LeaseAt)

  /** `order` is the pool's vector; `table` every slot ever made; `borrowed` the direct images now acquired. */
  datatype Pool = Pool(
    max: nat,
    order: seq<Id>,
    table: map<Id, Slot>,
    leases: map<Id, Lease>,
    gpu: Gpu,
    sources: set<Resource>,
    borrowed: set<Resource>,
    nextId: Id,
    nextResource: Resource)

  function Empty(max: nat): Pool { Pool(max, [], map[], map[], Gpu(map[], false), {}, {}, 0, 0) }

  predicate Free(p: Pool, i: nat, shape: int)
    requires i < |p.order| && p.order[i] in p.table
  {
    p.table[p.order[i]].shape == shape && !p.table[p.order[i]].claimed
  }

  predicate Replaceable(p: Pool, i: nat, shape: int)
    requires i < |p.order| && p.order[i] in p.table
  {
    p.table[p.order[i]].shape != shape && !p.table[p.order[i]].claimed
  }

  ghost predicate Tabled(p: Pool) { forall i :: 0 <= i < |p.order| ==> p.order[i] in p.table }

  /** `swap_remove`: the last element takes the place of the removed one. */
  function SwapRemove(s: seq<Id>, i: nat): seq<Id>
    requires i < |s|
  {
    if i == |s| - 1 then s[..i] else s[i := s[|s| - 1]][..|s| - 1]
  }

  /** Takes slot `s` for a new lease. */
  function Take(p: Pool, s: Id): Pool
    requires s in p.table
  {
    p.(table := p.table[s := p.table[s].(claimed := true)], leases := p.leases[p.nextId := Lease(s, Held)], nextId := p.nextId + 1)
  }

  /** `count` fresh images, in the undefined layout, for a new claimed slot at the end. */
  function NewImages(p: Pool, count: nat): seq<Resource> { seq(count, i => p.nextResource + i) }

  function Grow(p: Pool, shape: int, count: nat): Pool {
    var images := NewImages(p, count);
    var q := p.(order := p.order + [p.nextId], table := p.table[p.nextId := Slot(shape, true, false, images)],
                gpu := p.gpu.(places := Moved(p.gpu.places, images, Place(Undefined, Ours))),
                nextId := p.nextId + 1, nextResource := p.nextResource + count);
    q.(leases := q.leases[q.nextId := Lease(p.nextId, Held)], nextId := q.nextId + 1)
  }

  datatype Action =
    | ClaimFree(index: nat, shape: int, descriptorOk: bool)
    | ClaimNew(victim: Option<nat>, shape: int, images: nat, createOk: bool)
    | SwapReleased(lease: Id)
    | ClearClaim(lease: Id)
    | NewSource
    | SubmitStaged(lease: Id, op: Operation, source: Resource, submitted: bool)
    | AcquireDirect(image: Resource)
    | ReleaseDirect(image: Resource)

  /**
   `claim` runs under the lock, but leases are released around its scan, which tries one slot after the other:
   a slot it has passed may be free by the time a later one is taken, or a new one made. So any free slot of the
   shape may be the one its compare-exchange finds, and a slot may be replaced or made whatever has become free
   meanwhile. Only a full pool replaces.
   */
  ghost predicate Enabled(p: Pool, x: Action) {
    match x
    case ClaimFree(i, shape, _) => Tabled(p) && i < |p.order| && Free(p, i, shape)
    case ClaimNew(v, shape, images, _) =>
      && Tabled(p) && 1 <= images <= 2
      && (if |p.order| >= p.max then v.Some? && v.value < |p.order| && Replaceable(p, v.value, shape) else v.None?)
    case SwapReleased(l) => l in p.leases && p.leases[l].at.Held?
    case ClearClaim(l) => l in p.leases && p.leases[l].at.Clearing? && p.leases[l].slot in p.table
    case NewSource => true
    case SubmitStaged(l, _, source, _) =>
      l in p.leases && p.leases[l].at.Held? && p.leases[l].slot in p.table && source in p.sources && source !in p.borrowed
    case AcquireDirect(r) => r in p.sources && r !in p.borrowed
    case ReleaseDirect(r) => r in p.borrowed
  }

  function Next(p: Pool, x: Action): Pool
    requires Enabled(p, x)
  {
    match x
    case ClaimFree(i, _, descriptorOk) => if descriptorOk then Take(p, p.order[i]) else p
    case ClaimNew(v, shape, images, createOk) =>
      var q := if v.Some? then p.(order := SwapRemove(p.order, v.value)) else p;
      if createOk then Grow(q, shape, images) else q
    case SwapReleased(l) => p.(leases := p.leases[l := p.leases[l].(at := Clearing)])
    case ClearClaim(l) =>
      var s := p.leases[l].slot;
      p.(leases := p.leases[l := p.leases[l].(at := Released)], table := p.table[s := p.table[s].(claimed := false)])
    case NewSource =>
      p.(sources := p.sources + {p.nextResource}, nextResource := p.nextResource + 1,
         gpu := p.gpu.(places := p.gpu.places[p.nextResource := Place(General, External)]))
    case SubmitStaged(l, op, source, submitted) =>
      var s := p.leases[l].slot;
      var slot := p.table[s];
      if submitted then
        p.(gpu := Run(p.gpu, Staged(op, source, slot.images, slot.initialized)), table := p.table[s := slot.(initialized := true)])
      else p
    case AcquireDirect(r) => p.(gpu := Run(p.gpu, DirectAcquire(r)), borrowed := p.borrowed + {r})
    case ReleaseDirect(r) => p.(gpu := Run(p.gpu, DirectRelease(r)), borrowed := p.borrowed - {r})
  }

  // ---- the invariant -----------------------------------------------------------------------

  predicate Holding(l: Lease, s: Id) { l.slot == s && !l.at.Released? }

  predicate IsImage(p: Pool, s: Id, r: Resource) { s in p.table && r in p.table[s].images }

  ghost predicate SlotsInv(p: Pool) {
    && |p.order| <= p.max && Distinct(p.order) && Tabled(p)
    && (forall s :: s in p.table ==> s < p.nextId)
    && (forall s, r :: IsImage(p, s, r) ==> r < p.nextResource && r !in p.sources)
    && (forall s :: s in p.table ==> Distinct(p.table[s].images))
    && (forall s, t, r :: IsImage(p, s, r) && IsImage(p, t, r) ==> s == t)
    && (forall r :: r in p.sources ==> r < p.nextResource)
    && p.borrowed <= p.sources
  }

  ghost predicate LeasesInv(p: Pool) {
    && (forall l :: l in p.leases ==> l < p.nextId)
    && (forall l, m, s :: l in p.leases && m in p.leases && Holding(p.leases[l], s) && Holding(p.leases[m], s) ==> l == m)
    && (forall l, s :: l in p.leases && Holding(p.leases[l], s) ==> s in p.table && p.table[s].claimed && s in p.order)
    && (forall s :: s in p.table && p.table[s].claimed ==> exists l :: l in p.leases && Holding(p.leases[l], s))
  }

  /** `initialized` tells exactly whether a write was submitted, and with it the layout of the images; a
      source is in the external family unless it is directly borrowed. */
  ghost predicate LayoutsInv(p: Pool) {
    && !p.gpu.misnamed
    && (forall s :: s in p.table ==> AllAt(p.gpu, p.table[s].images, Place(Restored(p.table[s].initialized), Ours)))
    && (forall r :: r in p.sources ==>
          r in p.gpu.places && p.gpu.places[r] == if r in p.borrowed then Place(ShaderRead, Ours) else Place(General, External))
  }

  ghost predicate Inv(p: Pool) { SlotsInv(p) && LeasesInv(p) && LayoutsInv(p) }

  // ---- every step keeps it -----------------------------------------------------------------

  /** `q` differs from `p` in claims and leases only. */
  ghost predicate SameImages(p: Pool, q: Pool) {
    && q.gpu == p.gpu && q.sources == p.sources && q.borrowed == p.borrowed && q.nextResource == p.nextResource && q.max == p.max
    && q.table.Keys == p.table.Keys
    && forall s :: s in p.table ==> q.table[s].images == p.table[s].images && q.table[s].initialized == p.table[s].initialized
  }

  lemma SameImagesKeep(p: Pool, q: Pool)
    requires SameImages(p, q) && LayoutsInv(p)
    ensures LayoutsInv(q)
  {
  }

  /** No slot's images change; sources and slots may come and go. */
  lemma SlotsKeep(p: Pool, q: Pool)
    requires SlotsInv(p) && q.table.Keys == p.table.Keys && forall s :: s in p.table ==> q.table[s].images == p.table[s].images
    requires |q.order| <= q.max && Distinct(q.order) && Tabled(q) && p.nextId <= q.nextId && p.nextResource <= q.nextResource
    requires forall r :: r in q.sources ==> r in p.sources || p.nextResource <= r < q.nextResource
    requires q.borrowed <= q.sources
    ensures SlotsInv(q)
  {
    assert forall s, r :: IsImage(q, s, r) <==> IsImage(p, s, r);
  }

  lemma SameSlots(p: Pool, q: Pool)
    requires SameImages(p, q) && SlotsInv(p) && q.order == p.order && p.nextId <= q.nextId
    ensures SlotsInv(q)
  {
    SlotsKeep(p, q);
  }

  lemma TakeLeases(p: Pool, s: Id)
    requires LeasesInv(p) && s in p.table && s in p.order && !p.table[s].claimed
    ensures LeasesInv(Take(p, s))
  {
    var q := Take(p, s);
    assert p.nextId !in p.leases;
    forall t | t in q.table && q.table[t].claimed ensures exists l :: l in q.leases && Holding(q.leases[l], t) {
      if t == s {
        assert Holding(q.leases[p.nextId], s);
      } else {
        var l :| l in p.leases && Holding(p.leases[l], t);
        assert l in q.leases && Holding(q.leases[l], t);
      }
    }
    assert forall l, t :: l in q.leases && l != p.nextId && Holding(q.leases[l], t) ==> l in p.leases && Holding(p.leases[l], t);
  }

  lemma ClaimFreeKeeps(p: Pool, i: nat, shape: int)
    requires Inv(p) && Enabled(p, ClaimFree(i, shape, true))
    ensures Inv(Next(p, ClaimFree(i, shape, true)))
  {
    var s := p.order[i];
    var q := Take(p, s);
    TakeLeases(p, s);
    assert SameImages(p, q);
    SameImagesKeep(p, q);
    SameSlots(p, q);
    hide SlotsInv, LeasesInv, LayoutsInv;
  }

  lemma ClearLeases(p: Pool, l: Id)
    requires LeasesInv(p) && l in p.leases && p.leases[l].at.Clearing? && p.leases[l].slot in p.table
    ensures var s := p.leases[l].slot;
            LeasesInv(p.(leases := p.leases[l := p.leases[l].(at := Released)], table := p.table[s := p.table[s].(claimed := false)]))
  {
    var s := p.leases[l].slot;
    var q := p.(leases := p.leases[l := p.leases[l].(at := Released)], table := p.table[s := p.table[s].(claimed := false)]);
    assert Holding(p.leases[l], s);
    forall t | t in q.table && q.table[t].claimed ensures exists m :: m in q.leases && Holding(q.leases[m], t) {
      var m :| m in p.leases && Holding(p.leases[m], t);
      assert m != l && m in q.leases && Holding(q.leases[m], t);
    }
    assert forall m, t :: m in q.leases && Holding(q.leases[m], t) ==> m in p.leases && m != l && Holding(p.leases[m], t);
  }

  lemma SwapLeases(p: Pool, l: Id)
    requires LeasesInv(p) && l in p.leases && p.leases[l].at.Held?
    ensures LeasesInv(p.(leases := p.leases[l := p.leases[l].(at := Clearing)]))
  {
    var q := p.(leases := p.leases[l := p.leases[l].(at := Clearing)]);
    forall t | t in q.table && q.table[t].claimed ensures exists m :: m in q.leases && Holding(q.leases[m], t) {
      var m :| m in p.leases && Holding(p.leases[m], t);
      assert m in q.leases && Holding(q.leases[m], t);
    }
    assert forall m, t :: m in q.leases && Holding(q.leases[m], t) ==> m in p.leases && Holding(p.leases[m], t);
  }

  lemma ReleaseKeeps(p: Pool, x: Action)
    requires Inv(p) && Enabled(p, x) && (x.SwapReleased? || x.ClearClaim?)
    ensures Inv(Next(p, x))
  {
    var q := Next(p, x);
    if x.SwapReleased? { SwapLeases(p, x.lease); } else { ClearLeases(p, x.lease); }
    assert SameImages(p, q);
    SameImagesKeep(p, q);
    SameSlots(p, q);
    hide SlotsInv, LeasesInv, LayoutsInv;
  }

  /** Removing an idle slot: nobody holds it, and the others keep their slots. */
  lemma RemoveKeeps(p: Pool, i: nat)
    requires Inv(p) && i < |p.order| && !p.table[p.order[i]].claimed
    ensures var q := p.(order := SwapRemove(p.order, i));
            Inv(q) && |q.order| == |p.order| - 1
  {
    var q := p.(order := SwapRemove(p.order, i));
    SwapRemoved(p.order, i);
    SlotsKeep(p, q);
    assert LayoutsInv(q);
    RemoveLeases(p, i);
  }

  lemma RemoveLeases(p: Pool, i: nat)
    requires LeasesInv(p) && i < |p.order| && p.order[i] in p.table && !p.table[p.order[i]].claimed && Distinct(p.order)
    ensures LeasesInv(p.(order := SwapRemove(p.order, i)))
  {
    SwapRemoved(p.order, i);
    var q := p.(order := SwapRemove(p.order, i));
    hide SwapRemove, Distinct;
    forall t | t in q.table && q.table[t].claimed ensures exists m :: m in q.leases && Holding(q.leases[m], t) {
      var m :| m in p.leases && Holding(p.leases[m], t);
      assert Holding(q.leases[m], t);
    }
    forall l, s | l in q.leases && Holding(q.leases[l], s) ensures s in q.table && q.table[s].claimed && s in q.order {
      assert Holding(p.leases[l], s) && s != p.order[i];
    }
  }

  lemma SwapRemoved(s: seq<Id>, i: nat)
    requires Distinct(s) && i < |s|
    ensures var r := SwapRemove(s, i);
            Distinct(r) && |r| == |s| - 1 && (forall x :: x in r <==> x in s && x != s[i])
  {
    var r := SwapRemove(s, i);
    var n := |s| - 1;
    assert forall k :: 0 <= k < |r| ==> r[k] == if k == i then s[n] else s[k];
    forall x ensures x in r <==> x in s && x != s[i] {
      if x in s && x != s[i] {
        var k :| 0 <= k < |s| && s[k] == x;
        assert if k == n then r[i] == x else r[k] == x;
      }
    }
  }

  // ---- growing -----------------------------------------------------------------------------

  lemma FreshImages(p: Pool, count: nat)
    ensures Distinct(NewImages(p, count)) && |NewImages(p, count)| == count
    ensures forall r :: r in NewImages(p, count) <==> p.nextResource <= r < p.nextResource + count
  {
    var images := NewImages(p, count);
    forall r | p.nextResource <= r < p.nextResource + count ensures r in images {
      assert images[r - p.nextResource] == r;
    }
  }

  lemma GrowSlots(p: Pool, shape: int, count: nat)
    requires SlotsInv(p) && |p.order| < p.max
    ensures SlotsInv(Grow(p, shape, count))
  {
    FreshImages(p, count);
    var q := Grow(p, shape, count);
    assert p.nextId !in p.table && p.nextId !in p.order;
    assert q.table == p.table[p.nextId := q.table[p.nextId]] && q.table[p.nextId].images == NewImages(p, count);
    hide NewImages, Moved;
    assert Distinct(q.order) && Tabled(q);
    assert forall s, r :: IsImage(q, s, r) ==> if s == p.nextId then p.nextResource <= r < p.nextResource + count else IsImage(p, s, r);
    assert forall s :: s in q.table ==> Distinct(q.table[s].images);
  }

  lemma GrowLayouts(p: Pool, shape: int, count: nat)
    requires SlotsInv(p) && LayoutsInv(p)
    ensures LayoutsInv(Grow(p, shape, count))
  {
    var q := Grow(p, shape, count);
    var images := NewImages(p, count);
    FreshImages(p, count);
    MovedPlaces(p.gpu.places, images, Place(Undefined, Ours));
    assert q.gpu.places == Moved(p.gpu.places, images, Place(Undefined, Ours)) && !q.gpu.misnamed;
    assert p.nextId !in p.table && q.table == p.table[p.nextId := Slot(shape, true, false, images)];
    hide NewImages, Moved;
    forall s | s in q.table ensures AllAt(q.gpu, q.table[s].images, Place(Restored(q.table[s].initialized), Ours)) {
      assert s != p.nextId ==> forall r :: r in p.table[s].images ==> IsImage(p, s, r);
      if s != p.nextId { assert AllAt(p.gpu, p.table[s].images, Place(Restored(p.table[s].initialized), Ours)); }
    }
  }

  lemma GrowLeases(p: Pool, shape: int, count: nat)
    requires SlotsInv(p) && LeasesInv(p)
    ensures LeasesInv(Grow(p, shape, count))
  {
    var q := Grow(p, shape, count);
    assert p.nextId !in p.table && p.nextId !in p.leases && p.nextId + 1 !in p.leases;
    assert q.leases == p.leases[p.nextId + 1 := Lease(p.nextId, Held)];
    assert q.table == p.table[p.nextId := q.table[p.nextId]] && q.table[p.nextId].claimed && q.order == p.order + [p.nextId];
    hide Grow, SlotsInv;
    forall t | t in q.table && q.table[t].claimed ensures exists m :: m in q.leases && Holding(q.leases[m], t) {
      if t == p.nextId {
        assert Holding(q.leases[p.nextId + 1], t);
      } else {
        var m :| m in p.leases && Holding(p.leases[m], t);
        assert m in q.leases && Holding(q.leases[m], t);
      }
    }
    assert forall m, t :: m in q.leases && m != p.nextId + 1 && Holding(q.leases[m], t) ==> m in p.leases && Holding(p.leases[m], t);
  }

  lemma ClaimNewKeeps(p: Pool, v: Option<nat>, shape: int, images: nat, createOk: bool)
    requires Inv(p) && Enabled(p, ClaimNew(v, shape, images, createOk))
    ensures Inv(Next(p, ClaimNew(v, shape, images, createOk)))
  {
    var q := if v.Some? then p.(order := SwapRemove(p.order, v.value)) else p;
    if v.Some? { RemoveKeeps(p, v.value); }
    assert |q.order| < q.max || !createOk || |p.order| > p.max;
    if createOk {
      hide SwapRemove, Grow, LeasesInv, LayoutsInv;
      GrowSlots(q, shape, images);
      GrowLayouts(q, shape, images);
      GrowLeases(q, shape, images);
    }
  }

  // ---- submitting --------------------------------------------------------------------------

  lemma NewSourceKeeps(p: Pool)
    requires Inv(p)
    ensures Inv(Next(p, NewSource))
  {
    var q := Next(p, NewSource);
    SlotsKeep(p, q);
    forall s | s in q.table ensures AllAt(q.gpu, q.table[s].images, Place(Restored(q.table[s].initialized), Ours)) {
      assert AllAt(p.gpu, p.table[s].images, Place(Restored(p.table[s].initialized), Ours));
      forall r | r in p.table[s].images ensures r < p.nextResource { assert IsImage(p, s, r); }
    }
    assert LayoutsInv(q);
    forall t | t in q.table && q.table[t].claimed ensures exists m :: m in q.leases && Holding(q.leases[m], t) {
      var m :| m in p.leases && Holding(p.leases[m], t);
      assert Holding(q.leases[m], t);
    }
  }

  /** The leases and claims depend on no layout. */
  lemma SameLeases(p: Pool, q: Pool)
    requires LeasesInv(p) && q.leases == p.leases && q.order == p.order && q.nextId == p.nextId && q.table.Keys == p.table.Keys
    requires forall s :: s in p.table ==> q.table[s].claimed == p.table[s].claimed
    ensures LeasesInv(q)
  {
    forall t | t in q.table && q.table[t].claimed ensures exists m :: m in q.leases && Holding(q.leases[m], t) {
      var m :| m in p.leases && Holding(p.leases[m], t);
      assert Holding(q.leases[m], t);
    }
  }

  lemma SubmitLayouts(p: Pool, s: Id, op: Operation, source: Resource)
    requires SlotsInv(p) && LayoutsInv(p) && s in p.table && source in p.sources && source !in p.borrowed
    ensures LayoutsInv(p.(gpu := Run(p.gpu, Staged(op, source, p.table[s].images, p.table[s].initialized)),
                          table := p.table[s := p.table[s].(initialized := true)]))
  {
    var slot := p.table[s];
    var g := Run(p.gpu, Staged(op, source, slot.images, slot.initialized));
    assert source in slot.images ==> IsImage(p, s, source);
    assert source !in slot.images;
    StagedRuns(p.gpu, op, source, slot.images, slot.initialized);
    MovedPlaces(p.gpu.places, slot.images, Place(ShaderRead, Ours));
    hide Staged, Run, Moved;
    var q := p.(gpu := g, table := p.table[s := slot.(initialized := true)]);
    forall t | t in q.table ensures AllAt(q.gpu, q.table[t].images, Place(Restored(q.table[t].initialized), Ours)) {
      if t != s {
        assert AllAt(p.gpu, p.table[t].images, Place(Restored(p.table[t].initialized), Ours));
        forall r | r in p.table[t].images ensures r !in slot.images { assert IsImage(p, t, r) && (r in slot.images ==> IsImage(p, s, r)); }
      }
    }
  }

  lemma SubmitKeeps(p: Pool, l: Id, op: Operation, source: Resource)
    requires Inv(p) && Enabled(p, SubmitStaged(l, op, source, true))
    ensures Inv(Next(p, SubmitStaged(l, op, source, true)))
  {
    var s, q := p.leases[l].slot, Next(p, SubmitStaged(l, op, source, true));
    SubmitLayouts(p, s, op, source);
    SameLeases(p, q);
    SlotsKeep(p, q);
    hide SlotsInv, LeasesInv, LayoutsInv;
  }

  lemma DirectKeeps(p: Pool, x: Action)
    requires Inv(p) && Enabled(p, x) && (x.AcquireDirect? || x.ReleaseDirect?)
    ensures Inv(Next(p, x))
  {
    var q := Next(p, x);
    var r := x.image;
    RunOne(p.gpu, if x.AcquireDirect? then DirectAcquire(r)[0] else DirectRelease(r)[0]);
    assert q.gpu == Gpu(p.gpu.places[r := if x.AcquireDirect? then Place(ShaderRead, Ours) else Place(General, External)], false);
    SameLeases(p, q);
    hide Run, LeasesInv;
    SlotsKeep(p, q);
    forall t | t in q.table ensures AllAt(q.gpu, q.table[t].images, Place(Restored(q.table[t].initialized), Ours)) {
      assert AllAt(p.gpu, p.table[t].images, Place(Restored(p.table[t].initialized), Ours));
      assert r in p.table[t].images ==> IsImage(p, t, r);
    }
  }

  lemma StepKeeps(p: Pool, x: Action)
    requires Inv(p) && Enabled(p, x)
    ensures Inv(Next(p, x))
  {
    match x
    case ClaimFree(i, shape, descriptorOk) => if descriptorOk { ClaimFreeKeeps(p, i, shape); }
    case ClaimNew(v, shape, images, createOk) => ClaimNewKeeps(p, v, shape, images, createOk);
    case SwapReleased(_) => ReleaseKeeps(p, x);
    case ClearClaim(_) => ReleaseKeeps(p, x);
    case NewSource => NewSourceKeeps(p);
    case SubmitStaged(l, op, source, submitted) => if submitted { SubmitKeeps(p, l, op, source); }
    case AcquireDirect(_) => DirectKeeps(p, x);
    case ReleaseDirect(_) => DirectKeeps(p, x);
  }

  ghost predicate IsRun(states: seq<Pool>, actions: seq<Action>) {
    && |states| == |actions| + 1 && states[0] == Empty(states[0].max)
    && forall i :: 0 <= i < |actions| ==> Enabled(states[i], actions[i]) && states[i + 1] == Next(states[i], actions[i])
  }

  lemma RunStep(states: seq<Pool>, actions: seq<Action>, i: nat)
    requires IsRun(states, actions) && i < |actions|
    ensures |states| == |actions| + 1 && Enabled(states[i], actions[i]) && states[i + 1] == Next(states[i], actions[i])
  {
    hide Enabled, Next;
  }

  lemma {:induction false} RunInv(states: seq<Pool>, actions: seq<Action>, i: nat)
    requires IsRun(states, actions) && i < |states|
    ensures Inv(states[i])
  {
    if i > 0 {
      RunInv(states, actions, i - 1);
      RunStep(states, actions, i - 1);
      hide IsRun, Inv, Enabled, Next;
      StepKeeps(states[i - 1], actions[i - 1]);
    }
  }

  /** In every run: at most `max` slots, each held by at most one lease not yet fully released; every barrier
      named the place its image was really in; a slot's images are readable exactly when a write to them
      was submitted; and every source not directly borrowed is back in the external family. */
  lemma PoolIsSound(states: seq<Pool>, actions: seq<Action>, i: nat)
    requires IsRun(states, actions) && i < |states|
    ensures var p := states[i];
            && |p.order| <= p.max && Distinct(p.order) && !p.gpu.misnamed
            && (forall l, m, s :: l in p.leases && m in p.leases && Holding(p.leases[l], s) && Holding(p.leases[m], s) ==> l == m)
            && (forall s, r :: s in p.table && r in p.table[s].images ==>
                  r in p.gpu.places && p.gpu.places[r] == Place(if p.table[s].initialized then ShaderRead else Undefined, Ours))
            && (forall r :: r in p.sources && r !in p.borrowed ==> r in p.gpu.places && p.gpu.places[r] == Place(General, External))
  {
    RunInv(states, actions, i);
    var p := states[i];
    hide IsRun;
    forall s, r | s in p.table && r in p.table[s].images
      ensures r in p.gpu.places && p.gpu.places[r] == Place(if p.table[s].initialized then ShaderRead else Undefined, Ours)
    {
      assert AllAt(p.gpu, p.table[s].images, Place(Restored(p.table[s].initialized), Ours));
    }
  }

  // ---- the pool as the object behind its lock ----------------------------------------------

  class LockedPool {
    var state: Pool

    constructor (max: nat)
      ensures state == Empty(max) && Inv(state)
    {
      state := Empty(max);
    }

    /** The first free slot of the shape. */
    method FindFree(shape: int) returns (index: Option<nat>)
      requires Inv(state)
      ensures index.Some? ==> index.value < |state.order| && Free(state, index.value, shape)
      ensures forall j :: 0 <= j < (if index.Some? then index.value else |state.order|) ==> !Free(state, j, shape)
    {
      var i := 0;
      while i < |state.order|
        invariant 0 <= i <= |state.order| && forall j :: 0 <= j < i ==> !Free(state, j, shape)
      {
        if Free(state, i, shape) {
          return Some(i);
        }
        i := i + 1;
      }
      return None;
    }

    /** The first idle slot of another shape. */
    method FindReplaceable(shape: int) returns (index: Option<nat>)
      requires Inv(state)
      ensures index.Some? ==> index.value < |state.order| && Replaceable(state, index.value, shape)
      ensures index.None? ==> forall j :: 0 <= j < |state.order| ==> !Replaceable(state, j, shape)
    {
      var i := 0;
      while i < |state.order|
        invariant 0 <= i <= |state.order| && forall j :: 0 <= j < i ==> !Replaceable(state, j, shape)
      {
        if Replaceable(state, i, shape) {
          return Some(i);
        }
        i := i + 1;
      }
      return None;
    }

    /** `claim`: one step of the pool, or saturated exactly when the pool is full and every slot is either
        claimed or of this shape and so claimed too. */
    method Claim(shape: int, images: nat, descriptorOk: bool, createOk: bool) returns (saturated: bool, ghost step: Option<Action>)
      requires Inv(state) && 1 <= images <= 2
      modifies this
      ensures Inv(state)
      ensures step.Some? ==> !saturated && Enabled(old(state), step.value) && state == Next(old(state), step.value)
      ensures saturated <==> |old(state).order| >= old(state).max
                             && forall j :: 0 <= j < |old(state).order| ==> old(state).table[old(state).order[j]].claimed
      ensures saturated <==> step.None?
      ensures saturated ==> state == old(state)
    {
      var p := state;
      saturated, step := false, None;
      var free := FindFree(shape);
      if free.Some? {
        step := Some(ClaimFree(free.value, shape, descriptorOk));
        StepKeeps(p, step.value);
        if descriptorOk {
          state := Take(p, p.order[free.value]);
        }
        return;
      }
      var victim := None;
      if |p.order| >= p.max {
        victim := FindReplaceable(shape);
        if victim.None? {
          forall j | 0 <= j < |p.order| ensures p.table[p.order[j]].claimed {
            assert !Free(p, j, shape) && !Replaceable(p, j, shape);
          }
          saturated := true;
          return;
        }
      }
      step := Some(ClaimNew(victim, shape, images, createOk));
      StepKeeps(p, step.value);
      var q := if victim.Some? then p.(order := SwapRemove(p.order, victim.value)) else p;
      state := if createOk then Grow(q, shape, images) else q;
    }
  }
}
