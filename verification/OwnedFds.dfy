/**
 Duplicating the file descriptors of a frame, and probing the size of one.

 The operating system is a table of open descriptors. Whether a call succeeds, and which number it hands
 out, is the system's choice: it comes in as a parameter that has to be truthful about the table.
 */
module OwnedFds {
  import opened Common
  import opened Machine
  import opened Descriptors
  import opened Frames
  import RustDescriptors
  import RustFrames

  datatype OwnedObject = OwnedObject(fd: int, size: U64, modifier: Modifier)

  datatype DuplicateError = Refused(error: RustDescriptors.ValidationError) | DuplicateObject(index: nat)

  datatype Duplicated = Owned(objects: seq<OwnedObject>, layers: seq<Layer>) | NotOwned(error: DuplicateError)

  function Fds(objects: seq<OwnedObject>): set<int> { set i | 0 <= i < |objects| :: objects[i].fd }

  ghost predicate DistinctFds(objects: seq<OwnedObject>) { forall i, j :: 0 <= i < j < |objects| ==> objects[i].fd != objects[j].fd }

  /** One answer per object; a success needs an open source, and hands out a number not in use. */
  ghost predicate Truthful(answers: seq<Option<int>>, objects: seq<Object>, open: set<int>) {
    && |answers| == |objects|
    && (forall i :: 0 <= i < |answers| && answers[i].Some? ==> objects[i].fd in open && answers[i].value !in open)
    && (forall i, j :: 0 <= i < j < |answers| && answers[i].Some? && answers[j].Some? ==> answers[i].value != answers[j].value)
  }

  datatype OwnedStorage = OwnedBinary(size: U64, planes: seq<BinaryPlane>) | OwnedDmaBuf(objects: seq<OwnedObject>, layers: seq<Layer>)

  function ObjectsOf(storage: Storage): seq<Object> { if storage.Binary? then [] else storage.descriptor.objects }

  function OwnedObjects(owned: OwnedStorage): seq<OwnedObject> { if owned.OwnedBinary? then [] else owned.objects }

  /** The owned storage is the given one with each descriptor replaced by its own duplicate. */
  ghost predicate Carries(storage: Storage, answers: seq<Option<int>>, owned: OwnedStorage) {
    match storage
    case Binary(size, planes) => owned == OwnedBinary(size, planes)
    case DmaBuf(d) =>
      && owned.OwnedDmaBuf? && owned.layers == d.layers && |owned.objects| == |d.objects| == |answers| && DistinctFds(owned.objects)
      && forall i :: 0 <= i < |d.objects| ==> answers[i].Some? && owned.objects[i] == OwnedObject(answers[i].value, d.objects[i].size, d.objects[i].modifier)
  }

  class FdTable {
    var open: set<int>

    method Duplicate(fd: int, answer: Option<int>) returns (r: Option<int>)
      requires answer.Some? ==> fd in open && answer.value !in open
      modifies this
      ensures r == answer
      ensures open == (if answer.Some? then old(open) + {answer.value} else old(open))
    {
      if answer.Some? {
        open := open + {answer.value};
      }
      return answer;
    }

    method Close(fd: int)
      requires fd in open
      modifies this
      ensures open == old(open) - {fd}
    {
      open := open - {fd};
    }

    /** Dropping owned objects closes each descriptor once. */
    method DropObjects(objects: seq<OwnedObject>)
      requires DistinctFds(objects) && Fds(objects) <= open
      modifies this
      ensures open == old(open) - Fds(objects)
    {
      var i := 0;
      while i < |objects|
        invariant 0 <= i <= |objects| && open == old(open) - Fds(objects[..i])
        invariant forall k :: i <= k < |objects| ==> objects[k].fd in open
      {
        Close(objects[i].fd);
        FdsGrow(objects, i);
        i := i + 1;
      }
      assert objects[..i] == objects;
    }

    /** All the descriptors are duplicated, or none is left open. */
    method DuplicateDescriptor(d: Descriptor, answers: seq<Option<int>>) returns (r: Duplicated)
      requires Truthful(answers, d.objects, open)
      modifies this
      ensures r.Owned? <==> Usable(d) && forall i :: 0 <= i < |answers| ==> answers[i].Some?
      ensures r.Owned? ==>
                && r.layers == d.layers && |r.objects| == |d.objects| && DistinctFds(r.objects)
                && (forall i :: 0 <= i < |d.objects| ==> r.objects[i] == OwnedObject(answers[i].value, d.objects[i].size, d.objects[i].modifier))
                && open == old(open) + Fds(r.objects) && Fds(r.objects) !! old(open)
      ensures r.NotOwned? ==> open == old(open)
      ensures r.NotOwned? && r.error.DuplicateObject? ==>
                Usable(d) && r.error.index < |answers| && answers[r.error.index].None? && forall i :: 0 <= i < r.error.index ==> answers[i].Some?
    {
      var checked := RustDescriptors.Validate(d);
      if checked.Err? {
        return NotOwned(Refused(checked.error));
      }
      var objects: seq<OwnedObject> := [];
      var i := 0;
      while i < |d.objects|
        invariant 0 <= i <= |d.objects| && |objects| == i
        invariant forall k :: 0 <= k < i ==> answers[k].Some? && objects[k] == OwnedObject(answers[k].value, d.objects[k].size, d.objects[k].modifier)
        invariant open == old(open) + Fds(objects)
      {
        var fd := Duplicate(d.objects[i].fd, answers[i]);
        if fd.None? {
          DropObjects(objects);
          FreshGone(old(open), objects);
          return NotOwned(DuplicateObject(i));
        }
        objects := objects + [OwnedObject(fd.value, d.objects[i].size, d.objects[i].modifier)];
        assert objects[..i + 1] == objects;
        FdsGrow(objects, i);
        assert objects[..i] + [objects[i]] == objects;
        i := i + 1;
      }
      return Owned(objects, d.layers);
    }

    /** Binary storage is copied and opens nothing. */
    method DuplicateStorage(storage: Storage, answers: seq<Option<int>>) returns (owned: Option<OwnedStorage>)
      requires Truthful(answers, ObjectsOf(storage), open)
      modifies this
      ensures storage.Binary? ==> owned == Some(OwnedBinary(storage.size, storage.planes)) && open == old(open)
      ensures storage.DmaBuf? ==> (owned.Some? <==> Usable(storage.descriptor) && forall i :: 0 <= i < |answers| ==> answers[i].Some?)
      ensures owned.None? ==> open == old(open)
      ensures owned.Some? ==> Carries(storage, answers, owned.value)
      ensures owned.Some? ==> Fds(OwnedObjects(owned.value)) !! old(open) && open == old(open) + Fds(OwnedObjects(owned.value))
    {
      match storage
      case Binary(size, planes) =>
        return Some(OwnedBinary(size, planes));
      case DmaBuf(descriptor) =>
        var r := DuplicateDescriptor(descriptor, answers);
        owned := if r.Owned? then Some(OwnedDmaBuf(r.objects, r.layers)) else None;
    }

    /** The storage first, then the fence; if the fence fails the storage is dropped again. */
    method DuplicateFrame(f: Frame, answers: seq<Option<int>>, fence: Option<int>) returns (storage: Option<OwnedStorage>, ownedFence: Option<int>)
      requires Truthful(answers, ObjectsOf(f.storage), open)
      requires fence.Some? ==> f.sync.SyncFile? && f.sync.fd in open && fence.value !in open
      requires fence.Some? ==> forall i :: 0 <= i < |answers| && answers[i].Some? ==> answers[i].value != fence.value
      modifies this
      ensures storage.Some? <==> FrameUsable(f) && (forall i :: 0 <= i < |answers| ==> answers[i].Some?) && (f.sync.SyncFile? ==> fence.Some?)
      ensures storage.None? ==> open == old(open) && ownedFence.None?
      ensures storage.Some? ==>
                && ownedFence == fence && Carries(f.storage, answers, storage.value)
                && open == old(open) + Fds(OwnedObjects(storage.value)) + (if fence.Some? then {fence.value} else {})
    {
      storage, ownedFence := None, None;
      var checked := RustFrames.Validate(f);
      if checked.Invalid? {
        return;
      }
      var owned := DuplicateStorage(f.storage, answers);
      if owned.None? {
        return;
      }
      if f.sync.SyncFile? {
        ownedFence := Duplicate(f.sync.fd, fence);
        if ownedFence.None? {
          DropObjects(OwnedObjects(owned.value));
          FreshGone(old(open), OwnedObjects(owned.value));
          return;
        }
      }
      storage := owned;
    }
  }

  lemma FdsGrow(objects: seq<OwnedObject>, i: nat)
    requires i < |objects|
    ensures Fds(objects[..i + 1]) == Fds(objects[..i]) + {objects[i].fd}
  {
    var more := objects[..i + 1];
    assert more[i] == objects[i];
    assert forall k :: 0 <= k < i ==> more[k] == objects[..i][k];
  }

  lemma FreshGone(open: set<int>, objects: seq<OwnedObject>)
    requires Fds(objects) !! open
    ensures open + Fds(objects) - Fds(objects) == open
  {
  }

  // ---- the size of an allocation -----------------------------------------------------------

  datatype Stat = Stat(device: U64, inode: U64, size: int)

  datatype Probe = Probe(device: U64, inode: U64, allocationSize: int) | ProbeFailed(error: ProbeError)

  datatype ProbeError = StatError | RestoreError | SeekError | ZeroSize | NegativeStat | SizeMismatch

  /** An open file: where it stands, where it ends, and which seeks it supports. */
  class OpenFile {
    var position: int
    const end: int
    const tells: bool
    const seeksEnd: bool
    const seeksBack: bool

    constructor (position: int, end: int, tells: bool, seeksEnd: bool, seeksBack: bool)
      ensures this.position == position && this.end == end && this.tells == tells && this.seeksEnd == seeksEnd && this.seeksBack == seeksBack
    {
      this.position := position;
      this.end := end;
      this.tells := tells;
      this.seeksEnd := seeksEnd;
      this.seeksBack := seeksBack;
    }

    ghost predicate Valid()
      reads this
    {
      0 <= position && 0 <= end
    }

    method SeekEnd() returns (r: int)
      requires Valid()
      modifies this
      ensures Valid()
      ensures seeksEnd ==> r == end && position == end
      ensures !seeksEnd ==> r < 0 && position == old(position)
    {
      if !seeksEnd {
        return -1;
      }
      position := end;
      return end;
    }

    method SeekSet(to: int) returns (r: int)
      requires Valid() && 0 <= to
      modifies this
      ensures Valid()
      ensures seeksBack ==> r == to && position == to
      ensures !seeksBack ==> r < 0 && position == old(position)
    {
      if !seeksBack {
        return -1;
      }
      position := to;
      return to;
    }

    /** The shared position is put back before anything else is looked at, whatever the size turns out to be. */
    method ProbeDmaBuf(stat: Option<Stat>) returns (r: Probe)
      requires Valid()
      modifies this
      ensures Valid()
      ensures stat.None? || (tells && seeksBack) || !seeksEnd ==> position == old(position)
      ensures r.Probe? <==> stat.Some? && seeksEnd && (tells ==> seeksBack) && end > 0 && stat.value.size in {0, end}
      ensures r.Probe? ==> r == Probe(stat.value.device, stat.value.inode, end)
      ensures r == ProbeFailed(RestoreError) <==> stat.Some? && tells && !seeksBack
      ensures r == ProbeFailed(SizeMismatch) ==> stat.Some? && stat.value.size > 0 && stat.value.size != end
    {
      if stat.None? {
        return ProbeFailed(StatError);
      }
      var original := if tells then position else -1;
      var allocationEnd := SeekEnd();
      if original >= 0 {
        var restored := SeekSet(original);
        if restored < 0 {
          return ProbeFailed(RestoreError);
        }
      }
      if allocationEnd < 0 {
        return ProbeFailed(SeekError);
      }
      if allocationEnd == 0 {
        return ProbeFailed(ZeroSize);
      }
      if stat.value.size < 0 {
        return ProbeFailed(NegativeStat);
      }
      if stat.value.size > 0 && stat.value.size != allocationEnd {
        return ProbeFailed(SizeMismatch);
      }
      return Probe(stat.value.device, stat.value.inode, allocationEnd);
    }
  }
}
