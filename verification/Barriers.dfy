/**
 The barriers each command buffer records, run against what the images and buffers really are.

 A barrier must name the layout its image is in and the queue family that owns it; a copy, a
 dispatch or the renderer must find its images in the layout it uses. `misnamed` records any
 command for which that fails. A barrier with both queue families ignored leaves the owner as
 it is, which has to be this device.
 */
module Barriers {
  import opened Common

  type Resource = int

  datatype Layout = Undefined | General | ShaderRead | TransferDst | TransferSrc

  datatype Family = External | Ours

  datatype Place = Place(layout: Layout, family: Family)

  datatype Command =
    | ImageBarrier(image: Resource, old_: Layout, new_: Layout, from: Family, to: Family)
    | BufferBarrier(buffer: Resource, from: Family, to: Family)
    | Uses(resource: Resource, layout: Layout)

  /** Buffers have no layout; theirs is kept as `General` throughout. */
  datatype Gpu = Gpu(places: map<Resource, Place>, misnamed: bool)

  function Apply(g: Gpu, c: Command): Gpu {
    match c
    case ImageBarrier(i, was, becomes, from, to) =>
      Gpu(g.places[i := Place(becomes, to)], g.misnamed || i !in g.places || g.places[i] != Place(was, from))
    case BufferBarrier(b, from, to) =>
      Gpu(g.places[b := Place(General, to)], g.misnamed || b !in g.places || g.places[b] != Place(General, from))
    case Uses(r, layout) => g.(misnamed := g.misnamed || r !in g.places || g.places[r] != Place(layout, Ours))
  }

  function Run(g: Gpu, cs: seq<Command>): Gpu
    decreases |cs|
  {
    if cs == [] then g else Run(Apply(g, cs[0]), cs[1..])
  }

  lemma {:induction false} RunBoth(g: Gpu, a: seq<Command>, b: seq<Command>)
    ensures Run(g, a + b) == Run(Run(g, a), b)
    decreases |a|
  {
    if a == [] {
      assert a + b == b;
    } else {
      assert (a + b)[0] == a[0] && (a + b)[1..] == a[1..] + b;
      RunBoth(Apply(g, a[0]), a[1..], b);
    }
  }

  function OutputBarriers(images: seq<Resource>, was: Layout, becomes: Layout): seq<Command> {
    seq(|images|, i requires 0 <= i < |images| => ImageBarrier(images[i], was, becomes, Ours, Ours))
  }

  function OutputUses(images: seq<Resource>, layout: Layout): seq<Command> {
    seq(|images|, i requires 0 <= i < |images| => Uses(images[i], layout))
  }

  function Restored(initialized: bool): Layout { if initialized then ShaderRead else Undefined }

  // ---- what is recorded --------------------------------------------------------------------

  function DirectAcquire(image: Resource): seq<Command> { [ImageBarrier(image, General, ShaderRead, External, Ours)] }

  function DirectRelease(image: Resource): seq<Command> { [ImageBarrier(image, ShaderRead, General, Ours, External)] }

  /** The compute conversion: the shader reads the source buffer and writes the outputs in `GENERAL`. */
  function StagedCompute(source: Resource, outputs: seq<Resource>, initialized: bool): seq<Command> {
    [BufferBarrier(source, External, Ours)] + OutputBarriers(outputs, Restored(initialized), General)
    + ([Uses(source, General)] + OutputUses(outputs, General))
    + OutputBarriers(outputs, General, ShaderRead)
    + [BufferBarrier(source, Ours, External)]
  }

  /** The buffer copy. */
  function StagedTransfer(source: Resource, outputs: seq<Resource>, initialized: bool): seq<Command> {
    [BufferBarrier(source, External, Ours)] + OutputBarriers(outputs, Restored(initialized), TransferDst)
    + ([Uses(source, General)] + OutputUses(outputs, TransferDst))
    + OutputBarriers(outputs, TransferDst, ShaderRead)
    + [BufferBarrier(source, Ours, External)]
  }

  /** The image copy, whose source is an imported image. */
  function StagedImageTransfer(source: Resource, outputs: seq<Resource>, initialized: bool): seq<Command> {
    [ImageBarrier(source, General, TransferSrc, External, Ours)] + OutputBarriers(outputs, Restored(initialized), TransferDst)
    + ([Uses(source, TransferSrc)] + OutputUses(outputs, TransferDst))
    + OutputBarriers(outputs, TransferDst, ShaderRead)
    + [ImageBarrier(source, TransferSrc, General, Ours, External)]
  }

  datatype Operation = Compute | BufferTransfer | ImageTransfer

  function Staged(op: Operation, source: Resource, outputs: seq<Resource>, initialized: bool): seq<Command> {
    match op
    case Compute => StagedCompute(source, outputs, initialized)
    case BufferTransfer => StagedTransfer(source, outputs, initialized)
    case ImageTransfer => StagedImageTransfer(source, outputs, initialized)
  }

  // ---- what running it does ----------------------------------------------------------------

  ghost predicate AllAt(g: Gpu, images: seq<Resource>, p: Place) {
    forall i :: i in images ==> i in g.places && g.places[i] == p
  }

  /** `places` with every image of `images` moved to `p`. */
  function Moved(places: map<Resource, Place>, images: seq<Resource>, p: Place): map<Resource, Place>
    decreases |images|
  {
    if images == [] then places else Moved(places[images[0] := p], images[1..], p)
  }

  lemma {:induction false} MovedPlaces(places: map<Resource, Place>, images: seq<Resource>, p: Place)
    ensures forall r :: r in Moved(places, images, p) <==> r in places || r in images
    ensures forall r :: r in Moved(places, images, p) ==> Moved(places, images, p)[r] == if r in images then p else places[r]
    decreases |images|
  {
    if images != [] { MovedPlaces(places[images[0] := p], images[1..], p); }
  }

  lemma {:induction false} BarriersMove(g: Gpu, images: seq<Resource>, was: Layout, becomes: Layout)
    requires Distinct(images) && AllAt(g, images, Place(was, Ours))
    ensures Run(g, OutputBarriers(images, was, becomes)) == Gpu(Moved(g.places, images, Place(becomes, Ours)), g.misnamed)
    decreases |images|
  {
    var cs := OutputBarriers(images, was, becomes);
    if images != [] {
      assert images[0] in images && images[0] !in images[1..];
      assert cs[0] == ImageBarrier(images[0], was, becomes, Ours, Ours) && cs[1..] == OutputBarriers(images[1..], was, becomes);
      BarriersMove(Apply(g, cs[0]), images[1..], was, becomes);
    }
  }

  lemma {:induction false} UsesFind(g: Gpu, images: seq<Resource>, layout: Layout)
    requires AllAt(g, images, Place(layout, Ours))
    ensures Run(g, OutputUses(images, layout)) == g
    decreases |images|
  {
    var cs := OutputUses(images, layout);
    if images != [] {
      assert images[0] in images;
      assert cs[0] == Uses(images[0], layout) && cs[1..] == OutputUses(images[1..], layout);
      UsesFind(g, images[1..], layout);
    }
  }

  lemma RunOne(g: Gpu, c: Command)
    ensures Run(g, [c]) == Apply(g, c)
  {
    assert [c][1..] == [];
  }

  /** The common shape: acquire the source, prepare the outputs, work, make them readable, give the source back. */
  lemma StagedShape(g: Gpu, source: Resource, outputs: seq<Resource>, initialized: bool, working: Layout, held: Layout,
                    take: Command, give: Command)
    requires Distinct(outputs) && source !in outputs && !g.misnamed
    requires source in g.places && g.places[source] == Place(General, External) && AllAt(g, outputs, Place(Restored(initialized), Ours))
    requires (take == BufferBarrier(source, External, Ours) && give == BufferBarrier(source, Ours, External) && held == General)
             || (take == ImageBarrier(source, General, held, External, Ours) && give == ImageBarrier(source, held, General, Ours, External))
    ensures var cs := [take] + OutputBarriers(outputs, Restored(initialized), working)
                      + ([Uses(source, held)] + OutputUses(outputs, working))
                      + OutputBarriers(outputs, working, ShaderRead) + [give];
            Run(g, cs) == Gpu(Moved(g.places, outputs, Place(ShaderRead, Ours)), false)
  {
    var a, b, u := [take], OutputBarriers(outputs, Restored(initialized), working), [Uses(source, held)] + OutputUses(outputs, working);
    var d, e := OutputBarriers(outputs, working, ShaderRead), [give];
    RunOne(g, take);
    var g1 := Run(g, a);
    assert g1 == Gpu(g.places[source := Place(held, Ours)], false);
    assert AllAt(g1, outputs, Place(Restored(initialized), Ours));
    BarriersMove(g1, outputs, Restored(initialized), working);
    var g2 := Run(g1, b);
    MovedPlaces(g1.places, outputs, Place(working, Ours));
    RunOne(g2, Uses(source, held));
    UsesFind(g2, outputs, working);
    RunBoth(g2, [Uses(source, held)], OutputUses(outputs, working));
    assert Run(g2, u) == g2;
    BarriersMove(g2, outputs, working, ShaderRead);
    var g3 := Run(g2, d);
    MovedPlaces(g2.places, outputs, Place(ShaderRead, Ours));
    RunOne(g3, give);
    MovedPlaces(g.places, outputs, Place(ShaderRead, Ours));
    var g4 := Run(g3, e);
    var want := Moved(g.places, outputs, Place(ShaderRead, Ours));
    assert g3.places[source] == Place(held, Ours) && g4.places == g3.places[source := Place(General, External)];
    assert forall r :: r in g4.places <==> r in want;
    assert forall r :: r in want ==> g4.places[r] == want[r];
    assert g4.places == want;
    RunBoth(g, a, b);
    RunBoth(g, a + b, u);
    RunBoth(g, a + b + u, d);
    RunBoth(g, a + b + u + d, e);
  }

  /** Every staged command buffer names each layout and owner correctly, leaves its outputs readable, and
      ends with the source back in the external family, as it found it. */
  lemma StagedRuns(g: Gpu, op: Operation, source: Resource, outputs: seq<Resource>, initialized: bool)
    requires Distinct(outputs) && source !in outputs && !g.misnamed
    requires source in g.places && g.places[source] == Place(General, External) && AllAt(g, outputs, Place(Restored(initialized), Ours))
    ensures var h := Run(g, Staged(op, source, outputs, initialized));
            && !h.misnamed && h.places == Moved(g.places, outputs, Place(ShaderRead, Ours))
            && source in h.places && h.places[source] == Place(General, External)
  {
    match op {
      case Compute => StagedShape(g, source, outputs, initialized, General, General, BufferBarrier(source, External, Ours), BufferBarrier(source, Ours, External));
      case BufferTransfer => StagedShape(g, source, outputs, initialized, TransferDst, General, BufferBarrier(source, External, Ours), BufferBarrier(source, Ours, External));
      case ImageTransfer =>
        StagedShape(g, source, outputs, initialized, TransferDst, TransferSrc,
                    ImageBarrier(source, General, TransferSrc, External, Ours), ImageBarrier(source, TransferSrc, General, Ours, External));
    }
    MovedPlaces(g.places, outputs, Place(ShaderRead, Ours));
  }

  /** Recording the wrong state of an output is always noticed: the flag has to be exact. */
  lemma WrongFlagMisnames(g: Gpu, op: Operation, source: Resource, outputs: seq<Resource>, initialized: bool)
    requires outputs != [] && outputs[0] in g.places && outputs[0] != source
    requires g.places[outputs[0]] != Place(Restored(initialized), Ours)
    ensures Run(g, Staged(op, source, outputs, initialized)).misnamed
  {
    var cs := Staged(op, source, outputs, initialized);
    assert cs[1] == ImageBarrier(outputs[0], Restored(initialized), cs[1].new_, Ours, Ours);
    assert cs == cs[..2] + cs[2..];
    RunBoth(g, cs[..2], cs[2..]);
    assert cs[..2][1..] == [cs[1]];
    RunOne(Apply(g, cs[0]), cs[1]);
    MisnamedStays(Run(g, cs[..2]), cs[2..]);
  }

  lemma {:induction false} MisnamedStays(g: Gpu, cs: seq<Command>)
    ensures g.misnamed ==> Run(g, cs).misnamed
    decreases |cs|
  {
    if cs != [] { MisnamedStays(Apply(g, cs[0]), cs[1..]); }
  }

  /** A direct image goes to the shader and back to the external family. */
  lemma DirectBracket(g: Gpu, image: Resource)
    requires !g.misnamed && image in g.places && g.places[image] == Place(General, External)
    ensures var h := Run(g, DirectAcquire(image));
            && !h.misnamed && h.places == g.places[image := Place(ShaderRead, Ours)]
            && !Run(h, DirectRelease(image)).misnamed && Run(h, DirectRelease(image)).places == g.places
  {
    RunOne(g, DirectAcquire(image)[0]);
    RunOne(Run(g, DirectAcquire(image)), DirectRelease(image)[0]);
  }
}
