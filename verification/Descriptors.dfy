/**
 The two validators of DMA-BUF descriptors.

 The Elixir side checks terms, whose integers have no bound; the Rust side decodes a term into
 machine integers and checks what it decoded, in another order. `Usable` says what a descriptor
 has to be; both sides accept exactly that.
 */
module Descriptors {
  import opened Common
  import opened Machine

  const MAX_ENTRIES := 4

  // ---- terms and what they decode to -------------------------------------------------------

  datatype TModifier = TImplicit | TInteger(value: int) | TOther

  /** A field may hold any term; so may an element of a list. An improper list is no list here. */
  datatype TField = Integer(value: int) | NoInteger

  datatype TList<T> = List(items: seq<T>) | NoList

  datatype TObject = TObject(fd: TField, size: TField, modifier: TModifier) | NoObject

  datatype TPlane = TPlane(objectIndex: TField, offset: TField, pitch: TField) | NoPlane

  datatype TLayer = TLayer(fourcc: TField, planes: TList<TPlane>) | NoLayer

  datatype TDescriptor = TDescriptor(version: TField, objects: TList<TObject>, layers: TList<TLayer>) | NoDescriptor

  datatype Modifier = Implicit | Explicit(value: U64)

  datatype Object = Object(fd: I32, size: U64, modifier: Modifier)

  datatype Plane = Plane(objectIndex: U32, offset: U64, pitch: U32)

  datatype Layer = Layer(fourcc: U32, planes: seq<Plane>)

  datatype Descriptor = Descriptor(version: U32, objects: seq<Object>, layers: seq<Layer>)

  predicate IsU32(x: int) { 0 <= x < TWO_32 }

  predicate IsU64(x: int) { 0 <= x < TWO_64 }

  predicate IsI32(x: int) { -0x8000_0000 <= x < 0x8000_0000 }

  predicate ModifierDecodes(m: TModifier) { m.TImplicit? || (m.TInteger? && IsU64(m.value)) }

  predicate ObjectDecodes(o: TObject) {
    o.TObject? && o.fd.Integer? && IsI32(o.fd.value) && o.size.Integer? && IsU64(o.size.value) && ModifierDecodes(o.modifier)
  }

  predicate PlaneDecodes(p: TPlane) {
    && p.TPlane? && p.objectIndex.Integer? && IsU32(p.objectIndex.value)
    && p.offset.Integer? && IsU64(p.offset.value) && p.pitch.Integer? && IsU32(p.pitch.value)
  }

  predicate LayerDecodes(l: TLayer) {
    && l.TLayer? && l.fourcc.Integer? && IsU32(l.fourcc.value) && l.planes.List? && |l.planes.items| <= MAX_ENTRIES
    && forall p :: p in l.planes.items ==> PlaneDecodes(p)
  }

  /** Decoding fails on a term of the wrong kind, an integer out of range and a list of more than four entries. */
  predicate Decodes(t: TDescriptor) {
    && t.TDescriptor? && t.version.Integer? && IsU32(t.version.value) && t.objects.List? && t.layers.List?
    && |t.objects.items| <= MAX_ENTRIES && |t.layers.items| <= MAX_ENTRIES
    && (forall o :: o in t.objects.items ==> ObjectDecodes(o)) && (forall l :: l in t.layers.items ==> LayerDecodes(l))
  }

  function DecodeObject(o: TObject): Object
    requires ObjectDecodes(o)
  {
    Object(o.fd.value, o.size.value, if o.modifier.TImplicit? then Implicit else Explicit(o.modifier.value))
  }

  function DecodePlane(p: TPlane): Plane
    requires PlaneDecodes(p)
  {
    Plane(p.objectIndex.value, p.offset.value, p.pitch.value)
  }

  function DecodeLayer(l: TLayer): Layer
    requires LayerDecodes(l)
  {
    var planes := l.planes.items;
    Layer(l.fourcc.value, seq(|planes|, i requires 0 <= i < |planes| && PlaneDecodes(planes[i]) => DecodePlane(planes[i])))
  }

  function Decode(t: TDescriptor): Descriptor
    requires Decodes(t)
  {
    var objects, layers := t.objects.items, t.layers.items;
    Descriptor(t.version.value,
               seq(|objects|, i requires 0 <= i < |objects| && ObjectDecodes(objects[i]) => DecodeObject(objects[i])),
               seq(|layers|, i requires 0 <= i < |layers| && LayerDecodes(layers[i]) => DecodeLayer(layers[i])))
  }

  // ---- what a descriptor has to be ---------------------------------------------------------

  predicate GoodObject(o: Object) { o.fd >= 0 && o.size > 0 }

  predicate GoodPlane(objects: seq<Object>, p: Plane) {
    p.pitch > 0 && p.objectIndex < |objects| && p.offset < objects[p.objectIndex].size
  }

  predicate GoodLayer(objects: seq<Object>, l: Layer) {
    l.fourcc > 0 && 1 <= |l.planes| <= MAX_ENTRIES && forall p :: 0 <= p < |l.planes| ==> GoodPlane(objects, l.planes[p])
  }

  function TotalPlanes(layers: seq<Layer>): nat {
    if layers == [] then 0 else TotalPlanes(layers[..|layers| - 1]) + |layers[|layers| - 1].planes|
  }

  /** Some plane of some layer uses object `i`. */
  ghost predicate Referenced(layers: seq<Layer>, i: int) {
    exists l, p :: 0 <= l < |layers| && 0 <= p < |layers[l].planes| && layers[l].planes[p].objectIndex == i
  }

  ghost predicate Usable(d: Descriptor) {
    && d.version == 1 && 1 <= |d.objects| <= MAX_ENTRIES && 1 <= |d.layers| <= MAX_ENTRIES
    && (forall i :: 0 <= i < |d.objects| ==> GoodObject(d.objects[i]))
    && (forall l :: 0 <= l < |d.layers| ==> GoodLayer(d.objects, d.layers[l]))
    && TotalPlanes(d.layers) <= MAX_ENTRIES
    && (forall i :: 0 <= i < |d.objects| ==> Referenced(d.layers, i))
  }
}

/** `Descriptor::validate`: nested loops that return at the first defect. */
module RustDescriptors {
  import opened Common
  import opened Machine
  import opened Descriptors

  datatype ValidationError =
    | UnsupportedVersion
    | EmptyObjects
    | TooManyObjects
    | EmptyLayers
    | TooManyLayers
    | NegativeFd(index: nat)
    | ZeroObjectSize(index: nat)
    | InvalidFourcc(layer: nat)
    | EmptyPlanes(layer: nat)
    | TooManyPlanesInLayer(layer: nat)
    | ZeroPitch(layer: nat, plane: nat)
    | InvalidObjectIndex(layer: nat, plane: nat)
    | PlaneOffsetOutOfBounds(layer: nat, plane: nat)
    | TooManyPlanes
    | UnreferencedObject(index: nat)

  datatype Result = Ok | Err(error: ValidationError)

  predicate CountsOk(d: Descriptor) { d.version == 1 && 1 <= |d.objects| <= MAX_ENTRIES && 1 <= |d.layers| <= MAX_ENTRIES }

  ghost predicate ObjectsBefore(d: Descriptor, i: nat) { CountsOk(d) && forall j :: 0 <= j < i && j < |d.objects| ==> GoodObject(d.objects[j]) }

  /** The error names a defect the descriptor has, and everything checked before it is sound. */
  ghost predicate Explains(d: Descriptor, e: ValidationError) {
    match e
    case UnsupportedVersion => d.version != 1
    case EmptyObjects => d.version == 1 && d.objects == []
    case TooManyObjects => d.version == 1 && |d.objects| > MAX_ENTRIES
    case EmptyLayers => d.version == 1 && 1 <= |d.objects| <= MAX_ENTRIES && d.layers == []
    case TooManyLayers => d.version == 1 && 1 <= |d.objects| <= MAX_ENTRIES && |d.layers| > MAX_ENTRIES
    case NegativeFd(i) => i < |d.objects| && d.objects[i].fd < 0 && ObjectsBefore(d, i)
    case ZeroObjectSize(i) => i < |d.objects| && d.objects[i].fd >= 0 && d.objects[i].size == 0 && ObjectsBefore(d, i)
    case InvalidFourcc(l) => l < |d.layers| && d.layers[l].fourcc == 0 && LayersBefore(d, l)
    case EmptyPlanes(l) => l < |d.layers| && d.layers[l].fourcc > 0 && d.layers[l].planes == [] && LayersBefore(d, l)
    case TooManyPlanesInLayer(l) => l < |d.layers| && d.layers[l].fourcc > 0 && |d.layers[l].planes| > MAX_ENTRIES && LayersBefore(d, l)
    case ZeroPitch(l, p) => PlanesBefore(d, l, p) && d.layers[l].planes[p].pitch == 0
    case InvalidObjectIndex(l, p) =>
      PlanesBefore(d, l, p) && d.layers[l].planes[p].pitch > 0 && d.layers[l].planes[p].objectIndex >= |d.objects|
    case PlaneOffsetOutOfBounds(l, p) =>
      PlanesBefore(d, l, p) && d.layers[l].planes[p].pitch > 0 && d.layers[l].planes[p].objectIndex < |d.objects|
      && d.layers[l].planes[p].offset >= d.objects[d.layers[l].planes[p].objectIndex].size
    case TooManyPlanes => TotalPlanes(d.layers) > MAX_ENTRIES && LayersBefore(d, |d.layers|)
    case UnreferencedObject(i) =>
      && i < |d.objects| && !Referenced(d.layers, i) && (forall j :: 0 <= j < i ==> Referenced(d.layers, j))
      && TotalPlanes(d.layers) <= MAX_ENTRIES && LayersBefore(d, |d.layers|)
  }

  ghost predicate LayersBefore(d: Descriptor, l: nat) {
    ObjectsBefore(d, |d.objects|) && forall k :: 0 <= k < l && k < |d.layers| ==> GoodLayer(d.objects, d.layers[k])
  }

  /** Plane `p` of layer `l` exists, and every plane before it is sound. */
  ghost predicate PlanesBefore(d: Descriptor, l: nat, p: nat) {
    && LayersBefore(d, l) && l < |d.layers| && d.layers[l].fourcc > 0 && p < |d.layers[l].planes| <= MAX_ENTRIES
    && forall q :: 0 <= q < p ==> GoodPlane(d.objects, d.layers[l].planes[q])
  }

  predicate InLayer(e: ValidationError) {
    e.InvalidFourcc? || e.EmptyPlanes? || e.TooManyPlanesInLayer? || e.ZeroPitch? || e.InvalidObjectIndex? || e.PlaneOffsetOutOfBounds?
  }

  lemma BadLayer(d: Descriptor, e: ValidationError)
    requires Explains(d, e) && InLayer(e)
    ensures e.layer < |d.layers| && LayersBefore(d, e.layer) && !GoodLayer(d.objects, d.layers[e.layer])
  {
    hide Referenced, TotalPlanes, ObjectsBefore;
  }

  lemma LayerDefectIsUnique(d: Descriptor, a: ValidationError, b: ValidationError)
    requires Explains(d, a) && Explains(d, b) && InLayer(a) && InLayer(b)
    ensures a == b
  {
    BadLayer(d, a);
    BadLayer(d, b);
    assert a.layer == b.layer by { hide Explains; }
    hide Referenced, TotalPlanes, LayersBefore, GoodLayer;
  }

  /** At most one error explains a rejection: the first defect in the order of the checks. */
  lemma FirstDefectIsUnique(d: Descriptor, a: ValidationError, b: ValidationError)
    requires Explains(d, a) && Explains(d, b)
    ensures a == b
  {
    hide Referenced, TotalPlanes, PlanesBefore;
    if InLayer(a) && InLayer(b) {
      LayerDefectIsUnique(d, a, b);
    } else {
      if InLayer(a) { BadLayer(d, a); }
      if InLayer(b) { BadLayer(d, b); }
    }
  }

  method ValidateObjects(d: Descriptor) returns (r: Result)
    requires CountsOk(d)
    ensures r.Ok? <==> forall i :: 0 <= i < |d.objects| ==> GoodObject(d.objects[i])
    ensures r.Err? ==> Explains(d, r.error)
  {
    var i := 0;
    while i < |d.objects|
      invariant 0 <= i <= |d.objects| && forall j :: 0 <= j < i ==> GoodObject(d.objects[j])
    {
      if d.objects[i].fd < 0 {
        return Err(NegativeFd(i));
      }
      if d.objects[i].size == 0 {
        return Err(ZeroObjectSize(i));
      }
      i := i + 1;
    }
    return Ok;
  }

  method ValidatePlanes(d: Descriptor, l: nat) returns (r: Result)
    requires l < |d.layers| && LayersBefore(d, l) && d.layers[l].fourcc > 0 && |d.layers[l].planes| <= MAX_ENTRIES
    ensures r.Ok? <==> forall p :: 0 <= p < |d.layers[l].planes| ==> GoodPlane(d.objects, d.layers[l].planes[p])
    ensures r.Err? ==> Explains(d, r.error)
  {
    var planes := d.layers[l].planes;
    var p := 0;
    while p < |planes|
      invariant 0 <= p <= |planes| && forall q :: 0 <= q < p ==> GoodPlane(d.objects, planes[q])
    {
      var plane := planes[p];
      if plane.pitch == 0 {
        return Err(ZeroPitch(l, p));
      }
      if plane.objectIndex >= |d.objects| {
        return Err(InvalidObjectIndex(l, p));
      }
      if plane.offset >= d.objects[plane.objectIndex].size {
        return Err(PlaneOffsetOutOfBounds(l, p));
      }
      p := p + 1;
    }
    return Ok;
  }

  method ValidateLayers(d: Descriptor) returns (r: Result)
    requires ObjectsBefore(d, |d.objects|)
    ensures r.Ok? <==> forall l :: 0 <= l < |d.layers| ==> GoodLayer(d.objects, d.layers[l])
    ensures r.Err? ==> Explains(d, r.error)
  {
    var l := 0;
    while l < |d.layers|
      invariant 0 <= l <= |d.layers| && LayersBefore(d, l)
    {
      if d.layers[l].fourcc == 0 {
        return Err(InvalidFourcc(l));
      }
      if |d.layers[l].planes| == 0 {
        return Err(EmptyPlanes(l));
      }
      if |d.layers[l].planes| > MAX_ENTRIES {
        return Err(TooManyPlanesInLayer(l));
      }
      r := ValidatePlanes(d, l);
      if r.Err? {
        return;
      }
      l := l + 1;
    }
    return Ok;
  }

  /** The indices the planes use, gathered layer by layer. */
  method Gather(layers: seq<Layer>) returns (referenced: set<int>)
    ensures forall i :: i in referenced <==> Referenced(layers, i)
  {
    referenced := {};
    var l := 0;
    while l < |layers|
      invariant 0 <= l <= |layers|
      invariant forall i :: i in referenced <==> Referenced(layers[..l], i)
    {
      referenced := referenced + set p | 0 <= p < |layers[l].planes| :: layers[l].planes[p].objectIndex;
      MoreReferenced(layers, l);
      l := l + 1;
    }
    assert layers[..l] == layers;
  }

  ghost predicate Uses(layer: Layer, i: int) { exists p :: 0 <= p < |layer.planes| && layer.planes[p].objectIndex == i }

  lemma MoreReferenced(layers: seq<Layer>, l: nat)
    requires l < |layers|
    ensures forall i :: Referenced(layers[..l + 1], i) <==> (Referenced(layers[..l], i) || Uses(layers[l], i))
  {
    forall i | Referenced(layers[..l], i) ensures Referenced(layers[..l + 1], i) {
      var m, p :| 0 <= m < |layers[..l]| && 0 <= p < |layers[..l][m].planes| && layers[..l][m].planes[p].objectIndex == i;
      assert layers[..l + 1][m] == layers[..l][m];
    }
    forall i | Uses(layers[l], i) ensures Referenced(layers[..l + 1], i) {
      assert layers[..l + 1][l] == layers[l];
    }
    forall i | Referenced(layers[..l + 1], i) ensures Referenced(layers[..l], i) || Uses(layers[l], i) {
      var m, p :| 0 <= m < |layers[..l + 1]| && 0 <= p < |layers[..l + 1][m].planes| && layers[..l + 1][m].planes[p].objectIndex == i;
      if m < l { assert layers[..l][m] == layers[..l + 1][m]; }
    }
  }

  /** `Descriptor::validate` accepts exactly the usable descriptors; an error names the first defect it met. */
  method Validate(d: Descriptor) returns (r: Result)
    ensures r.Ok? <==> Usable(d)
    ensures r.Err? ==> Explains(d, r.error)
  {
    if d.version != 1 {
      return Err(UnsupportedVersion);
    }
    if |d.objects| == 0 {
      return Err(EmptyObjects);
    }
    if |d.objects| > MAX_ENTRIES {
      return Err(TooManyObjects);
    }
    if |d.layers| == 0 {
      return Err(EmptyLayers);
    }
    if |d.layers| > MAX_ENTRIES {
      return Err(TooManyLayers);
    }
    r := ValidateObjects(d);
    if r.Err? {
      return;
    }
    r := ValidateLayers(d);
    if r.Err? {
      return;
    }
    var total, l := 0, 0;
    while l < |d.layers|
      invariant 0 <= l <= |d.layers| && total == TotalPlanes(d.layers[..l])
    {
      assert d.layers[..l + 1][..l] == d.layers[..l];
      total := total + |d.layers[l].planes|;
      l := l + 1;
    }
    assert d.layers[..l] == d.layers;
    if total > MAX_ENTRIES {
      return Err(TooManyPlanes);
    }
    var referenced := Gather(d.layers);
    var i := 0;
    while i < |d.objects|
      invariant 0 <= i <= |d.objects| && forall j :: 0 <= j < i ==> Referenced(d.layers, j)
    {
      if i !in referenced {
        return Err(UnreferencedObject(i));
      }
      i := i + 1;
    }
    return Ok;
  }
}

/** `validate_descriptor`: `with` chains and folds that halt at the first error. */
module ElixirDescriptors {
  import opened Common
  import opened Machine
  import opened Descriptors

  predicate UnsignedBounded(x: int, max: int) { 0 <= x <= max }

  predicate PositiveBounded(x: int, max: int) { 0 < x <= max }

  predicate UnsignedField(x: TField, max: int) { x.Integer? && UnsignedBounded(x.value, max) }

  predicate PositiveField(x: TField, max: int) { x.Integer? && PositiveBounded(x.value, max) }

  predicate BoundedNonempty<T(==)>(l: TList<T>) { l.List? && l.items != [] && |l.items| <= MAX_ENTRIES }

  predicate ValidModifier(m: TModifier) { m.TImplicit? || (m.TInteger? && UnsignedBounded(m.value, TWO_64 - 1)) }

  predicate ValidObject(o: TObject) {
    o.TObject? && UnsignedField(o.fd, TWO_31 - 1) && PositiveField(o.size, TWO_64 - 1) && ValidModifier(o.modifier)
  }

  predicate ValidateObjects(objects: seq<TObject>) { objects == [] || (ValidObject(objects[0]) && ValidateObjects(objects[1..])) }

  /** The objects were validated before, so the one the plane names has a size to compare with. */
  predicate ValidatePlane(p: TPlane, objects: seq<TObject>) {
    && p.TPlane?
    && UnsignedField(p.objectIndex, TWO_32 - 1)
    && p.objectIndex.value < |objects|
    && UnsignedField(p.offset, TWO_64 - 1)
    && PositiveField(p.pitch, TWO_32 - 1)
    && var o := objects[p.objectIndex.value];
    && o.TObject? && o.size.Integer? && p.offset.value < o.size.value
  }

  predicate ValidatePlanes(planes: seq<TPlane>, objects: seq<TObject>) {
    planes == [] || (ValidatePlane(planes[0], objects) && ValidatePlanes(planes[1..], objects))
  }

  predicate ValidateLayers(layers: seq<TLayer>, objects: seq<TObject>) {
    layers == [] || (ValidLayer(layers[0], objects) && ValidateLayers(layers[1..], objects))
  }

  predicate ValidLayer(l: TLayer, objects: seq<TObject>) {
    l.TLayer? && PositiveField(l.fourcc, TWO_32 - 1) && BoundedNonempty(l.planes) && ValidatePlanes(l.planes.items, objects)
  }

  /** The planes of a layer that was validated before. */
  function PlanesOf(l: TLayer): seq<TPlane> { if l.TLayer? && l.planes.List? then l.planes.items else [] }

  function IndexOf(p: TPlane): TField { if p.TPlane? then p.objectIndex else NoInteger }

  /** `Enum.reduce(layers, 0, ...)`, from the left. */
  function CountFrom(layers: seq<TLayer>, total: nat): nat {
    if layers == [] then total else CountFrom(layers[1..], total + |PlanesOf(layers[0])|)
  }

  function IndicesOf(planes: seq<TPlane>): seq<TField> { seq(|planes|, i requires 0 <= i < |planes| => IndexOf(planes[i])) }

  /** The flattened list of object indices. */
  function Indices(layers: seq<TLayer>): seq<TField> {
    if layers == [] then [] else IndicesOf(PlanesOf(layers[0])) + Indices(layers[1..])
  }

  predicate ValidateReferenced(layers: seq<TLayer>, objects: seq<TObject>) {
    forall i :: 0 <= i < |objects| ==> Integer(i) in Indices(layers)
  }

  predicate ValidateDescriptor(t: TDescriptor) {
    && t.TDescriptor?
    && t.version == Integer(1)
    && BoundedNonempty(t.objects)
    && BoundedNonempty(t.layers)
    && ValidateObjects(t.objects.items)
    && ValidateLayers(t.layers.items, t.objects.items)
    && CountFrom(t.layers.items, 0) <= MAX_ENTRIES
    && ValidateReferenced(t.layers.items, t.objects.items)
  }

  // ---- the folds, entry by entry -----------------------------------------------------------

  lemma {:induction false} ObjectsFold(objects: seq<TObject>)
    ensures ValidateObjects(objects) <==> forall o :: o in objects ==> ValidObject(o)
  {
    if objects != [] {
      ObjectsFold(objects[1..]);
      assert objects == [objects[0]] + objects[1..];
    }
  }

  lemma {:induction false} PlanesFold(planes: seq<TPlane>, objects: seq<TObject>)
    ensures ValidatePlanes(planes, objects) <==> forall p :: p in planes ==> ValidatePlane(p, objects)
  {
    if planes != [] {
      PlanesFold(planes[1..], objects);
      assert planes == [planes[0]] + planes[1..];
    }
  }

  lemma {:induction false} LayersFold(layers: seq<TLayer>, objects: seq<TObject>)
    ensures ValidateLayers(layers, objects) <==> forall l :: l in layers ==> ValidLayer(l, objects)
  {
    hide ValidLayer;
    if layers != [] {
      LayersFold(layers[1..], objects);
      assert layers == [layers[0]] + layers[1..];
    }
  }

  ghost predicate Names(layers: seq<TLayer>, i: int) {
    exists l, p :: 0 <= l < |layers| && 0 <= p < |PlanesOf(layers[l])| && IndexOf(PlanesOf(layers[l])[p]) == Integer(i)
  }

  lemma {:induction false} IndicesFold(layers: seq<TLayer>, i: int)
    ensures Integer(i) in Indices(layers) <==> Names(layers, i)
  {
    hide PlanesOf, IndexOf;
    if layers != [] {
      var first := IndicesOf(PlanesOf(layers[0]));
      IndicesFold(layers[1..], i);
      if Integer(i) in first {
        var p :| 0 <= p < |first| && first[p] == Integer(i);
        assert IndexOf(PlanesOf(layers[0])[p]) == Integer(i);
      }
      if Names(layers[1..], i) {
        var l, p :| 0 <= l < |layers[1..]| && 0 <= p < |PlanesOf(layers[1..][l])| && IndexOf(PlanesOf(layers[1..][l])[p]) == Integer(i);
        assert layers[l + 1] == layers[1..][l];
      }
      if Names(layers, i) {
        var l, p :| 0 <= l < |layers| && 0 <= p < |PlanesOf(layers[l])| && IndexOf(PlanesOf(layers[l])[p]) == Integer(i);
        if l == 0 { assert first[p] == Integer(i); } else { assert layers[1..][l - 1] == layers[l]; }
      }
    }
  }

  lemma {:induction false} CountFold(layers: seq<TLayer>, total: nat)
    ensures CountFrom(layers, total) == total + CountBack(layers)
    decreases |layers|
  {
    if layers != [] {
      CountFold(layers[1..], total + |PlanesOf(layers[0])|);
      CountFront(layers);
    }
  }

  function CountBack(layers: seq<TLayer>): nat {
    if layers == [] then 0 else CountBack(layers[..|layers| - 1]) + |PlanesOf(layers[|layers| - 1])|
  }

  lemma {:induction false} CountFront(layers: seq<TLayer>)
    requires layers != []
    ensures CountBack(layers) == |PlanesOf(layers[0])| + CountBack(layers[1..])
    decreases |layers|
  {
    if |layers| == 1 {
      assert layers[..0] == [] && layers[1..] == [];
    } else {
      var n := |layers| - 1;
      CountFront(layers[..n]);
      assert layers[..n][1..] == layers[1..][..n - 1] && layers[1..][n - 1] == layers[n];
    }
  }
}

/** The two validators agree. */
module DescriptorAgreement {
  import opened Common
  import opened Machine
  import opened Descriptors
  import E = ElixirDescriptors

  lemma AcceptedDecodes(t: TDescriptor)
    requires E.ValidateDescriptor(t)
    ensures Decodes(t)
  {
    E.ObjectsFold(t.objects.items);
    E.LayersFold(t.layers.items, t.objects.items);
    forall l | l in t.layers.items ensures LayerDecodes(l) {
      assert E.ValidLayer(l, t.objects.items);
      E.PlanesFold(l.planes.items, t.objects.items);
    }
  }

  lemma PlaneAgrees(t: TDescriptor, p: TPlane)
    requires Decodes(t) && PlaneDecodes(p)
    ensures E.ValidatePlane(p, t.objects.items) <==> GoodPlane(Decode(t).objects, DecodePlane(p))
  {
    if p.objectIndex.value < |t.objects.items| { assert t.objects.items[p.objectIndex.value] in t.objects.items; }
  }

  lemma LayerAgrees(t: TDescriptor, l: TLayer)
    requires Decodes(t) && LayerDecodes(l)
    ensures E.ValidLayer(l, t.objects.items) <==> GoodLayer(Decode(t).objects, DecodeLayer(l))
  {
    var objects, planes := t.objects.items, l.planes.items;
    E.PlanesFold(planes, objects);
    var m := DecodeLayer(l);
    forall p | 0 <= p < |planes| ensures E.ValidatePlane(planes[p], objects) <==> GoodPlane(Decode(t).objects, m.planes[p]) {
      assert planes[p] in planes;
      PlaneAgrees(t, planes[p]);
    }
    hide Decode, GoodPlane, E.ValidatePlane;
    if GoodLayer(Decode(t).objects, m) {
      forall p | p in planes ensures E.ValidatePlane(p, objects) {
        var i :| 0 <= i < |planes| && planes[i] == p;
        assert GoodPlane(Decode(t).objects, m.planes[i]);
      }
    }
  }

  lemma ObjectsAgree(t: TDescriptor)
    requires Decodes(t)
    ensures E.ValidateObjects(t.objects.items) <==> forall i :: 0 <= i < |t.objects.items| ==> GoodObject(Decode(t).objects[i])
  {
    var objects := t.objects.items;
    E.ObjectsFold(objects);
    forall i | 0 <= i < |objects| ensures GoodObject(Decode(t).objects[i]) <==> E.ValidObject(objects[i]) {
      assert objects[i] in objects;
    }
    if forall i :: 0 <= i < |objects| ==> GoodObject(Decode(t).objects[i]) {
      forall o | o in objects ensures E.ValidObject(o) {
        var i :| 0 <= i < |objects| && objects[i] == o;
        assert GoodObject(Decode(t).objects[i]);
      }
    }
  }

  lemma LayersAgree(t: TDescriptor)
    requires Decodes(t)
    ensures E.ValidateLayers(t.layers.items, t.objects.items)
            <==> forall l :: 0 <= l < |t.layers.items| ==> GoodLayer(Decode(t).objects, Decode(t).layers[l])
  {
    var objects, layers := t.objects.items, t.layers.items;
    E.LayersFold(layers, objects);
    var d := Decode(t);
    forall l | 0 <= l < |layers| ensures E.ValidLayer(layers[l], objects) <==> GoodLayer(d.objects, d.layers[l]) {
      assert layers[l] in layers;
      LayerAgrees(t, layers[l]);
    }
    assert |d.layers| == |layers|;
    hide Decode, Decodes, GoodLayer, E.ValidLayer;
    if forall l :: 0 <= l < |layers| ==> GoodLayer(d.objects, d.layers[l]) {
      forall m | m in layers ensures E.ValidLayer(m, objects) {
        var l :| 0 <= l < |layers| && layers[l] == m;
        assert GoodLayer(d.objects, d.layers[l]);
      }
    }
  }

  lemma {:induction false} CountsAgree(tl: seq<TLayer>, layers: seq<Layer>)
    requires |tl| == |layers| && forall l :: 0 <= l < |tl| ==> |E.PlanesOf(tl[l])| == |layers[l].planes|
    ensures E.CountBack(tl) == TotalPlanes(layers)
    decreases |tl|
  {
    if tl != [] { CountsAgree(tl[..|tl| - 1], layers[..|layers| - 1]); }
  }

  /** Layer by layer and plane by plane the term and what it decodes to name the same objects. */
  lemma SamePlanes(t: TDescriptor, l: nat)
    requires Decodes(t) && l < |t.layers.items|
    ensures |Decode(t).layers| == |t.layers.items|
    ensures var planes := E.PlanesOf(t.layers.items[l]);
            |planes| == |Decode(t).layers[l].planes|
            && forall p :: 0 <= p < |planes| ==> E.IndexOf(planes[p]) == Integer(Decode(t).layers[l].planes[p].objectIndex)
  {
    assert t.layers.items[l] in t.layers.items;
    var planes := t.layers.items[l].planes.items;
    forall p | 0 <= p < |planes| ensures E.IndexOf(planes[p]) == Integer(Decode(t).layers[l].planes[p].objectIndex) {
      assert planes[p] in planes;
    }
  }

  lemma ReferencesAgree(t: TDescriptor)
    requires Decodes(t)
    ensures E.ValidateReferenced(t.layers.items, t.objects.items) <==> forall i :: 0 <= i < |t.objects.items| ==> Referenced(Decode(t).layers, i)
  {
    var d, layers := Decode(t), t.layers.items;
    assert |d.layers| == |layers|;
    hide Decode, Decodes, E.PlanesOf, E.IndexOf;
    forall i ensures Integer(i) in E.Indices(layers) <==> Referenced(d.layers, i) {
      E.IndicesFold(layers, i);
      if E.Names(layers, i) {
        var l, p :| 0 <= l < |layers| && 0 <= p < |E.PlanesOf(layers[l])| && E.IndexOf(E.PlanesOf(layers[l])[p]) == Integer(i);
        SamePlanes(t, l);
        assert d.layers[l].planes[p].objectIndex == i;
      }
      if Referenced(d.layers, i) {
        var l, p :| 0 <= l < |d.layers| && 0 <= p < |d.layers[l].planes| && d.layers[l].planes[p].objectIndex == i;
        SamePlanes(t, l);
        assert E.IndexOf(E.PlanesOf(layers[l])[p]) == Integer(i);
      }
    }
  }

  /** For every term: the Elixir validator accepts it exactly when it decodes and the decoded descriptor is
      usable, which is exactly when the Rust validator accepts what it decoded. */
  lemma SameDescriptors(t: TDescriptor)
    ensures E.ValidateDescriptor(t) <==> (Decodes(t) && Usable(Decode(t)))
  {
    if E.ValidateDescriptor(t) { AcceptedDecodes(t); }
    if Decodes(t) {
      var d, objects, layers := Decode(t), t.objects.items, t.layers.items;
      ObjectsAgree(t);
      LayersAgree(t);
      ReferencesAgree(t);
      E.CountFold(layers, 0);
      forall l | 0 <= l < |layers| ensures |E.PlanesOf(layers[l])| == |d.layers[l].planes| { SamePlanes(t, l); }
      CountsAgree(layers, d.layers);
      assert |d.layers| == |layers| && |d.objects| == |objects| && d.version == t.version.value;
      hide Decodes, Decode, GoodObject, GoodLayer, Referenced, E.ValidateObjects, E.ValidateLayers, E.ValidateReferenced, E.CountFrom, TotalPlanes;
    }
  }
}
