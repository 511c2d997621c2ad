/**
 NV12 and packed plane arithmetic: the layout checks, the spans bound to Vulkan objects, and the
 regions and addresses the copies and the shader read. Machine integers are bounded integers;
 where the program uses plain multiplication the product is shown to fit.
 */
module Nv12 {
  import opened Common
  import opened Machine

  datatype Plane = Plane(offset: U64, pitch: U32)

  datatype Layout = Layout(objectSize: U64, luma: Plane, chroma: Plane)

  datatype Error = OddDimensions | PitchTooSmall | OddChromaPitch | ExtentOverflow | OutsideObject | Overlap
                 | ZeroSize | Unaligned | SpanTooLarge | SpanOutsideObject | TooManyTexels

  datatype Result<+T> = Ok(value: T) | Err(error: Error)

  function Rows(rows: U32): U32 { if rows == 0 then 0 else rows - 1 }

  /** The plain multiplication of pitch and row number cannot overflow. */
  function LastRow(p: Plane, rows: U32): U64 {
    ProductFits(p.pitch, Rows(rows));
    p.pitch * Rows(rows)
  }

  function PlaneEnd(width: U32, p: Plane, rows: U32): Option<U64> {
    match CheckedAdd(p.offset, LastRow(p, rows))
    case None => None
    case Some(last) => CheckedAdd(last, width)
  }

  /** `nv12_plane_ends` */
  function PlaneEnds(width: U32, height: U32, l: Layout): Result<(U64, U64)> {
    var luma, chroma := PlaneEnd(width, l.luma, height), PlaneEnd(width, l.chroma, height / 2);
    if luma.None? || chroma.None? then Err(ExtentOverflow) else Ok((luma.value, chroma.value))
  }

  /** `validate_nv12_shared_layout` */
  function ValidateShared(width: U32, height: U32, l: Layout): Result<()> {
    if width == 0 || height == 0 || width % 2 != 0 || height % 2 != 0 then Err(OddDimensions)
    else if l.luma.pitch < width || l.chroma.pitch < width then Err(PitchTooSmall)
    else if l.chroma.pitch % 2 != 0 then Err(OddChromaPitch)
    else
      match PlaneEnds(width, height, l)
      case Err(e) => Err(e)
      case Ok((lumaEnd, chromaEnd)) =>
        if lumaEnd > l.objectSize || chromaEnd > l.objectSize then Err(OutsideObject)
        else if !(lumaEnd <= l.chroma.offset || chromaEnd <= l.luma.offset) then Err(Overlap)
        else Ok(())
  }

  /** `validate_transfer_layout` */
  function ValidateTransfer(width: U32, height: U32, l: Layout): Result<()> {
    match ValidateShared(width, height, l)
    case Err(e) => Err(e)
    case Ok(_) =>
      if l.objectSize == 0 then Err(ZeroSize)
      else if l.luma.offset % 4 != 0 || l.chroma.offset % 4 != 0 then Err(Unaligned)
      else if l.chroma.pitch % 2 != 0 then Err(OddChromaPitch)
      else Ok(())
  }

  /** `nv12_transfer_source_span` */
  function TransferSpan(width: U32, height: U32, l: Layout): Result<U64> {
    match ValidateTransfer(width, height, l)
    case Err(e) => Err(e)
    case Ok(_) =>
      match PlaneEnds(width, height, l)
      case Err(e) => Err(e)
      case Ok((lumaEnd, chromaEnd)) => Ok(Max(lumaEnd, chromaEnd))
  }

  /** `nv12_compute_source_span`; `& !3` clears the remainder by four. */
  function ComputeSpan(width: U32, height: U32, l: Layout): Result<U64> {
    match ValidateShared(width, height, l)
    case Err(e) => Err(e)
    case Ok(_) =>
      match PlaneEnds(width, height, l)
      case Err(e) => Err(e)
      case Ok((lumaEnd, chromaEnd)) =>
        match CheckedAdd(Max(lumaEnd, chromaEnd), 3)
        case None => Err(ExtentOverflow)
        case Some(padded) => Ok(padded - padded % 4)
  }

  /** `validate_staged_layout`, with the device's `maxTexelBufferElements`. */
  function ValidateStaged(width: U32, height: U32, l: Layout, maxTexels: U32): Result<()> {
    match ComputeSpan(width, height, l)
    case Err(e) => Err(e)
    case Ok(span) =>
      if span > TWO_32 then Err(SpanTooLarge)
      else if span > l.objectSize then Err(SpanOutsideObject)
      else if span / 4 > maxTexels then Err(TooManyTexels)
      else Ok(())
  }

  // ---- addresses ---------------------------------------------------------------------------

  datatype Which = Luma | Chroma

  function PlaneOf(l: Layout, w: Which): Plane { if w.Luma? then l.luma else l.chroma }

  function RowsOf(height: U32, w: Which): U32 { if w.Luma? then height else height / 2 }

  /** Byte `b` of row `r` of a plane. */
  function Address(p: Plane, r: int, b: int): int { p.offset + p.pitch * r + b }

  predicate InPlane(width: U32, height: U32, w: Which, r: int, b: int) { 0 <= r < RowsOf(height, w) && 0 <= b < width }

  lemma RowsAscend(pitch: nat, r: nat, s: nat)
    requires r <= s
    ensures pitch * r <= pitch * s
    ensures r < s ==> pitch * r + pitch <= pitch * s
  {
    assert pitch * s == pitch * r + pitch * (s - r);
    if r < s {
      assert pitch * (s - r) == pitch + pitch * (s - r - 1);
    }
  }

  /** The end of a plane is one past its last byte, and no byte lies beyond. */
  lemma EndIsLast(width: U32, rows: U32, p: Plane, r: nat, b: nat)
    requires width > 0 && rows > 0 && r < rows && b < width && PlaneEnd(width, p, rows).Some?
    ensures PlaneEnd(width, p, rows).value == Address(p, rows - 1, width - 1) + 1
    ensures p.offset <= Address(p, r, b) < PlaneEnd(width, p, rows).value
  {
    RowsAscend(p.pitch, r, rows - 1);
    RowsAscend(p.pitch, 0, r);
  }

  /** Rows of one plane do not run into each other. */
  lemma SamePlaneDistinct(p: Plane, width: nat, r: nat, b: nat, s: nat, c: nat)
    requires width <= p.pitch && b < width && c < width && Address(p, r, b) == Address(p, s, c)
    ensures r == s && b == c
  {
    if r < s { RowsAscend(p.pitch, r, s); } else if s < r { RowsAscend(p.pitch, s, r); }
  }

  /** What the check accepts, said about bytes: even dimensions, rows that fit their pitch, every byte of
      both planes inside the object, and one plane wholly before the other. */
  ghost predicate Sound(width: U32, height: U32, l: Layout) {
    && width > 0 && height > 0 && width % 2 == 0 && height % 2 == 0
    && width <= l.luma.pitch && width <= l.chroma.pitch && l.chroma.pitch % 2 == 0
    && (forall w, r, b :: InPlane(width, height, w, r, b) ==> Address(PlaneOf(l, w), r, b) < l.objectSize)
    && (|| (forall r, b :: InPlane(width, height, Luma, r, b) ==> Address(l.luma, r, b) < l.chroma.offset)
        || (forall r, b :: InPlane(width, height, Chroma, r, b) ==> Address(l.chroma, r, b) < l.luma.offset))
  }

  /** The check accepts exactly the sound layouts. */
  lemma SharedIffSound(width: U32, height: U32, l: Layout)
    ensures ValidateShared(width, height, l).Ok? <==> Sound(width, height, l)
  {
    if ValidateShared(width, height, l).Ok? {
      AcceptedIsSound(width, height, l);
    }
    if Sound(width, height, l) {
      SoundIsAccepted(width, height, l);
    }
  }

  lemma AcceptedEnds(width: U32, height: U32, l: Layout, w: Which)
    requires ValidateShared(width, height, l).Ok?
    ensures width > 0 && RowsOf(height, w) > 0
    ensures var e := PlaneEnd(width, PlaneOf(l, w), RowsOf(height, w)); e.Some? && e.value <= l.objectSize
  {
  }

  lemma AcceptedIsSound(width: U32, height: U32, l: Layout)
    requires ValidateShared(width, height, l).Ok?
    ensures Sound(width, height, l)
  {
    forall w, r, b | InPlane(width, height, w, r, b)
      ensures Address(PlaneOf(l, w), r, b) < PlaneEnd(width, PlaneOf(l, w), RowsOf(height, w)).value <= l.objectSize
    {
      AcceptedEnds(width, height, l, w);
      EndIsLast(width, RowsOf(height, w), PlaneOf(l, w), r, b);
    }
    var lumaEnd, chromaEnd := PlaneEnd(width, l.luma, height).value, PlaneEnd(width, l.chroma, height / 2).value;
    assert lumaEnd <= l.chroma.offset || chromaEnd <= l.luma.offset;
    if lumaEnd <= l.chroma.offset {
      forall r, b | InPlane(width, height, Luma, r, b) ensures Address(l.luma, r, b) < l.chroma.offset {
        assert Address(PlaneOf(l, Luma), r, b) < lumaEnd;
      }
    } else {
      forall r, b | InPlane(width, height, Chroma, r, b) ensures Address(l.chroma, r, b) < l.luma.offset {
        assert Address(PlaneOf(l, Chroma), r, b) < chromaEnd;
      }
    }
  }

  /** A plane whose last byte is in the object has an end that fits 64 bits. */
  lemma EndFits(width: U32, rows: U32, p: Plane, size: U64)
    requires width > 0 && rows > 0 && Address(p, rows - 1, width - 1) < size
    ensures PlaneEnd(width, p, rows) == Some(Address(p, rows - 1, width - 1) + 1)
  {
    RowsAscend(p.pitch, 0, rows - 1);
  }

  lemma SoundIsAccepted(width: U32, height: U32, l: Layout)
    requires Sound(width, height, l)
    ensures ValidateShared(width, height, l).Ok?
  {
    assert InPlane(width, height, Luma, height - 1, width - 1) && InPlane(width, height, Chroma, height / 2 - 1, width - 1);
    assert Address(PlaneOf(l, Luma), height - 1, width - 1) < l.objectSize;
    assert Address(PlaneOf(l, Chroma), height / 2 - 1, width - 1) < l.objectSize;
    EndFits(width, height, l.luma, l.objectSize);
    EndFits(width, height / 2, l.chroma, l.objectSize);
  }

  /** Every accepted layout has pairwise distinct byte addresses, all inside the object. */
  lemma AddressesDistinct(width: U32, height: U32, l: Layout, w: Which, r: int, b: int, v: Which, s: int, c: int)
    requires ValidateShared(width, height, l).Ok? && InPlane(width, height, w, r, b) && InPlane(width, height, v, s, c)
    ensures Address(PlaneOf(l, w), r, b) < l.objectSize
    ensures Address(PlaneOf(l, w), r, b) == Address(PlaneOf(l, v), s, c) ==> w == v && r == s && b == c
  {
    AcceptedIsSound(width, height, l);
    if w == v {
      if Address(PlaneOf(l, w), r, b) == Address(PlaneOf(l, v), s, c) { SamePlaneDistinct(PlaneOf(l, w), width, r, b, s, c); }
    } else if w.Luma? {
      PlanesApart(width, height, l, r, b, s, c);
    } else {
      PlanesApart(width, height, l, s, c, r, b);
    }
  }

  lemma PlanesApart(width: U32, height: U32, l: Layout, r: int, b: int, s: int, c: int)
    requires Sound(width, height, l) && InPlane(width, height, Luma, r, b) && InPlane(width, height, Chroma, s, c)
    ensures Address(l.luma, r, b) != Address(l.chroma, s, c)
  {
    RowsAscend(l.luma.pitch, 0, r);
    RowsAscend(l.chroma.pitch, 0, s);
    assert l.luma.offset <= Address(l.luma, r, b) && l.chroma.offset <= Address(l.chroma, s, c);
    hide Address;
  }

  // ---- transfer regions --------------------------------------------------------------------

  /** A buffer-to-image copy: row length and extent count texels. */
  datatype Region = Region(offset: U64, rowLength: U32, width: U32, height: U32)

  /** `nv12_multiplanar_transfer_regions` and `nv12_separate_transfer_regions` */
  function TransferRegion(width: U32, height: U32, l: Layout, w: Which): Region {
    if w.Luma? then Region(l.luma.offset, l.luma.pitch, width, height)
    else Region(l.chroma.offset, l.chroma.pitch / 2, width / 2, height / 2)
  }

  function TexelSize(w: Which): nat { if w.Luma? then 1 else 2 }

  /** Byte `k` of texel (`x`, `y`), by Vulkan's buffer and image addressing. */
  function TexelAddress(g: Region, size: nat, x: int, y: int, k: int): int { g.offset + (y * g.rowLength + x) * size + k }

  predicate InRegion(g: Region, size: nat, x: int, y: int, k: int) { 0 <= x < g.width && 0 <= y < g.height && 0 <= k < size }

  lemma HalfPitch(pitch: nat, y: int, x: int)
    requires pitch % 2 == 0
    ensures (y * (pitch / 2) + x) * 2 == pitch * y + 2 * x
  {
    assert pitch == 2 * (pitch / 2);
    assert y * (pitch / 2) * 2 == y * (2 * (pitch / 2));
  }

  /** Byte `k` of texel `x` in row `y` is byte `size * x + k` of that row of the plane. */
  lemma TexelIsByte(width: U32, height: U32, l: Layout, w: Which, x: int, y: int, k: int)
    requires ValidateTransfer(width, height, l).Ok?
    ensures TexelAddress(TransferRegion(width, height, l, w), TexelSize(w), x, y, k) == Address(PlaneOf(l, w), y, TexelSize(w) * x + k)
  {
    if w.Chroma? { HalfPitch(l.chroma.pitch, y, x); } else { assert y * l.luma.pitch == l.luma.pitch * y; }
  }

  lemma RegionFits(width: U32, height: U32, l: Layout, w: Which)
    requires ValidateTransfer(width, height, l).Ok?
    ensures var g, size := TransferRegion(width, height, l, w), TexelSize(w);
            && g.offset % 4 == 0 && g.offset % size == 0 && g.rowLength >= g.width
            && g.height == RowsOf(height, w) && g.width * size == width
  {
    TransferShape(width, height, l);
    hide ValidateTransfer;
    if w.Chroma? { Halves(width, l.chroma.pitch, l.chroma.offset); }
  }

  lemma Halves(width: nat, pitch: nat, offset: nat)
    requires width % 2 == 0 && pitch % 2 == 0 && offset % 4 == 0 && width <= pitch
    ensures width / 2 * 2 == width && width / 2 <= pitch / 2 && offset % 2 == 0
  {
  }

  lemma TransferShape(width: U32, height: U32, l: Layout)
    requires ValidateTransfer(width, height, l).Ok?
    ensures width % 2 == 0 && width <= l.luma.pitch && width <= l.chroma.pitch && l.chroma.pitch % 2 == 0
    ensures l.luma.offset % 4 == 0 && l.chroma.offset % 4 == 0
  {
    hide PlaneEnds;
  }

  /** The region reads exactly the plane: each of its bytes is a byte of the plane, and each byte of the
      plane is read by one texel. Offsets and row lengths meet the copy's alignment rules. */
  lemma RegionReadsPlane(width: U32, height: U32, l: Layout, w: Which)
    requires ValidateTransfer(width, height, l).Ok?
    ensures var g, size := TransferRegion(width, height, l, w), TexelSize(w);
            && g.offset % 4 == 0 && g.offset % size == 0 && g.rowLength >= g.width
            && (forall x, y, k :: InRegion(g, size, x, y, k) ==> InPlane(width, height, w, y, size * x + k))
            && (forall r, b :: InPlane(width, height, w, r, b) ==>
                  InRegion(g, size, b / size, r, b % size)
                  && TexelAddress(g, size, b / size, r, b % size) == Address(PlaneOf(l, w), r, b))
  {
    var g, size := TransferRegion(width, height, l, w), TexelSize(w);
    RegionFits(width, height, l, w);
    hide ValidateTransfer, TexelAddress, Address;
    forall r, b | InPlane(width, height, w, r, b)
      ensures InRegion(g, size, b / size, r, b % size) && TexelAddress(g, size, b / size, r, b % size) == Address(PlaneOf(l, w), r, b)
    {
      TexelIsByte(width, height, l, w, b / size, r, b % size);
    }
  }

  /** The span covers every byte the copies read, fits the object, and its last byte is one of them. */
  lemma TransferSpanExact(width: U32, height: U32, l: Layout, w: Which, r: int, b: int)
    requires TransferSpan(width, height, l).Ok?
    ensures InPlane(width, height, w, r, b) ==> Address(PlaneOf(l, w), r, b) < TransferSpan(width, height, l).value <= l.objectSize
    ensures exists v, s, c :: InPlane(width, height, v, s, c) && Address(PlaneOf(l, v), s, c) == TransferSpan(width, height, l).value - 1
  {
    var span := TransferSpan(width, height, l).value;
    AcceptedEnds(width, height, l, Luma);
    AcceptedEnds(width, height, l, Chroma);
    EndIsLast(width, height, l.luma, height - 1, width - 1);
    EndIsLast(width, height / 2, l.chroma, height / 2 - 1, width - 1);
    var v := if span == PlaneEnd(width, l.luma, height).value then Luma else Chroma;
    assert InPlane(width, height, v, RowsOf(height, v) - 1, width - 1);
    assert Address(PlaneOf(l, v), RowsOf(height, v) - 1, width - 1) == span - 1;
    if InPlane(width, height, w, r, b) {
      EndIsLast(width, RowsOf(height, w), PlaneOf(l, w), r, b);
    }
  }

  // ---- compute addressing ------------------------------------------------------------------

  ghost predicate Covers(width: U32, height: U32, l: Layout, n: nat) {
    forall w, r, b :: InPlane(width, height, w, r, b) ==> Address(PlaneOf(l, w), r, b) < n
  }

  /** The rounded span is the least multiple of four that covers both planes. */
  lemma ComputeSpanLeast(width: U32, height: U32, l: Layout, n: nat)
    requires ComputeSpan(width, height, l).Ok?
    ensures var span := ComputeSpan(width, height, l).value;
            span % 4 == 0 && Covers(width, height, l, span) && (n % 4 == 0 && Covers(width, height, l, n) ==> span <= n)
  {
    ComputeSpanEnds(width, height, l);
    ComputeSpanCovers(width, height, l);
    LastBytes(width, height, l);
    hide ComputeSpan, ValidateShared, PlaneEnd, Address, InPlane;
    if Covers(width, height, l, n) {
      assert Address(PlaneOf(l, Luma), height - 1, width - 1) < n && Address(PlaneOf(l, Chroma), height / 2 - 1, width - 1) < n;
      hide Covers;
      RoundedLeast(Max(PlaneEnd(width, l.luma, height).value, PlaneEnd(width, l.chroma, height / 2).value), ComputeSpan(width, height, l).value, n);
    }
  }

  lemma RoundedLeast(end: int, span: int, n: int)
    requires span % 4 == 0 && end <= span < end + 4 && end <= n
    ensures n % 4 == 0 ==> span <= n
  {
  }

  lemma ComputeSpanCovers(width: U32, height: U32, l: Layout)
    requires ComputeSpan(width, height, l).Ok?
    ensures Covers(width, height, l, ComputeSpan(width, height, l).value)
  {
    var span := ComputeSpan(width, height, l).value;
    ComputeSpanEnds(width, height, l);
    hide ComputeSpan, ValidateShared, PlaneEnd, Address;
    forall w, r, b | InPlane(width, height, w, r, b) ensures Address(PlaneOf(l, w), r, b) < span {
      EndIsLast(width, RowsOf(height, w), PlaneOf(l, w), r, b);
    }
  }

  /** The span is the later end, rounded up to four. */
  lemma ComputeSpanEnds(width: U32, height: U32, l: Layout)
    requires ComputeSpan(width, height, l).Ok?
    ensures ValidateShared(width, height, l).Ok? && width > 0 && height > 1
    ensures PlaneEnd(width, l.luma, height).Some? && PlaneEnd(width, l.chroma, height / 2).Some?
    ensures var span, end := ComputeSpan(width, height, l).value, Max(PlaneEnd(width, l.luma, height).value, PlaneEnd(width, l.chroma, height / 2).value);
            span % 4 == 0 && end <= span < end + 4
  {
    ComputeSpanIs(width, height, l);
    SharedEnds(width, height, l);
    hide *;
    RoundUp(Max(PlaneEnd(width, l.luma, height).value, PlaneEnd(width, l.chroma, height / 2).value));
  }

  lemma ComputeSpanIs(width: U32, height: U32, l: Layout)
    requires ComputeSpan(width, height, l).Ok?
    ensures ValidateShared(width, height, l).Ok? && PlaneEnds(width, height, l).Ok?
    ensures var ends := PlaneEnds(width, height, l).value;
            ComputeSpan(width, height, l).value == Max(ends.0, ends.1) + 3 - (Max(ends.0, ends.1) + 3) % 4
  {
    hide ValidateShared, PlaneEnds;
  }

  lemma RoundUp(end: nat)
    ensures (end + 3 - (end + 3) % 4) % 4 == 0 && end <= end + 3 - (end + 3) % 4 < end + 4
  {
  }

  lemma SharedEnds(width: U32, height: U32, l: Layout)
    requires ValidateShared(width, height, l).Ok?
    ensures width > 0 && height > 1 && PlaneEnd(width, l.luma, height).Some? && PlaneEnd(width, l.chroma, height / 2).Some?
    ensures PlaneEnds(width, height, l) == Ok((PlaneEnd(width, l.luma, height).value, PlaneEnd(width, l.chroma, height / 2).value))
  {
    hide PlaneEnd;
  }

  lemma LastBytes(width: U32, height: U32, l: Layout)
    requires ValidateShared(width, height, l).Ok?
    ensures width > 0 && height > 1 && PlaneEnd(width, l.luma, height).Some? && PlaneEnd(width, l.chroma, height / 2).Some?
    ensures InPlane(width, height, Luma, height - 1, width - 1) && InPlane(width, height, Chroma, height / 2 - 1, width - 1)
    ensures PlaneEnd(width, l.luma, height).value == Address(l.luma, height - 1, width - 1) + 1
    ensures PlaneEnd(width, l.chroma, height / 2).value == Address(l.chroma, height / 2 - 1, width - 1) + 1
  {
    AcceptedEnds(width, height, l, Luma);
    AcceptedEnds(width, height, l, Chroma);
    hide ValidateShared, PlaneEnd;
    EndIsLast(width, height, l.luma, height - 1, width - 1);
    EndIsLast(width, height / 2, l.chroma, height / 2 - 1, width - 1);
  }

  /** `u32::try_from` on a 64-bit offset. */
  function TryU32(x: U64): Option<U32> { if x < TWO_32 then Some(x) else None }

  /** An accepted staged layout addresses every plane byte with 32 bits, every 32-bit texel it reads is inside
      the texel buffer, and the later conversions of both offsets succeed. */
  lemma StagedAddressing(width: U32, height: U32, l: Layout, maxTexels: U32, w: Which, r: int, b: int)
    requires ValidateStaged(width, height, l, maxTexels).Ok?
    ensures TryU32(l.luma.offset).Some? && TryU32(l.chroma.offset).Some?
    ensures InPlane(width, height, w, r, b) ==>
              var a, span := Address(PlaneOf(l, w), r, b), ComputeSpan(width, height, l).value;
              a < TWO_32 && a / 4 < span / 4 <= maxTexels && span <= l.objectSize
  {
    var span := ComputeSpan(width, height, l).value;
    ComputeSpanLeast(width, height, l, span);
    assert height >= 2 && width >= 2;
    assert InPlane(width, height, Luma, 0, 0) && InPlane(width, height, Chroma, 0, 0);
    assert Address(PlaneOf(l, Luma), 0, 0) < span && Address(PlaneOf(l, Chroma), 0, 0) < span;
    if InPlane(width, height, w, r, b) {
      var a := Address(PlaneOf(l, w), r, b);
      assert a < span;
      assert span == 4 * (span / 4);
    }
  }

  // ---- packed layouts ----------------------------------------------------------------------

  /** `validate_packed_layout`, after the dimensions were checked to be positive. */
  function ValidatePacked(width: U32, height: U32, size: U64, p: Plane): Result<()>
    requires width > 0 && height > 0
  {
    if size == 0 then Err(ZeroSize)
    else if p.pitch < width * 4 then Err(PitchTooSmall)
    else
      match CheckedAdd(p.offset, LastRow(p, height))
      case None => Err(ExtentOverflow)
      case Some(last) =>
        match CheckedAdd(last, width * 4)
        case None => Err(ExtentOverflow)
        case Some(required) => if required > size then Err(OutsideObject) else Ok(())
  }

  /** It accepts exactly the layouts whose rows fit the pitch and whose every byte is inside the object. */
  lemma PackedIffInside(width: U32, height: U32, size: U64, p: Plane)
    requires width > 0 && height > 0
    ensures ValidatePacked(width, height, size, p).Ok?
            <==> (width * 4 <= p.pitch && forall r, b :: 0 <= r < height && 0 <= b < width * 4 ==> Address(p, r, b) < size)
  {
    var last := Address(p, height - 1, width * 4 - 1);
    RowsAscend(p.pitch, 0, height - 1);
    if ValidatePacked(width, height, size, p).Ok? {
      forall r, b | 0 <= r < height && 0 <= b < width * 4 ensures Address(p, r, b) < size { RowsAscend(p.pitch, r, height - 1); }
    }
    if forall r, b :: 0 <= r < height && 0 <= b < width * 4 ==> Address(p, r, b) < size {
      assert last < size;
    }
  }

  // ---- timestamps --------------------------------------------------------------------------

  /** `timestamp_delta`: a wrapping subtraction, then the low `bits` of it. */
  function TimestampDelta(start: U64, end: U64, bits: nat): nat {
    var wrapped := (end - start) % TWO_64;
    if bits >= 64 then wrapped else wrapped % Power2(bits)
  }

  lemma {:induction false} PowersDivide(a: nat, b: nat)
    requires a <= b
    ensures exists k: nat :: Power2(b) == k * Power2(a)
    decreases b
  {
    if a == b {
      assert Power2(b) == 1 * Power2(a);
    } else {
      PowersDivide(a, b - 1);
      var k: nat :| Power2(b - 1) == k * Power2(a);
      assert Power2(b) == (2 * k) * Power2(a);
    }
  }

  lemma SameRemainder(x: int, q: int, m: int)
    requires m > 0
    ensures (x + q * m) % m == x % m
  {
    var n := x + q * m;
    assert n == m * (x / m + q) + x % m;
    RemainderUnique(n, m, x / m + q, x % m);
  }

  lemma RemainderUnique(n: int, m: int, q: int, r: int)
    requires m > 0 && 0 <= r < m && n == m * q + r
    ensures n % m == r
  {
    var d := n / m - q;
    assert m * d == r - n % m;
    assert d >= 1 ==> m * d >= m;
    assert d <= -1 ==> m * d <= -m;
  }

  /** Reading two wrapped counters and wrapping the difference loses only whole turns of the counter. */
  lemma DifferenceWraps(t0: int, t1: int, m: int, k: int)
    requires m > 0 && k > 0
    ensures exists q :: (t1 % m - t0 % m) % (k * m) == (t1 - t0) + q * m
  {
    var start, end, w := t0 % m, t1 % m, k * m;
    var turns := (end - start) / w;
    var q := t0 / m - t1 / m - turns * k;
    assert (end - start) % w == end - start - turns * w;
    assert turns * w == (turns * k) * m;
    assert t0 == m * (t0 / m) + start && t1 == m * (t1 / m) + end;
    assert q * m == m * (t0 / m) - m * (t1 / m) - (turns * k) * m;
    assert (end - start) % w == (t1 - t0) + q * m;
  }

  /** The counter keeps the low `bits` of the elapsed ticks. If fewer ticks than it can count passed between
      two readings, the delta is exactly that many, however often the counter wrapped. */
  lemma DeltaIsElapsed(t0: nat, t1: nat, bits: nat, start: U64, end: U64)
    requires 1 <= bits <= 64 && t0 <= t1 && t1 - t0 < Power2(bits)
    requires start == t0 % Power2(bits) && end == t1 % Power2(bits)
    ensures TimestampDelta(start, end, bits) == t1 - t0
  {
    var m := Power2(bits);
    Power64();
    PowersDivide(bits, 64);
    var k: nat :| TWO_64 == k * m;
    assert k > 0;
    var wrapped := (end - start) % TWO_64;
    assert wrapped % m == t1 - t0 by { LowTicks(t0, t1, m, k); }
    hide Power2;
    if bits == 64 { RemainderUnique(wrapped, TWO_64, 0, wrapped); }
  }

  /** The difference of two readings modulo `m`, taken in a word of `k * m` values, agrees with the elapsed ticks modulo `m`. */
  lemma LowTicks(t0: nat, t1: nat, m: nat, k: nat)
    requires m > 0 && k > 0 && t0 <= t1 && t1 - t0 < m
    ensures k * m > 0 && (t1 % m - t0 % m) % (k * m) % m == t1 - t0
  {
    DifferenceWraps(t0, t1, m, k);
    var q: int :| (t1 % m - t0 % m) % (k * m) == (t1 - t0) + q * m;
    SameRemainder(t1 - t0, q, m);
    RemainderUnique(t1 - t0, m, 0, t1 - t0);
  }

  lemma Power64()
    ensures Power2(64) == TWO_64
  {
    assert Power2(4) == 0x10 by { PowerSum(2, 2); }
    hide Power2;
    assert Power2(8) == 0x100 by { PowerSum(4, 4); }
    assert Power2(16) == 0x1_0000 by { PowerSum(8, 8); }
    assert Power2(32) == TWO_32 by { PowerSum(16, 16); }
    PowerSum(32, 32);
  }

  lemma {:induction false} PowerSum(a: nat, b: nat)
    ensures Power2(a + b) == Power2(a) * Power2(b)
  {
    if a > 0 {
      PowerSum(a - 1, b);
      assert Power2(a + b) == 2 * Power2(a - 1 + b);
    }
  }
}
