/**
 The two validators of whole frames: visible rectangle, storage and acquire synchronization.

 For DMA-BUF storage the two sides agree; for binary storage the native side knows no pixel format and
 asks only that every row begins inside the data, so it accepts more.
 */
module Frames {
  import opened Common
  import opened Machine
  import opened Descriptors

  datatype TRect = TRect(x: int, y: int, width: int, height: int)

  datatype TBinaryPlane = TBinaryPlane(offset: int, stride: int)

  /** Binary storage: how many bytes it holds, and its planes. */
  datatype TStorage = TBinary(size: U64, planes: seq<TBinaryPlane>) | TDmaBuf(descriptor: TDescriptor)

  datatype TSync = TImplicitSync | TSyncFile(fd: int)

  datatype PixelFormat = Rgba8888 | Bgra8888 | Rgb888 | Gray8 | Gray2 | Bw1

  datatype Polarity = NoPolarity | OneIsBlack | OneIsWhite

  datatype BinaryFormat = BinaryFormat(pixels: PixelFormat, polarity: Polarity)

  /**
   A frame term. `binaryFormat` is the storage part of its format when that is a binary format;
   `formatAccepted` and `leaseAccepted` are what the checks of the format and of the lease answer.
   */
  datatype TFrame = TFrame(codedWidth: int, codedHeight: int, visible: TRect, storage: TStorage, sync: TSync,
                           binaryFormat: Option<BinaryFormat>, formatAccepted: bool, hasLease: bool, leaseAccepted: bool)

  datatype Rect = Rect(x: U32, y: U32, width: U32, height: U32)

  datatype BinaryPlane = BinaryPlane(offset: U64, stride: U32)

  datatype Storage = Binary(size: U64, planes: seq<BinaryPlane>) | DmaBuf(descriptor: Descriptor)

  datatype Sync = ImplicitSync | SyncFile(fd: I32)

  datatype Frame = Frame(codedWidth: U32, codedHeight: U32, visible: Rect, storage: Storage, sync: Sync)

  predicate RectDecodes(r: TRect) { IsU32(r.x) && IsU32(r.y) && IsU32(r.width) && IsU32(r.height) }

  predicate BinaryPlaneDecodes(p: TBinaryPlane) { IsU64(p.offset) && IsU32(p.stride) }

  predicate StorageDecodes(s: TStorage) {
    match s
    case TBinary(_, planes) => forall i :: 0 <= i < |planes| ==> BinaryPlaneDecodes(planes[i])
    case TDmaBuf(descriptor) => Decodes(descriptor)
  }

  predicate FrameDecodes(t: TFrame) {
    && IsU32(t.codedWidth) && IsU32(t.codedHeight) && RectDecodes(t.visible) && StorageDecodes(t.storage)
    && (t.sync.TSyncFile? ==> IsI32(t.sync.fd))
  }

  function DecodeStorage(s: TStorage): Storage
    requires StorageDecodes(s)
  {
    match s
    case TBinary(size, planes) =>
      Binary(size, seq(|planes|, i requires 0 <= i < |planes| && BinaryPlaneDecodes(planes[i]) => BinaryPlane(planes[i].offset, planes[i].stride)))
    case TDmaBuf(descriptor) => DmaBuf(Decode(descriptor))
  }

  function DecodeFrame(t: TFrame): Frame
    requires FrameDecodes(t)
  {
    Frame(t.codedWidth, t.codedHeight, Rect(t.visible.x, t.visible.y, t.visible.width, t.visible.height), DecodeStorage(t.storage),
          if t.sync.TImplicitSync? then ImplicitSync else SyncFile(t.sync.fd))
  }

  // ---- what a decoded frame has to be ------------------------------------------------------

  /** A nonempty rectangle inside the coded picture. */
  predicate RectInside(r: Rect, width: U32, height: U32) {
    0 < r.width && 0 < r.height && r.x + r.width <= width && r.y + r.height <= height
  }

  /** Every one of the rows begins inside the data. */
  ghost predicate RowsBegin(size: U64, p: BinaryPlane, rows: U32) {
    forall row :: 0 <= row < rows ==> p.offset + p.stride * row < size
  }

  ghost predicate StorageUsable(s: Storage, rows: U32) {
    match s
    case Binary(size, planes) => |planes| == 1 && planes[0].stride > 0 && RowsBegin(size, planes[0], rows)
    case DmaBuf(descriptor) => Usable(descriptor)
  }

  ghost predicate FrameUsable(f: Frame) {
    && RectInside(f.visible, f.codedWidth, f.codedHeight)
    && StorageUsable(f.storage, f.codedHeight)
    && (f.storage.Binary? ==> f.sync.ImplicitSync?)
    && (f.sync.SyncFile? ==> f.sync.fd >= 0)
  }

  lemma LastRowDecides(size: U64, p: BinaryPlane, rows: U32)
    requires rows > 0
    ensures RowsBegin(size, p, rows) <==> p.offset + p.stride * (rows - 1) < size
  {
    forall row | 0 <= row < rows ensures p.stride * row <= p.stride * (rows - 1) { TimesGrows(p.stride, row, p.stride, rows - 1); }
  }
}

/** `FrameDescriptor::validate` and what it calls, on machine integers. */
module RustFrames {
  import opened Common
  import opened Machine
  import opened Descriptors
  import opened Frames
  import RustDescriptors

  datatype FrameError =
    | ZeroCodedSize
    | ZeroVisibleSize
    | VisibleRectOverflow
    | VisibleRectOutOfBounds
    | EmptyBinaryPlanes
    | UnsupportedBinaryPlaneCount
    | ZeroBinaryStride
    | BinaryOffsetOutOfBounds
    | BinaryLastRowOutOfBounds
    | BadDescriptor(error: RustDescriptors.ValidationError)
    | BinaryStorageRequiresImplicitSync
    | NegativeAcquireFence

  datatype FrameResult = Valid | Invalid(error: FrameError)

  method ValidateRect(r: Rect, width: U32, height: U32) returns (result: FrameResult)
    ensures result.Valid? <==> RectInside(r, width, height)
    ensures result == Invalid(VisibleRectOverflow) ==> r.x + r.width >= TWO_32 || r.y + r.height >= TWO_32
  {
    if width == 0 || height == 0 {
      return Invalid(ZeroCodedSize);
    }
    if r.width == 0 || r.height == 0 {
      return Invalid(ZeroVisibleSize);
    }
    var right := CheckedAdd32(r.x, r.width);
    if right.None? {
      return Invalid(VisibleRectOverflow);
    }
    var bottom := CheckedAdd32(r.y, r.height);
    if bottom.None? {
      return Invalid(VisibleRectOverflow);
    }
    if right.value > width || bottom.value > height {
      return Invalid(VisibleRectOutOfBounds);
    }
    return Valid;
  }

  method ValidateBinary(size: U64, planes: seq<BinaryPlane>) returns (result: FrameResult)
    ensures result.Valid? <==> |planes| == 1 && planes[0].stride > 0 && planes[0].offset < size
  {
    if |planes| == 0 {
      return Invalid(EmptyBinaryPlanes);
    }
    if |planes| != 1 {
      return Invalid(UnsupportedBinaryPlaneCount);
    }
    if planes[0].stride == 0 {
      return Invalid(ZeroBinaryStride);
    }
    if planes[0].offset >= size {
      return Invalid(BinaryOffsetOutOfBounds);
    }
    return Valid;
  }

  /** The unchecked product never overflows 64 bits, so only the addition needs its check. */
  method ValidateHeight(size: U64, plane: BinaryPlane, height: U32) returns (result: FrameResult)
    requires height > 0
    ensures result.Valid? <==> RowsBegin(size, plane, height)
  {
    LastRowDecides(size, plane, height);
    var saturated: U32 := Max(0, height - 1);
    ProductFits(plane.stride, saturated);
    var product: U64 := plane.stride * saturated;
    var lastRow := CheckedAdd(plane.offset, product);
    if lastRow.None? || lastRow.value >= size {
      return Invalid(BinaryLastRowOutOfBounds);
    }
    return Valid;
  }

  method ValidateStorage(s: Storage) returns (result: FrameResult)
    ensures s.DmaBuf? ==> (result.Valid? <==> Usable(s.descriptor))
    ensures s.Binary? ==> (result.Valid? <==> |s.planes| == 1 && s.planes[0].stride > 0 && s.planes[0].offset < s.size)
  {
    match s
    case Binary(size, planes) => result := ValidateBinary(size, planes);
    case DmaBuf(descriptor) =>
      var checked := RustDescriptors.Validate(descriptor);
      result := if checked.Ok? then Valid else Invalid(BadDescriptor(checked.error));
  }

  method Validate(f: Frame) returns (result: FrameResult)
    ensures result.Valid? <==> FrameUsable(f)
  {
    result := ValidateRect(f.visible, f.codedWidth, f.codedHeight);
    if result.Invalid? {
      return;
    }
    result := ValidateStorage(f.storage);
    if result.Invalid? {
      if f.storage.Binary? && |f.storage.planes| == 1 { LastRowDecides(f.storage.size, f.storage.planes[0], f.codedHeight); FirstRow(f); }
      return;
    }
    if f.storage.Binary? {
      result := ValidateHeight(f.storage.size, f.storage.planes[0], f.codedHeight);
      if result.Invalid? {
        return;
      }
      if !f.sync.ImplicitSync? {
        return Invalid(BinaryStorageRequiresImplicitSync);
      }
    }
    if f.sync.SyncFile? && f.sync.fd < 0 {
      return Invalid(NegativeAcquireFence);
    }
    return Valid;
  }

  lemma FirstRow(f: Frame)
    requires f.storage.Binary? && |f.storage.planes| == 1 && f.codedHeight > 0
    ensures RowsBegin(f.storage.size, f.storage.planes[0], f.codedHeight) ==> f.storage.planes[0].offset < f.storage.size
  {
    var p := f.storage.planes[0];
    if RowsBegin(f.storage.size, p, f.codedHeight) { assert p.offset + p.stride * 0 < f.storage.size; }
  }
}

/** `validate_frame`, on terms. */
module ElixirFrames {
  import opened Common
  import opened Machine
  import opened Descriptors
  import opened Frames
  import E = ElixirDescriptors

  predicate ValidateRect(r: TRect, width: int, height: int) {
    && E.UnsignedBounded(r.x, TWO_32 - 1) && E.UnsignedBounded(r.y, TWO_32 - 1)
    && E.PositiveBounded(r.width, TWO_32 - 1) && E.PositiveBounded(r.height, TWO_32 - 1)
    && r.x + r.width <= width && r.y + r.height <= height
  }

  predicate ValidFormat(f: BinaryFormat) { f.polarity.NoPolarity? <==> !f.pixels.Bw1? }

  /** The bytes one row of pixels takes, or nothing when that passes 32 bits. */
  function MinimumStride(width: int, pixels: PixelFormat): Option<int>
    requires width > 0
  {
    match pixels
    case Rgba8888 => CheckedStride(width, 4)
    case Bgra8888 => CheckedStride(width, 4)
    case Rgb888 => CheckedStride(width, 3)
    case Gray8 => CheckedStride(width, 1)
    case Gray2 => Some((width + 3) / 4)
    case Bw1 => Some((width + 7) / 8)
  }

  function CheckedStride(width: int, bytes: int): Option<int> { if width * bytes < TWO_32 then Some(width * bytes) else None }

  function RequiredBytes(offset: int, stride: int, height: int, rowBytes: int): Option<int> {
    if offset + stride * (height - 1) + rowBytes < TWO_64 then Some(offset + stride * (height - 1) + rowBytes) else None
  }

  predicate ValidateBinary(size: U64, planes: seq<TBinaryPlane>, width: int, height: int, format: Option<BinaryFormat>)
    requires width > 0
  {
    && |planes| == 1 && format.Some? && ValidFormat(format.value)
    && E.UnsignedBounded(planes[0].offset, TWO_64 - 1)
    && E.PositiveBounded(planes[0].stride, TWO_32 - 1)
    && var least := MinimumStride(width, format.value.pixels);
    && least.Some? && planes[0].stride >= least.value
    && var needed := RequiredBytes(planes[0].offset, planes[0].stride, height, least.value);
    && needed.Some? && size >= needed.value
  }

  predicate ValidateStorage(t: TFrame)
    requires t.codedWidth > 0
  {
    match t.storage
    case TBinary(size, planes) => ValidateBinary(size, planes, t.codedWidth, t.codedHeight, t.binaryFormat)
    case TDmaBuf(descriptor) => E.ValidateDescriptor(descriptor)
  }

  predicate ValidateSync(s: TSync) { s.TSyncFile? ==> E.UnsignedBounded(s.fd, TWO_31 - 1) }

  predicate ValidateOwnership(t: TFrame) {
    match t.storage
    case TBinary(_, _) => !t.hasLease && t.sync.TImplicitSync?
    case TDmaBuf(_) => t.hasLease && t.leaseAccepted
  }

  predicate ValidateFrame(t: TFrame) {
    && E.PositiveBounded(t.codedWidth, TWO_32 - 1)
    && E.PositiveBounded(t.codedHeight, TWO_32 - 1)
    && ValidateRect(t.visible, t.codedWidth, t.codedHeight)
    && ValidateStorage(t)
    && ValidateSync(t.sync)
    && t.formatAccepted
    && ValidateOwnership(t)
  }
}

module FrameAgreement {
  import opened Common
  import opened Machine
  import opened Descriptors
  import opened Frames
  import DescriptorAgreement
  import E = ElixirFrames
  import ED = ElixirDescriptors

  /** What the Elixir side asks of binary storage and the native side does not look at. */
  predicate PixelsFit(t: TFrame)
    requires t.storage.TBinary? && |t.storage.planes| == 1 && t.codedWidth > 0
  {
    && t.binaryFormat.Some? && E.ValidFormat(t.binaryFormat.value)
    && var least := E.MinimumStride(t.codedWidth, t.binaryFormat.value.pixels);
    && least.Some? && least.value <= t.storage.planes[0].stride
    && t.storage.planes[0].offset + t.storage.planes[0].stride * (t.codedHeight - 1) + least.value <= t.storage.size
  }

  lemma RowsTakeBytes(width: int, pixels: PixelFormat)
    requires width > 0
    ensures E.MinimumStride(width, pixels).Some? ==> E.MinimumStride(width, pixels).value > 0
  {
  }

  lemma BinaryAgrees(t: TFrame)
    requires t.storage.TBinary? && |t.storage.planes| == 1
    requires ED.PositiveBounded(t.codedWidth, TWO_32 - 1) && ED.PositiveBounded(t.codedHeight, TWO_32 - 1)
    ensures E.ValidateStorage(t) <==> (StorageDecodes(t.storage) && StorageUsable(DecodeStorage(t.storage), t.codedHeight) && PixelsFit(t))
  {
    var p := t.storage.planes[0];
    if t.binaryFormat.Some? { RowsTakeBytes(t.codedWidth, t.binaryFormat.value.pixels); }
    if BinaryPlaneDecodes(p) { LastRowDecides(t.storage.size, BinaryPlane(p.offset, p.stride), t.codedHeight); }
  }

  /** Every frame the Elixir validator accepts decodes, and the native validator accepts it. */
  lemma AcceptedByBoth(t: TFrame)
    requires E.ValidateFrame(t)
    ensures FrameDecodes(t) && FrameUsable(DecodeFrame(t))
  {
    match t.storage
    case TBinary(_, _) => BinaryAgrees(t);
    case TDmaBuf(descriptor) => DescriptorAgreement.SameDescriptors(descriptor);
  }

  /** For DMA-BUF frames the native validator accepts nothing else, given the format and lease only Elixir sees. */
  lemma SameDmaBufFrames(t: TFrame)
    requires t.storage.TDmaBuf?
    ensures E.ValidateFrame(t) <==> (t.formatAccepted && t.hasLease && t.leaseAccepted && FrameDecodes(t) && FrameUsable(DecodeFrame(t)))
  {
    DescriptorAgreement.SameDescriptors(t.storage.descriptor);
    hide Decodes, Decode, Usable, ED.ValidateDescriptor;
  }

  /** For binary frames it accepts more, and `PixelsFit` says exactly how much more. */
  lemma SameBinaryFrames(t: TFrame)
    requires t.storage.TBinary?
    ensures E.ValidateFrame(t) <==>
            (t.formatAccepted && !t.hasLease && FrameDecodes(t) && FrameUsable(DecodeFrame(t)) && PixelsFit(t))
  {
    if |t.storage.planes| == 1 && ED.PositiveBounded(t.codedWidth, TWO_32 - 1) && ED.PositiveBounded(t.codedHeight, TWO_32 - 1) {
      BinaryAgrees(t);
      hide StorageDecodes, DecodeStorage, StorageUsable, PixelsFit, E.ValidateStorage;
    }
  }

  /** One column, two rows of four-byte pixels, nine bytes apart in ten bytes: the last pixel is cut off. */
  lemma NativeAcceptsCutPixels() returns (t: TFrame)
    ensures t.storage.TBinary? && t.formatAccepted && !t.hasLease && t.binaryFormat == Some(BinaryFormat(Rgba8888, NoPolarity))
    ensures FrameDecodes(t) && FrameUsable(DecodeFrame(t)) && !E.ValidateFrame(t)
  {
    t := TFrame(1, 2, TRect(0, 0, 1, 2), TBinary(10, [TBinaryPlane(0, 9)]), TImplicitSync, Some(BinaryFormat(Rgba8888, NoPolarity)), true, false, false);
    var f := DecodeFrame(t);
    assert f.storage.planes[0] == BinaryPlane(0, 9);
    LastRowDecides(10, f.storage.planes[0], 2);
  }

  /** The bytes of a row the Elixir validator accepts are inside the data, and no two rows share one. */
  lemma AcceptedPixelsAreInside(t: TFrame, row: nat, byte: nat, otherRow: nat, otherByte: nat)
    requires E.ValidateFrame(t) && t.storage.TBinary?
    requires row < t.codedHeight && otherRow < t.codedHeight
    requires byte < E.MinimumStride(t.codedWidth, t.binaryFormat.value.pixels).value
    requires otherByte < E.MinimumStride(t.codedWidth, t.binaryFormat.value.pixels).value
    ensures t.storage.planes[0].offset + t.storage.planes[0].stride * row + byte < t.storage.size
    ensures (row, byte) != (otherRow, otherByte) ==>
              t.storage.planes[0].stride * row + byte != t.storage.planes[0].stride * otherRow + otherByte
  {
    var p := t.storage.planes[0];
    var least := E.MinimumStride(t.codedWidth, t.binaryFormat.value.pixels).value;
    assert p.stride >= least && p.offset + p.stride * (t.codedHeight - 1) + least <= t.storage.size;
    hide *;
    RowInside(p.stride, least, row, t.codedHeight, byte);
    RowsApart(p.stride, least, row, byte, otherRow, otherByte);
  }

  lemma RowInside(stride: nat, least: nat, row: nat, rows: nat, byte: nat)
    requires row < rows && byte < least
    ensures stride * row + byte < stride * (rows - 1) + least
  {
    TimesGrows(stride, row, stride, rows - 1);
  }

  lemma RowsApart(stride: nat, least: nat, row: nat, byte: nat, otherRow: nat, otherByte: nat)
    requires byte < least <= stride && otherByte < least
    ensures (row, byte) != (otherRow, otherByte) ==> stride * row + byte != stride * otherRow + otherByte
  {
    if row < otherRow { TimesGrows(stride, row + 1, stride, otherRow); }
    if otherRow < row { TimesGrows(stride, otherRow + 1, stride, row); }
  }
}
