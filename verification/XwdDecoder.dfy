/**
 Decoding an X window dump and cropping a snapshot: the checks in their order, the
 pixel loops, and the proof that every byte is the one the pixel map asks for.
 */
module XwdDecoder {
  import opened Wrappers
  import opened Words
  import opened XwdMasks

  const HEADER_BYTES := 100
  const COLOR_BYTES := 12

  datatype XwdError =
    | ShortHeader | UnsupportedFormat | UnsupportedVisual | DimensionsOutOfBounds | GeometryMismatch
    | HeaderSizeInvalid | NameNotTerminated | ColorTableTooLarge | ColorTableTruncated | PixelWidthUnsupported
    | StrideTooSmall | PixelPayloadWrong | ByteOrderInvalid | BadMasks(error: MaskError) | DecodedTooLarge

  datatype Header = Header(headerSize: Word, version: Word, format: Word, depth: Word, width: Word, height: Word,
                           xoffset: Word, byteOrder: Word, bitsPerPixel: Word, bytesPerLine: Word, visualClass: Word,
                           red: Word, green: Word, blue: Word, ncolors: Word,
                           windowWidth: Word, windowHeight: Word, windowX: Word, windowY: Word)

  // The k-th word of the header.
  function Field(payload: seq<Byte>, k: nat): Word
    requires |payload| >= HEADER_BYTES && k < 25
  {
    FromBytes4(payload[4 * k..4 * k + 4])
  }

  function HeaderOf(payload: seq<Byte>): Header
    requires |payload| >= HEADER_BYTES
  {
    Header(Field(payload, 0), Field(payload, 1), Field(payload, 2), Field(payload, 3), Field(payload, 4),
           Field(payload, 5), Field(payload, 6), Field(payload, 7), Field(payload, 11), Field(payload, 12),
           Field(payload, 13), Field(payload, 14), Field(payload, 15), Field(payload, 16), Field(payload, 19),
           Field(payload, 20), Field(payload, 21), Field(payload, 22), Field(payload, 23))
  }

  function ImageOffset(h: Header): nat {
    h.headerSize + h.ncolors * COLOR_BYTES
  }

  function BytesPerPixel(h: Header): nat {
    h.bitsPerPixel / 8
  }

  function MasksError(h: Header): Option<XwdError> {
    match CheckMasks(h.red, h.green, h.blue, h.bitsPerPixel)
    case Accepted => None
    case Refused(e) => Some(BadMasks(e))
  }

  // The checks, in the order the decoder makes them.
  function HeaderError(payload: seq<Byte>): Option<XwdError> {
    if |payload| < HEADER_BYTES then Some(ShortHeader)
    else
      var h := HeaderOf(payload);
      if h.version != 7 || h.format != 2 then Some(UnsupportedFormat)
      else if h.visualClass != 4 || h.depth <= 0 || h.depth > 32 then Some(UnsupportedVisual)
      else if !(0 < h.width <= MAX_DIMENSION) || !(0 < h.height <= MAX_DIMENSION) then Some(DimensionsOutOfBounds)
      else if h.windowWidth != h.width || h.windowHeight != h.height || h.xoffset != 0 then Some(GeometryMismatch)
      else if h.headerSize < HEADER_BYTES + 1 || h.headerSize > |payload| then Some(HeaderSizeInvalid)
      else if payload[h.headerSize - 1] != 0 then Some(NameNotTerminated)
      else if h.ncolors > 65_536 then Some(ColorTableTooLarge)
      else if ImageOffset(h) > |payload| then Some(ColorTableTruncated)
      else if h.bitsPerPixel != 16 && h.bitsPerPixel != 24 && h.bitsPerPixel != 32 then Some(PixelWidthUnsupported)
      else if h.bytesPerLine < h.width * BytesPerPixel(h) then Some(StrideTooSmall)
      else if h.bytesPerLine * h.height > MAX_PIXEL_BYTES
           || |payload| - ImageOffset(h) != h.bytesPerLine * h.height then Some(PixelPayloadWrong)
      else if h.byteOrder != 0 && h.byteOrder != 1 then Some(ByteOrderInvalid)
      else if MasksError(h).Some? then MasksError(h)
      else if h.width * 3 * h.height > MAX_PIXEL_BYTES then Some(DecodedTooLarge)
      else None
  }

  // ---------- the pixel map ----------

  function LittleEndian(bytes: seq<Byte>): nat {
    if bytes == [] then 0 else bytes[0] as int + 256 * LittleEndian(bytes[1..])
  }

  function BigEndian(bytes: seq<Byte>): nat {
    if bytes == [] then 0 else 256 * BigEndian(bytes[..|bytes| - 1]) + bytes[|bytes| - 1] as int
  }

  // What the pixel loops rely on.
  predicate Usable(payload: seq<Byte>, h: Header) {
    && h.bytesPerLine >= h.width * BytesPerPixel(h)
    && |payload| == ImageOffset(h) + h.bytesPerLine * h.height
    && CheckMasks(h.red, h.green, h.blue, h.bitsPerPixel) == Accepted
  }

  lemma AcceptedIsUsable(payload: seq<Byte>)
    requires HeaderError(payload).None?
    ensures |payload| >= HEADER_BYTES && Usable(payload, HeaderOf(payload))
  {
  }

  lemma PixelInside(payload: seq<Byte>, h: Header, row: nat, column: nat)
    requires Usable(payload, h) && row < h.height && column < h.width
    ensures PixelStart(h, row, column) + BytesPerPixel(h) <= |payload|
  {
    LineInside(h.bytesPerLine, h.height, row);
    LineInside(BytesPerPixel(h), h.width, column);
    assert h.width * BytesPerPixel(h) == BytesPerPixel(h) * h.width;
  }

  lemma LineInside(line: nat, lines: nat, k: nat)
    requires k < lines
    ensures k * line + line <= line * lines
  {
    assert (k + 1) * line <= lines * line;
  }

  function PixelStart(h: Header, row: nat, column: nat): nat {
    ImageOffset(h) + row * h.bytesPerLine + column * BytesPerPixel(h)
  }

  function PixelValue(payload: seq<Byte>, h: Header, row: nat, column: nat): nat
    requires Usable(payload, h) && row < h.height && column < h.width
  {
    PixelInside(payload, h, row, column);
    var bytes := payload[PixelStart(h, row, column)..PixelStart(h, row, column) + BytesPerPixel(h)];
    if h.byteOrder == 0 then LittleEndian(bytes) else BigEndian(bytes)
  }

  function Mask(h: Header, c: nat): Word {
    if c == 0 then h.red else if c == 1 then h.green else h.blue
  }

  lemma MasksScale(payload: seq<Byte>, h: Header, pixel: nat, c: nat)
    requires Usable(payload, h)
    ensures Mask(h, c) > 0 && Maximum(Mask(h, c)) > 0 && 0 <= ScaleMaskedChannel(pixel, Mask(h, c)) < 256
  {
    MasksAreUsable(h.red, h.green, h.blue, h.bitsPerPixel, Mask(h, c), pixel);
  }

  lemma MasksAreUsable(red: nat, green: nat, blue: nat, bitsPerPixel: nat, mask: nat, pixel: nat)
    requires CheckMasks(red, green, blue, bitsPerPixel) == Accepted
    requires mask == red || mask == green || mask == blue
    ensures mask > 0 && Maximum(mask) > 0 && 0 <= ScaleMaskedChannel(pixel, mask) < 256
  {
    ScalingRoundsToNearest(pixel, pixel, mask);
  }

  function Component(payload: seq<Byte>, h: Header, row: nat, column: nat, c: nat): Byte
    requires Usable(payload, h) && row < h.height && column < h.width
  {
    MasksScale(payload, h, PixelValue(payload, h, row, column), c);
    ScaleMaskedChannel(PixelValue(payload, h, row, column), Mask(h, c))
  }

  function DecodedRow(payload: seq<Byte>, h: Header, row: nat): (rgb: seq<Byte>)
    requires Usable(payload, h) && row < h.height
    ensures |rgb| == 3 * h.width
  {
    seq(3 * h.width, i requires 0 <= i < 3 * h.width => Component(payload, h, row, i / 3, i % 3))
  }

  function DecodedRows(payload: seq<Byte>, h: Header, n: nat): (rgb: seq<Byte>)
    requires Usable(payload, h) && n <= h.height
    ensures |rgb| == 3 * h.width * n
  {
    if n == 0 then []
    else
      assert 3 * h.width * n == 3 * h.width * (n - 1) + 3 * h.width;
      DecodedRows(payload, h, n - 1) + DecodedRow(payload, h, n - 1)
  }

  datatype Decoded = Decoded(rootX: int, rootY: int, width: nat, height: nat, stride: nat, pixels: seq<Byte>)

  function SignedCard32(value: Word): int {
    if value >= 0x8000_0000 then value - 0x1_0000_0000 else value
  }

  // The two's complement reading of a word.
  lemma SignedCard32IsTwosComplement(value: Word)
    ensures -0x8000_0000 <= SignedCard32(value) < 0x8000_0000
    ensures SignedCard32(value) % 0x1_0000_0000 == value
  {
  }

  // ---------- the loops ----------

  method DecodeRow(payload: seq<Byte>, h: Header, row: nat, target: array<Byte>, offset: nat)
    requires Usable(payload, h) && row < h.height
    requires offset + 3 * h.width <= target.Length
    modifies target
    ensures target[..offset + 3 * h.width] == old(target[..offset]) + DecodedRow(payload, h, row)
  {
    hide Usable, Component, PixelValue, DecodedRow;
    var rowStart := row * h.bytesPerLine;
    ghost var rgb := DecodedRow(payload, h, row);
    var targetIndex := offset;
    var column := 0;
    while column < h.width
      invariant column <= h.width && targetIndex == offset + 3 * column
      invariant forall i :: 0 <= i < 3 * column ==> target[offset + i] == rgb[i]
      invariant forall j :: 0 <= j < offset ==> target[j] == old(target[j])
    {
      var pixelValue := ReadPixel(payload, h, row, rowStart, column);
      ThreeComponents(payload, h, row, column);
      var red, green, blue := ScaledPixel(payload, h, row, column, pixelValue);
      target[targetIndex], target[targetIndex + 1], target[targetIndex + 2] := red, green, blue;
      targetIndex := targetIndex + 3;
      column := column + 1;
    }
  }

  method ReadPixel(payload: seq<Byte>, h: Header, row: nat, rowStart: nat, column: nat) returns (pixelValue: nat)
    requires Usable(payload, h) && row < h.height && column < h.width && rowStart == row * h.bytesPerLine
    ensures pixelValue == PixelValue(payload, h, row, column)
  {
    hide Usable;
    var pixelStart := ImageOffset(h) + rowStart + column * BytesPerPixel(h);
    PixelInside(payload, h, row, column);
    var bytes := payload[pixelStart..pixelStart + BytesPerPixel(h)];
    pixelValue := if h.byteOrder == 0 then LittleEndian(bytes) else BigEndian(bytes);
  }

  method ScaledPixel(payload: seq<Byte>, h: Header, row: nat, column: nat, pixelValue: nat)
    returns (red: Byte, green: Byte, blue: Byte)
    requires Usable(payload, h) && row < h.height && column < h.width && pixelValue == PixelValue(payload, h, row, column)
    ensures red == Component(payload, h, row, column, 0)
    ensures green == Component(payload, h, row, column, 1)
    ensures blue == Component(payload, h, row, column, 2)
  {
    hide ScaleMaskedChannel;
    MasksScale(payload, h, pixelValue, 0);
    MasksScale(payload, h, pixelValue, 1);
    MasksScale(payload, h, pixelValue, 2);
    red := ScaleMaskedChannel(pixelValue, h.red);
    green := ScaleMaskedChannel(pixelValue, h.green);
    blue := ScaleMaskedChannel(pixelValue, h.blue);
  }

  lemma ThreeComponents(payload: seq<Byte>, h: Header, row: nat, column: nat)
    requires Usable(payload, h) && row < h.height && column < h.width
    ensures var rgb := DecodedRow(payload, h, row);
            && rgb[3 * column] == Component(payload, h, row, column, 0)
            && rgb[3 * column + 1] == Component(payload, h, row, column, 1)
            && rgb[3 * column + 2] == Component(payload, h, row, column, 2)
  {
    hide Usable, Component;
    assert (3 * column) / 3 == column && (3 * column + 1) / 3 == column && (3 * column + 2) / 3 == column;
    assert (3 * column) % 3 == 0 && (3 * column + 1) % 3 == 1 && (3 * column + 2) % 3 == 2;
  }

  method DecodePixels(payload: seq<Byte>, h: Header) returns (pixels: seq<Byte>)
    requires Usable(payload, h)
    ensures pixels == DecodedRows(payload, h, h.height)
  {
    hide Usable, DecodedRow, DecodedRows;
    var line := 3 * h.width;
    var target := new Byte[line * h.height](_ => 0);
    var row := 0;
    var offset := 0;
    NoRows(payload, h);
    while row < h.height
      invariant row <= h.height && offset == line * row && offset <= target.Length
      invariant target[..offset] == DecodedRows(payload, h, row)
    {
      LineInside(line, h.height, row);
      DecodeRow(payload, h, row, target, offset);
      NextRow(payload, h, row);
      offset := offset + line;
      row := row + 1;
    }
    assert target[..offset] == target[..];
    pixels := target[..];
  }

  lemma NoRows(payload: seq<Byte>, h: Header)
    requires Usable(payload, h)
    ensures DecodedRows(payload, h, 0) == []
  {
  }

  lemma NextRow(payload: seq<Byte>, h: Header, n: nat)
    requires Usable(payload, h) && n < h.height
    ensures DecodedRows(payload, h, n + 1) == DecodedRows(payload, h, n) + DecodedRow(payload, h, n)
  {
  }

  function DecodedImage(payload: seq<Byte>): Result<Decoded, XwdError> {
    if HeaderError(payload).Some? then Err(HeaderError(payload).value)
    else
      AcceptedIsUsable(payload);
      var h := HeaderOf(payload);
      Ok(Decoded(SignedCard32(h.windowX), SignedCard32(h.windowY), h.width, h.height, h.width * 3,
                 DecodedRows(payload, h, h.height)))
  }

  method DecodeXwd(payload: seq<Byte>) returns (r: Result<Decoded, XwdError>)
    ensures r == DecodedImage(payload)
  {
    hide HeaderError, Usable;
    var error := HeaderError(payload);
    if error.Some? {
      return Err(error.value);
    }
    AcceptedIsUsable(payload);
    var h := HeaderOf(payload);
    var pixels := DecodePixels(payload, h);
    r := Ok(Decoded(SignedCard32(h.windowX), SignedCard32(h.windowY), h.width, h.height, h.width * 3, pixels));
  }

  // Every byte of the result is the scaled channel of the pixel at its place.
  lemma {:induction false} DecodedAt(payload: seq<Byte>, h: Header, n: nat, row: nat, column: nat, c: nat)
    requires Usable(payload, h) && c < 3 && row < n <= h.height && column < h.width
    ensures var rgb, k := DecodedRows(payload, h, n), RgbOffset(h.width, row, column, c);
            k < |rgb| && rgb[k] == Component(payload, h, row, column, c)
    decreases n
  {
    hide Usable, Component;
    RowOffset(h.width, row, n);
    RowOffset(h.width, n - 1, n);
    assert (3 * column + c) / 3 == column && (3 * column + c) % 3 == c;
    if row < n - 1 {
      RowOffset(h.width, row, n - 1);
      DecodedAt(payload, h, n - 1, row, column, c);
    }
  }

  // ---------- cropping ----------

  datatype Snapshot = Snapshot(rootX: int, rootY: int, width: nat, height: nat, stride: nat, bytesPerPixel: nat,
                               pixels: seq<Byte>)

  datatype Region = Region(x: int, y: int, width: int, height: int)

  predicate SnapshotOk(s: Snapshot) {
    s.bytesPerPixel * s.width <= s.stride && |s.pixels| == s.stride * s.height
  }

  // The window's geometry as far as it comes from trusted sources, if it lies inside.
  function TrustedWindowRegion(allowed: bool, x: Option<int>, y: Option<int>, width: Option<int>, height: Option<int>,
                               s: Snapshot): Option<Region>
  {
    if !allowed || x.None? || y.None? || width.None? || height.None? then None
    else if width.value <= 0 || height.value <= 0 then None
    else if x.value < s.rootX || y.value < s.rootY then None
    else if x.value + width.value > s.rootX + s.width then None
    else if y.value + height.value > s.rootY + s.height then None
    else Some(Region(x.value, y.value, width.value, height.value))
  }

  predicate Inside(region: Region, s: Snapshot) {
    && region.width > 0 && region.height > 0
    && s.rootX <= region.x && region.x + region.width <= s.rootX + s.width
    && s.rootY <= region.y && region.y + region.height <= s.rootY + s.height
  }

  function RowStart(s: Snapshot, region: Region, row: nat): int {
    (region.y - s.rootY + row) * s.stride + (region.x - s.rootX) * s.bytesPerPixel
  }

  lemma CropInside(s: Snapshot, region: Region, row: nat)
    requires SnapshotOk(s) && Inside(region, s) && row < region.height
    ensures 0 <= RowStart(s, region, row)
    ensures RowStart(s, region, row) + region.width * s.bytesPerPixel <= |s.pixels|
  {
    SpanInside(region.x - s.rootX, region.width, s.width, s.bytesPerPixel, s.stride, region.y - s.rootY + row, s.height);
  }

  // A span of a line is inside the lines.
  lemma SpanInside(x: nat, span: nat, width: nat, pixel: nat, stride: nat, y: nat, height: nat)
    requires x + span <= width && pixel * width <= stride && y < height
    ensures 0 <= y * stride + x * pixel
    ensures y * stride + x * pixel + span * pixel <= stride * height
  {
    LineInside(stride, height, y);
    ProductGrows(x + span, width, pixel);
    ProductGrows(0, x, pixel);
    SumTimes(x, span, pixel);
  }

  lemma SumTimes(a: int, b: int, n: int)
    ensures (a + b) * n == a * n + b * n
  {
  }

  lemma ProductGrows(a: int, b: int, n: nat)
    requires 0 <= a <= b
    ensures 0 <= a * n <= b * n == n * b
  {
  }

  // The first n rows of the crop, packed.
  function CroppedRows(s: Snapshot, region: Region, n: nat): seq<Byte>
    requires SnapshotOk(s) && Inside(region, s) && n <= region.height
  {
    if n == 0 then []
    else
      CroppedRows(s, region, n - 1) + CroppedRow(s, region, n - 1)
  }

  function PackedStride(s: Snapshot, region: Region): nat
    requires Inside(region, s)
  {
    region.width * s.bytesPerPixel
  }

  function CroppedRow(s: Snapshot, region: Region, row: nat): (line: seq<Byte>)
    requires SnapshotOk(s) && Inside(region, s) && row < region.height
    ensures |line| == PackedStride(s, region)
  {
    CropInside(s, region, row);
    var start := RowStart(s, region, row);
    s.pixels[start..start + PackedStride(s, region)]
  }

  method CropSnapshot(s: Snapshot, region: Region) returns (pixels: seq<Byte>, stride: nat)
    requires SnapshotOk(s) && Inside(region, s)
    ensures pixels == CroppedRows(s, region, region.height) && stride == region.width * s.bytesPerPixel
  {
    var localX := region.x - s.rootX;
    var localY := region.y - s.rootY;
    stride := region.width * s.bytesPerPixel;
    pixels := [];
    var row := 0;
    while row < region.height
      invariant row <= region.height && pixels == CroppedRows(s, region, row)
    {
      CropInside(s, region, row);
      var start := (localY + row) * s.stride + localX * s.bytesPerPixel;
      pixels := pixels + s.pixels[start..start + stride];
      row := row + 1;
    }
  }

  lemma {:induction false} CroppedSize(s: Snapshot, region: Region, n: nat)
    requires SnapshotOk(s) && Inside(region, s) && n <= region.height
    ensures |CroppedRows(s, region, n)| == n * PackedStride(s, region)
  {
    hide CroppedRow, PackedStride, SnapshotOk;
    if n > 0 {
      CroppedSize(s, region, n - 1);
      SumTimes(n - 1, 1, PackedStride(s, region));
    }
  }

  // A region the trust check lets through lies inside the snapshot, so no slice is cut
  // short: byte k of the crop's row is byte k of the window's row.
  lemma {:induction false} CroppedAt(s: Snapshot, region: Region, n: nat, row: nat, k: nat)
    requires SnapshotOk(s) && Inside(region, s) && row < n <= region.height && k < region.width * s.bytesPerPixel
    ensures 0 <= RowStart(s, region, row) + k < |s.pixels|
    ensures var packed := region.width * s.bytesPerPixel;
            && 0 <= row * packed + k < |CroppedRows(s, region, n)|
            && CroppedRows(s, region, n)[row * packed + k] == s.pixels[RowStart(s, region, row) + k]
    decreases n
  {
    var packed := region.width * s.bytesPerPixel;
    CroppedSize(s, region, n);
    CroppedSize(s, region, n - 1);
    CropInside(s, region, row);
    LineInside(packed, n, row);
    if row < n - 1 {
      LineInside(packed, n - 1, row);
      CroppedAt(s, region, n - 1, row, k);
    } else {
      CropInside(s, region, n - 1);
    }
  }

  lemma TrustedRegionsAreInside(allowed: bool, x: Option<int>, y: Option<int>, width: Option<int>, height: Option<int>,
                                s: Snapshot)
    ensures var region := TrustedWindowRegion(allowed, x, y, width, height, s);
            && (region.Some? ==> Inside(region.value, s))
            && (region.Some? <==>
                  allowed && x.Some? && y.Some? && width.Some? && height.Some?
                  && Inside(Region(x.value, y.value, width.value, height.value), s))
  {
  }
}
