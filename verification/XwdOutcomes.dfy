/**
 The decoding of X window dumps said outright, on the words and bytes of the payload: which
 dumps are refused and why, and what every byte of the picture is; likewise for crops.
 */
module XwdOutcomes {
  import opened Wrappers
  import opened Words
  import opened XwdMasks
  import opened XwdDecoder

  // ---------- the header ----------

  // The k-th word of the header, big-endian.
  function WordAt(payload: seq<Byte>, k: nat): nat
    requires |payload| >= 100 && k < 25
  {
    Number(payload[4 * k..4 * k + 4])
  }

  lemma FieldIsWord(payload: seq<Byte>, k: nat)
    requires |payload| >= 100 && k < 25
    ensures Field(payload, k) == WordAt(payload, k)
  {
    NumberIsBigEndian(payload[4 * k..4 * k + 4]);
  }

  // Where the fields stand.
  lemma HeaderFields(payload: seq<Byte>)
    requires |payload| >= 100
    ensures var h := HeaderOf(payload);
            && h.headerSize == WordAt(payload, 0) && h.version == WordAt(payload, 1) && h.format == WordAt(payload, 2)
            && h.depth == WordAt(payload, 3) && h.width == WordAt(payload, 4) && h.height == WordAt(payload, 5)
            && h.xoffset == WordAt(payload, 6) && h.byteOrder == WordAt(payload, 7)
            && h.bitsPerPixel == WordAt(payload, 11) && h.bytesPerLine == WordAt(payload, 12)
            && h.visualClass == WordAt(payload, 13)
            && h.red == WordAt(payload, 14) && h.green == WordAt(payload, 15) && h.blue == WordAt(payload, 16)
            && h.ncolors == WordAt(payload, 19)
            && h.windowWidth == WordAt(payload, 20) && h.windowHeight == WordAt(payload, 21)
            && h.windowX == WordAt(payload, 22) && h.windowY == WordAt(payload, 23)
  {
    hide Field, WordAt;
    forall k | 0 <= k < 25 ensures Field(payload, k) == WordAt(payload, k) {
      FieldIsWord(payload, k);
    }
  }

  // The pixels begin behind the header and twelve bytes for every colour.
  function PixelsFrom(payload: seq<Byte>): nat
    requires |payload| >= 100
  {
    WordAt(payload, 0) + 12 * WordAt(payload, 19)
  }

  // ---------- the masks ----------

  // What is wrong with the masks first: one is empty or too wide, two overlap, or one has
  // a gap.
  ghost predicate MaskInRange(mask: nat, bitsPerPixel: nat) {
    0 < mask < Power(bitsPerPixel)
  }

  lemma MasksRefused(red: nat, green: nat, blue: nat, bitsPerPixel: nat)
    ensures CheckMasks(red, green, blue, bitsPerPixel)
         == if !MaskInRange(red, bitsPerPixel) || !MaskInRange(green, bitsPerPixel) || !MaskInRange(blue, bitsPerPixel)
            then Refused(MaskInvalid)
            else if !Disjoint(red, green) || !Disjoint(red, blue) || !Disjoint(green, blue) then Refused(MasksOverlap)
            else if !Run(red) || !Run(green) || !Run(blue) then Refused(NotContiguous)
            else Accepted
  {
    hide Disjoint, Contiguous, Run, And, BitLength, Power;
    BitLengthBound(red, bitsPerPixel);
    BitLengthBound(green, bitsPerPixel);
    BitLengthBound(blue, bitsPerPixel);
    AndIsZeroIffDisjoint(red, green);
    AndIsZeroIffDisjoint(red, blue);
    AndIsZeroIffDisjoint(green, blue);
    if red > 0 {
      ContiguousIffRun(red);
    }
    if green > 0 {
      ContiguousIffRun(green);
    }
    if blue > 0 {
      ContiguousIffRun(blue);
    }
  }

  // ---------- what is refused ----------

  // The first thing that is wrong names the error.
  lemma DumpRefusedFor(payload: seq<Byte>)
    ensures if |payload| < 100 then DecodedImage(payload) == Err(ShortHeader)
            else
              var width, height, line := WordAt(payload, 4), WordAt(payload, 5), WordAt(payload, 12);
              var size, bits := WordAt(payload, 0), WordAt(payload, 11);
              var r := DecodedImage(payload);
              if WordAt(payload, 1) != 7 || WordAt(payload, 2) != 2 then r == Err(UnsupportedFormat)
              else if WordAt(payload, 13) != 4 || !(1 <= WordAt(payload, 3) <= 32) then r == Err(UnsupportedVisual)
              else if !(1 <= width <= 32768) || !(1 <= height <= 32768) then r == Err(DimensionsOutOfBounds)
              else if WordAt(payload, 20) != width || WordAt(payload, 21) != height || WordAt(payload, 6) != 0
              then r == Err(GeometryMismatch)
              else if size < 101 || size > |payload| then r == Err(HeaderSizeInvalid)
              else if payload[size - 1] != 0 then r == Err(NameNotTerminated)
              else if WordAt(payload, 19) > 65536 then r == Err(ColorTableTooLarge)
              else if PixelsFrom(payload) > |payload| then r == Err(ColorTableTruncated)
              else if bits != 16 && bits != 24 && bits != 32 then r == Err(PixelWidthUnsupported)
              else if line < width * (bits / 8) then r == Err(StrideTooSmall)
              else if line * height > 536870912 || |payload| != PixelsFrom(payload) + line * height
              then r == Err(PixelPayloadWrong)
              else if WordAt(payload, 7) > 1 then r == Err(ByteOrderInvalid)
              else
                match CheckMasks(WordAt(payload, 14), WordAt(payload, 15), WordAt(payload, 16), bits)
                case Refused(e) => r == Err(BadMasks(e))
                case Accepted => if width * 3 * height > 536870912 then r == Err(DecodedTooLarge) else r.Ok?
  {
    hide WordAt, Field, CheckMasks;
    if |payload| >= 100 {
      HeaderFields(payload);
    }
  }

  // ---------- the picture ----------

  // The value of a pixel of two, three or four bytes, the first byte the lowest or the
  // highest.
  function PixelAt(payload: seq<Byte>, from: nat, bytes: nat, lowFirst: bool): nat
    requires 2 <= bytes <= 4 && from + bytes <= |payload|
  {
    var a, b := payload[from] as int, payload[from + 1] as int;
    if bytes == 2 then if lowFirst then a + 256 * b else 256 * a + b
    else
      var c := payload[from + 2] as int;
      if bytes == 3 then if lowFirst then a + 256 * b + 65536 * c else 65536 * a + 256 * b + c
      else
        var d := payload[from + 3] as int;
        if lowFirst then a + 256 * b + 65536 * c + 16777216 * d else 16777216 * a + 65536 * b + 256 * c + d
  }

  lemma LittleIsLowFirst(bytes: seq<Byte>)
    requires 2 <= |bytes| <= 4
    ensures LittleEndian(bytes) == PixelAt(bytes, 0, |bytes|, true)
  {
    assert bytes[1..][1..] == bytes[2..];
    assert LittleEndian(bytes[1..]) == bytes[1] as int + 256 * LittleEndian(bytes[2..]);
    if |bytes| > 2 {
      assert bytes[2..][1..] == bytes[3..];
      assert LittleEndian(bytes[2..]) == bytes[2] as int + 256 * LittleEndian(bytes[3..]);
      if |bytes| > 3 {
        assert bytes[3..][1..] == [];
        assert LittleEndian(bytes[3..]) == bytes[3] as int;
      }
    }
  }

  lemma BigIsHighFirst(bytes: seq<Byte>)
    requires 2 <= |bytes| <= 4
    ensures BigEndian(bytes) == PixelAt(bytes, 0, |bytes|, false)
  {
    assert bytes[..1][..0] == [] && BigEndian(bytes[..1]) == bytes[0] as int;
    assert bytes[..2][..1] == bytes[..1] && BigEndian(bytes[..2]) == 256 * BigEndian(bytes[..1]) + bytes[1] as int;
    if |bytes| > 2 {
      assert bytes[..3][..2] == bytes[..2] && BigEndian(bytes[..3]) == 256 * BigEndian(bytes[..2]) + bytes[2] as int;
    }
    assert bytes[..|bytes|] == bytes;
  }

  lemma SameBytes(payload: seq<Byte>, from: nat, bytes: nat, lowFirst: bool)
    requires 2 <= bytes <= 4 && from + bytes <= |payload|
    ensures PixelAt(payload[from..from + bytes], 0, bytes, lowFirst) == PixelAt(payload, from, bytes, lowFirst)
  {
  }

  // Where a pixel of an accepted dump stands, and its value.
  function PixelFrom(payload: seq<Byte>, row: nat, column: nat): nat
    requires |payload| >= 100
  {
    Position(PixelsFrom(payload), row, WordAt(payload, 12), column, WordAt(payload, 11) / 8)
  }

  function Position(from: nat, row: nat, line: nat, column: nat, bytes: nat): nat {
    from + row * line + column * bytes
  }

  lemma PixelIsRead(payload: seq<Byte>, row: nat, column: nat)
    requires HeaderError(payload).None? && row < WordAt(payload, 5) && column < WordAt(payload, 4)
    ensures 2 <= WordAt(payload, 11) / 8 <= 4 && PixelFrom(payload, row, column) + WordAt(payload, 11) / 8 <= |payload|
    ensures Usable(payload, HeaderOf(payload)) && row < HeaderOf(payload).height && column < HeaderOf(payload).width
    ensures PixelValue(payload, HeaderOf(payload), row, column)
         == PixelAt(payload, PixelFrom(payload, row, column), WordAt(payload, 11) / 8, WordAt(payload, 7) == 0)
  {
    hide WordAt, Field, CheckMasks, LittleEndian, BigEndian, PixelAt;
    HeaderFields(payload);
    AcceptedIsUsable(payload);
    var h, n := HeaderOf(payload), WordAt(payload, 11) / 8;
    PixelInside(payload, h, row, column);
    var from := PixelFrom(payload, row, column);
    LittleIsLowFirst(payload[from..from + n]);
    BigIsHighFirst(payload[from..from + n]);
    SameBytes(payload, from, n, WordAt(payload, 7) == 0);
  }

  lemma {:induction false} ShiftDivides(a: nat, n: nat)
    ensures ShiftRight(a, n) == a / Power(n)
    decreases n
  {
    if n > 0 {
      ShiftDivides(a / 2, n - 1);
      DivideTwice(a, Power(n - 1));
    }
  }

  lemma DivideTwice(a: nat, p: nat)
    requires p > 0
    ensures a / 2 / p == a / (2 * p)
  {
    var q := a / 2 / p;
    assert q * p <= a / 2 < q * p + p;
    assert q * (2 * p) == 2 * (q * p) && (q + 1) * (2 * p) == 2 * (q * p + p);
    assert q * (2 * p) <= a < (q + 1) * (2 * p);
    QuotientIs(a, 2 * p, q);
  }

  lemma QuotientIs(a: nat, d: nat, q: nat)
    requires d > 0 && q * d <= a < (q + 1) * d
    ensures a / d == q
  {
    var r := a / d;
    assert r * d <= a < (r + 1) * d;
    if r < q {
      ProductOrder(r + 1, q, d);
    } else if q < r {
      ProductOrder(q + 1, r, d);
    }
  }

  lemma ProductOrder(a: nat, b: nat, n: nat)
    requires a <= b
    ensures a * n <= b * n
  {
  }

  // A byte is the channel brought from its own range to 255, rounded to the nearest: the
  // pixel shifted down by the mask's clear bits and cut to its width.
  predicate ScaledFrom(out: int, pixel: nat, mask: nat, shift: nat, width: nat) {
    var most := Power(width) - 1;
    var channel := pixel / Power(shift) % Power(width);
    && width > 0 && mask == most * Power(shift)
    && -most < 2 * (out * most - 255 * channel) < most
  }

  lemma ChannelIsScaled(pixel: nat, mask: nat) returns (shift: nat, width: nat)
    requires mask > 0 && Contiguous(mask)
    ensures Maximum(mask) > 0 && ScaledFrom(ScaleMaskedChannel(pixel, mask), pixel, mask, shift, width)
  {
    hide Power, And;
    shift := Shift(mask);
    ContiguousIffRun(mask);
    width :| IsRun(mask, Shift(mask), width);
    ChannelIsItsBits(pixel, mask, width);
    ShiftDivides(pixel, shift);
    ScalingRoundsToNearest(pixel, pixel, mask);
    var out, most, channel := ScaleMaskedChannel(pixel, mask), Maximum(mask), ChannelValue(pixel, mask);
    assert out == Rounded(channel, most);
  }

  // Component c of a pixel of an accepted dump is scaled from the pixel's own bytes by the
  // red, green or blue mask.
  lemma PictureAt(payload: seq<Byte>, row: nat, column: nat, c: nat) returns (shift: nat, width: nat)
    requires HeaderError(payload).None? && row < WordAt(payload, 5) && column < WordAt(payload, 4) && c < 3
    ensures DecodedImage(payload).Ok?
    ensures 2 <= WordAt(payload, 11) / 8 <= 4 && PixelFrom(payload, row, column) + WordAt(payload, 11) / 8 <= |payload|
    ensures var image, k := DecodedImage(payload).value, RgbOffset(WordAt(payload, 4), row, column, c);
            && image.width == WordAt(payload, 4) && image.height == WordAt(payload, 5) && image.stride == 3 * image.width
            && |image.pixels| == 3 * image.width * image.height && k < |image.pixels|
            && ScaledFrom(image.pixels[k],
                          PixelAt(payload, PixelFrom(payload, row, column), WordAt(payload, 11) / 8, WordAt(payload, 7) == 0),
                          WordAt(payload, 14 + c), shift, width)
  {
    hide WordAt, PixelAt, PixelValue, DecodedRows, ScaledFrom, Contiguous, ScaleMaskedChannel, CheckMasks;
    HeaderFields(payload);
    PixelIsRead(payload, row, column);
    var h := HeaderOf(payload);
    DecodedAt(payload, h, h.height, row, column, c);
    AcceptedMask(h.red, h.green, h.blue, h.bitsPerPixel, Mask(h, c));
    shift, width := ChannelIsScaled(PixelValue(payload, h, row, column), Mask(h, c));
  }

  lemma AcceptedMask(red: nat, green: nat, blue: nat, bitsPerPixel: nat, mask: nat)
    requires CheckMasks(red, green, blue, bitsPerPixel) == Accepted && (mask == red || mask == green || mask == blue)
    ensures mask > 0 && Contiguous(mask)
  {
  }

  // Where the picture stands on the screen: two's complement words.
  lemma PictureStands(payload: seq<Byte>)
    requires HeaderError(payload).None?
    ensures |payload| >= 100 && DecodedImage(payload).Ok?
    ensures var image, x, y := DecodedImage(payload).value, WordAt(payload, 22), WordAt(payload, 23);
            && image.rootX == (if x < 2147483648 then x else x - 4294967296)
            && image.rootY == (if y < 2147483648 then y else y - 4294967296)
  {
    hide WordAt, HeaderError, DecodedRows, Usable;
    HasHeader(payload);
    HeaderFields(payload);
  }

  lemma HasHeader(payload: seq<Byte>)
    requires HeaderError(payload).None?
    ensures |payload| >= 100
  {
  }

  // ---------- crops ----------

  // A region is used exactly when all of it is trusted and it lies inside the snapshot.
  lemma RegionUsed(allowed: bool, x: Option<int>, y: Option<int>, width: Option<int>, height: Option<int>, s: Snapshot)
    ensures TrustedWindowRegion(allowed, x, y, width, height, s).Some? <==>
            && allowed && x.Some? && y.Some? && width.Some? && height.Some?
            && width.value >= 1 && height.value >= 1
            && s.rootX <= x.value && x.value + width.value <= s.rootX + s.width
            && s.rootY <= y.value && y.value + height.value <= s.rootY + s.height
    ensures TrustedWindowRegion(allowed, x, y, width, height, s).Some? ==>
              TrustedWindowRegion(allowed, x, y, width, height, s).value == Region(x.value, y.value, width.value, height.value)
  {
  }

  // Byte k of row `row` of a crop is byte k of that row of the region in the snapshot.
  lemma CropAt(s: Snapshot, region: Region, row: nat, k: nat)
    requires SnapshotOk(s) && Inside(region, s) && row < region.height && k < region.width * s.bytesPerPixel
    ensures var from := (region.y - s.rootY + row) * s.stride + (region.x - s.rootX) * s.bytesPerPixel + k;
            var to := row * (region.width * s.bytesPerPixel) + k;
            && 0 <= from < |s.pixels| && 0 <= to < |CroppedRows(s, region, region.height)|
            && CroppedRows(s, region, region.height)[to] == s.pixels[from]
            && |CroppedRows(s, region, region.height)| == region.height * (region.width * s.bytesPerPixel)
  {
    CroppedAt(s, region, region.height, row, k);
    CroppedSize(s, region, region.height);
  }
}
