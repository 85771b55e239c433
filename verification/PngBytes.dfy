/**
 The PNG decoder byte by byte, as sections 3.2 and 6.1 to 6.6 of RFC 2083 put it and without
 the functions the decoder is made of: what each filter code adds, where the header's
 fields stand, what a chunk is, and which streams are complete.
 */
module PngBytes {
  import opened Wrappers
  import opened Words
  import opened Sequences
  import opened PngFilters
  import opened PngPixels
  import opened PngContainer
  import opened PngRoundTrip

  // ---------- filters ----------

  function Gap(a: int, b: int): nat {
    if a >= b then a - b else b - a
  }

  // The neighbour nearest to left + up - upper left, the left one before the upper one.
  predicate Nearest(left: int, up: int, upLeft: int, p: int) {
    var base := left + up - upLeft;
    && (p == left || p == up || p == upLeft)
    && Gap(base, p) <= Gap(base, left) && Gap(base, p) <= Gap(base, up) && Gap(base, p) <= Gap(base, upLeft)
    && (Gap(base, p) == Gap(base, left) ==> p == left)
    && (Gap(base, p) == Gap(base, up) ==> p == left || p == up)
  }

  // What a filter code predicts from the three neighbours.
  predicate Predicted(code: int, left: int, up: int, upLeft: int, p: int) {
    || (code == 0 && p == 0)
    || (code == 1 && p == left)
    || (code == 2 && p == up)
    || (code == 3 && 2 * p <= left + up <= 2 * p + 1)
    || (code == 4 && Nearest(left, up, upLeft, p))
  }

  ghost predicate Restores(code: int, data: int, left: int, up: int, upLeft: int, out: int) {
    exists p :: Predicted(code, left, up, upLeft, p) && out == (data + p) % 256
  }

  // There is only one such byte.
  lemma RestoresOne(code: int, data: int, left: int, up: int, upLeft: int, a: int, b: int)
    requires Restores(code, data, left, up, upLeft, a) && Restores(code, data, left, up, upLeft, b)
    ensures a == b
  {
    var p :| Predicted(code, left, up, upLeft, p) && a == (data + p) % 256;
    var q :| Predicted(code, left, up, upLeft, q) && b == (data + q) % 256;
    assert p == q;
  }

  function Neighbour(row: seq<Byte>, channels: nat, i: nat): Byte
    requires i < |row|
  {
    if i < channels then 0 else row[i - channels]
  }

  // The row is what this scanline restores above that one.
  ghost predicate RowRestored(channels: nat, line: seq<Byte>, above: seq<Byte>, row: seq<Byte>) {
    && |line| == 1 + |row| && |above| == |row| && line[0] <= 4
    && forall i :: 0 <= i < |row| ==>
         Restores(line[0], line[1 + i], Neighbour(row, channels, i), above[i], Neighbour(above, channels, i), row[i])
  }

  lemma PredictIsPredicted(f: Filter, left: Byte, up: Byte, upLeft: Byte)
    ensures FilterCode(f) <= 4 && Predicted(FilterCode(f), left, up, upLeft, Predict(f, left, up, upLeft))
  {
  }

  // Filter codes 0 to 4 are None, Sub, Up, Average and Paeth, and there are no others.
  lemma FilterCodes(code: Byte)
    ensures FilterOf(0) == Some(NoFilter) && FilterOf(1) == Some(Sub) && FilterOf(2) == Some(Up)
    ensures FilterOf(3) == Some(Average) && FilterOf(4) == Some(Paeth)
    ensures code > 4 ==> FilterOf(code).None?
    ensures FilterOf(code).Some? ==> FilterCode(FilterOf(code).value) == code
  {
  }

  lemma UnfilteredRestores(code: Byte, channels: nat, line: seq<Byte>, above: seq<Byte>)
    requires 0 < channels && |line| == 1 + |above| && line[0] == code && FilterOf(code).Some?
    ensures RowRestored(channels, line, above, UnfilteredRow(FilterOf(code).value, channels, line[1..], above))
  {
    hide Predict, Predicted, Unfiltered;
    var f, data := FilterOf(code).value, line[1..];
    var row := UnfilteredRow(f, channels, data, above);
    FilterCodes(code);
    forall i | 0 <= i < |row|
      ensures Restores(code, line[1 + i], Neighbour(row, channels, i), above[i], Neighbour(above, channels, i), row[i])
    {
      UnfilteredAt(f, channels, data, above, |data|, i);
      PredictIsPredicted(f, Neighbour(row, channels, i), above[i], Neighbour(above, channels, i));
    }
  }

  // ---------- scanlines ----------

  function LineAt(raw: seq<Byte>, rowBytes: nat, rows: nat, r: nat): (line: seq<Byte>)
    requires |raw| == rows * (1 + rowBytes) && r < rows
    ensures |line| == 1 + rowBytes
  {
    LineBounds(rowBytes, rows, r);
    raw[r * (1 + rowBytes)..r * (1 + rowBytes) + 1 + rowBytes]
  }

  lemma LineBounds(rowBytes: nat, rows: nat, r: nat)
    requires r < rows
    ensures 0 <= r * (1 + rowBytes) && r * (1 + rowBytes) + 1 + rowBytes <= rows * (1 + rowBytes)
  {
    assert (r + 1) * (1 + rowBytes) <= rows * (1 + rowBytes);
  }

  // Every row is restored from its scanline and the row above; above the first is `above`.
  ghost predicate Restored(channels: nat, above: seq<Byte>, raw: seq<Byte>, rows: seq<seq<Byte>>) {
    && |raw| == |rows| * (1 + |above|)
    && forall r :: 0 <= r < |rows| ==>
         RowRestored(channels, LineAt(raw, |above|, |rows|, r), RowAbove(above, rows, r), rows[r])
  }

  function RowAbove(above: seq<Byte>, rows: seq<seq<Byte>>, r: nat): seq<Byte>
    requires r < |rows|
  {
    if r == 0 then above else rows[r - 1]
  }

  lemma LineOfRest(raw: seq<Byte>, rowBytes: nat, rows: nat, r: nat)
    requires |raw| == rows * (1 + rowBytes) && 0 < r < rows
    ensures |raw[1 + rowBytes..]| == (rows - 1) * (1 + rowBytes)
    ensures LineAt(raw, rowBytes, rows, r) == LineAt(raw[1 + rowBytes..], rowBytes, rows - 1, r - 1)
  {
    LineFits(rows, rowBytes);
    LineBounds(rowBytes, rows, r);
    LineBounds(rowBytes, rows - 1, r - 1);
    assert r * (1 + rowBytes) == (r - 1) * (1 + rowBytes) + (1 + rowBytes);
  }

  // Unfiltering an image restores every byte of every row.
  lemma {:induction false} RowsAreRestored(channels: nat, height: nat, raw: seq<Byte>, above: seq<Byte>)
    requires 0 < channels && |raw| == height * (1 + |above|) && Rows(channels, height, raw, above).Some?
    ensures Restored(channels, above, raw, Rows(channels, height, raw, above).value)
    decreases height
  {
    hide UnfilteredRow, RowRestored, FilterOf;
    if height > 0 {
      LineFits(height, |above|);
      var rest, line := raw[1 + |above|..], raw[..1 + |above|];
      var row := UnfilteredRow(FilterOf(raw[0]).value, channels, raw[1..1 + |above|], above);
      assert line[1..] == raw[1..1 + |above|];
      UnfilteredRestores(raw[0], channels, line, above);
      RowsAreRestored(channels, height - 1, rest, row);
      OneMoreRow(channels, above, raw, row, Rows(channels, height - 1, rest, row).value);
    }
  }

  lemma OneMoreRow(channels: nat, above: seq<Byte>, raw: seq<Byte>, row: seq<Byte>, below: seq<seq<Byte>>)
    requires |raw| == (1 + |below|) * (1 + |above|) && |row| == |above|
    requires 1 + |above| <= |raw| && |raw[1 + |above|..]| == |below| * (1 + |above|)
    requires RowRestored(channels, raw[..1 + |above|], above, row) && Restored(channels, row, raw[1 + |above|..], below)
    ensures Restored(channels, above, raw, [row] + below)
  {
    hide RowRestored;
    var rows := [row] + below;
    hide LineAt;
    FirstLine(raw, |above|, |rows|);
    forall r | 0 <= r < |rows|
      ensures RowRestored(channels, LineAt(raw, |above|, |rows|, r), RowAbove(above, rows, r), rows[r])
    {
      if r > 0 {
        LineOfRest(raw, |above|, |rows|, r);
        LaterRow(row, below, above, r);
      }
    }
  }

  lemma FirstLine(raw: seq<Byte>, rowBytes: nat, rows: nat)
    requires 0 < rows && |raw| == rows * (1 + rowBytes)
    ensures 1 + rowBytes <= |raw| && LineAt(raw, rowBytes, rows, 0) == raw[..1 + rowBytes]
  {
  }

  lemma LaterRow(row: seq<Byte>, below: seq<seq<Byte>>, above: seq<Byte>, r: nat)
    requires 0 < r <= |below|
    ensures RowAbove(above, [row] + below, r) == RowAbove(row, below, r - 1) && ([row] + below)[r] == below[r - 1]
  {
  }

  // Above the first row everything is zero.
  lemma NothingAbove(n: nat, i: nat)
    requires i < n
    ensures Zeros(n)[i] == 0
  {
  }

  // ---------- colour ----------

  // Gray is replicated, RGB copied, and alpha dropped; colour types 0, 2 and 6.
  lemma ColorTypes(colorType: Byte)
    ensures Channels(colorType) == if colorType == 0 then Some(1) else if colorType == 2 then Some(3)
                                   else if colorType == 6 then Some(4) else None
  {
  }

  lemma RenderedAt(channels: nat, rows: seq<seq<Byte>>, width: nat, y: nat, x: nat, c: nat)
    requires (channels == 1 || channels == 3 || channels == 4) && y < |rows| && x < width && c < 3
    requires forall r :: 0 <= r < |rows| ==> |rows[r]| == channels * width
    ensures var k := RgbOffset(width, y, x, c);
            && k == 3 * (width * y + x) + c
            && k < |RgbImage(channels, rows, width)|
            && RgbImage(channels, rows, width)[k]
               == (if channels == 1 then rows[y][x] else if channels == 3 then rows[y][3 * x + c] else rows[y][4 * x + c])
  {
    hide RgbImage;
    RgbImageAt(channels, rows, width, y, x, c);
    assert 3 * (width * y) == 3 * width * y;
  }

  // ---------- chunks ----------

  // A chunk is length, type, data and the checksum of type and data.
  lemma ChunkIsRead(data: seq<Byte>, offset: nat, codec: Codec)
    ensures ReadChunk(data, offset, codec)
         == if offset + 8 > |data| then Err(ChunkTruncated)
            else
              var end := offset + 8 + Number(data[offset..offset + 4]);
              if end + 4 > |data| then Err(ChunkTruncated)
              else if codec.crc(data[offset + 4..end]) != Number(data[end..end + 4]) then Err(ChunkCrcInvalid)
              else Ok(Read(Chunk(data[offset + 4..offset + 8], data[offset + 8..end]), end + 4))
  {
    if offset + 8 <= |data| {
      NumberIsBigEndian(data[offset..offset + 4]);
      var end := offset + 8 + Number(data[offset..offset + 4]);
      if end + 4 <= |data| {
        NumberIsBigEndian(data[end..end + 4]);
      }
    }
  }

  // ---------- the header ----------

  // The eight bytes of the signature and the chunk types.
  lemma SignatureAndTypes()
    ensures Signature == [137, 80, 78, 71, 13, 10, 26, 10]
    ensures IhdrType == [73, 72, 68, 82] && IdatType == [73, 68, 65, 84] && IendType == [73, 69, 78, 68]
  {
  }

  // The fields of a header of thirteen bytes, and the first of them that is refused.
  function FieldsOf(payload: seq<Byte>, maxWidth: int, maxHeight: int): Result<Ihdr, PngError>
    requires |payload| >= 33
  {
    var width, height := Number(payload[16..20]), Number(payload[20..24]);
    if !(1 <= width <= maxWidth) || !(1 <= height <= maxHeight) then Err(DimensionBoundExceeded)
    else if payload[25] != 0 && payload[25] != 2 && payload[25] != 6 then Err(ColorTypeUnsupported)
    else if payload[24] != 8 then Err(BitDepthUnsupported)
    else if payload[26] != 0 || payload[27] != 0 then Err(HeaderInvalid)
    else if payload[28] != 0 then Err(InterlaceUnsupported)
    else Ok(Ihdr(width, height, if payload[25] == 0 then 1 else if payload[25] == 2 then 3 else 4))
  }

  lemma HeaderOnBytes(payload: seq<Byte>, kind: seq<Byte>, maxWidth: nat, maxHeight: nat)
    requires |payload| >= 33
    ensures HeaderOf(Chunk(kind, payload[16..29]), maxWidth, maxHeight)
         == if kind != [73, 72, 68, 82] then Err(HeaderInvalid) else FieldsOf(payload, maxWidth, maxHeight)
  {
    var data := payload[16..29];
    NumberIsBigEndian(payload[16..20]);
    NumberIsBigEndian(payload[20..24]);
    assert data[0..4] == payload[16..20] && data[4..8] == payload[20..24];
    assert data[8] == payload[24] && data[9] == payload[25] && data[10] == payload[26] && data[11] == payload[27]
        && data[12] == payload[28];
  }

  // The header of a payload, or the first thing that is wrong with it.
  function HeaderIn(payload: seq<Byte>, maxWidth: int, maxHeight: int, codec: Codec): Result<Ihdr, PngError> {
    if |payload| < 16 || payload[..8] != [137, 80, 78, 71, 13, 10, 26, 10] then Err(SignatureInvalid)
    else
      var n := Number(payload[8..12]);
      if |payload| < 20 + n then Err(ChunkTruncated)
      else if codec.crc(payload[12..16 + n]) != Number(payload[16 + n..20 + n]) then Err(ChunkCrcInvalid)
      else if payload[12..16] != [73, 72, 68, 82] || n != 13 then Err(HeaderInvalid)
      else FieldsOf(payload, maxWidth, maxHeight)
  }

  lemma HeaderIsParsed(payload: seq<Byte>, maxWidth: nat, maxHeight: nat, codec: Codec)
    ensures ParseIhdr(payload, maxWidth, maxHeight, codec) == HeaderIn(payload, maxWidth, maxHeight, codec)
  {
    hide FieldsOf, ReadChunk;
    if |payload| >= 16 && payload[..8] == Signature {
      ChunkIsRead(payload, 8, codec);
      if ReadChunk(payload, 8, codec).Ok? {
        var c := ReadChunk(payload, 8, codec).value.chunk;
        if |c.data| == 13 {
          HeaderOnBytes(payload, c.kind, maxWidth, maxHeight);
        }
      }
    }
  }

  // Where an accepted file has its fields, what they may be, and what the image takes
  // from them.
  lemma AcceptedHeader(payload: seq<Byte>, maxWidth: int, maxHeight: int, maxOutput: int, codec: Codec)
    requires Decode(payload, maxWidth, maxHeight, maxOutput, codec).Ok?
    ensures var image := Decode(payload, maxWidth, maxHeight, maxOutput, codec).value;
            && |payload| >= 33
            && payload[..16] == [137, 80, 78, 71, 13, 10, 26, 10, 0, 0, 0, 13, 73, 72, 68, 82]
            && image.width == Number(payload[16..20]) && image.height == Number(payload[20..24])
            && payload[24] == 8 && (payload[25] == 0 || payload[25] == 2 || payload[25] == 6)
            && payload[26] == 0 && payload[27] == 0 && payload[28] == 0
            && codec.crc(payload[12..29]) == Number(payload[29..33])
            && image.stride == 3 * image.width && |image.pixels| == 3 * image.width * image.height
            && 0 < image.width <= maxWidth <= 32768 && 0 < image.height <= maxHeight <= 32768
            && 3 * image.width * image.height <= maxOutput <= 536870912
  {
    hide PixelStream, IdatParts, Rows, RgbImage, ParseIhdr;
    HeaderIsParsed(payload, maxWidth, maxHeight, codec);
    LengthIsThirteen(payload[8..12]);
    assert payload[..16] == payload[..8] + payload[8..12] + payload[12..16];
  }

  lemma LengthIsThirteen(s: seq<Byte>)
    requires |s| == 4 && Number(s) == 13
    ensures s == [0, 0, 0, 13]
  {
  }

  // ---------- the pixel stream ----------

  lemma {:induction false} FedExactly(parts: seq<seq<Byte>>, n: nat, limit: nat, codec: Codec)
    requires n <= |parts|
    ensures Feed(parts, n, limit, codec).Ok? <==>
            forall k :: 0 < k <= n ==>
              codec.inflate(Concat(parts[..k]), limit).Inflated? && |codec.inflate(Concat(parts[..k]), limit).output| < limit
    ensures 0 < n && Feed(parts, n, limit, codec).Ok? ==>
              Feed(parts, n, limit, codec).value == codec.inflate(Concat(parts[..n]), limit)
  {
    if n > 0 {
      FedExactly(parts, n - 1, limit, codec);
    }
  }

  // A stream is taken exactly when it stays below the limit part by part and ends, with
  // nothing after it, in as many bytes as the scanlines have.
  lemma StreamExactly(parts: seq<seq<Byte>>, width: nat, height: nat, channels: nat, raw: seq<Byte>, codec: Codec)
    ensures var n := height * (1 + channels * width);
            PixelStream(parts, Ihdr(width, height, channels), codec) == Ok(raw) <==>
              && parts != []
              && (forall k :: 0 < k <= |parts| ==>
                    && codec.inflate(Concat(parts[..k]), n + 1).Inflated?
                    && |codec.inflate(Concat(parts[..k]), n + 1).output| <= n)
              && codec.inflate(Concat(parts), n + 1) == Inflated(raw, true, false)
              && |raw| == n
  {
    FedExactly(parts, |parts|, height * (1 + channels * width) + 1, codec);
    assert parts[..|parts|] == parts;
  }

  // ---------- the image ----------

  // Every byte of a decoded image is the component of a row that was restored, from the
  // scanline of the inflated stream and the row above it, nothing being above the first.
  lemma DecodedImageIsRestored(payload: seq<Byte>, maxWidth: int, maxHeight: int, maxOutput: int, codec: Codec)
    returns (channels: nat, raw: seq<Byte>, rows: seq<seq<Byte>>)
    requires Decode(payload, maxWidth, maxHeight, maxOutput, codec).Ok?
    ensures |payload| >= 33
    ensures channels == if payload[25] == 0 then 1 else if payload[25] == 2 then 3 else 4
    ensures var image := Decode(payload, maxWidth, maxHeight, maxOutput, codec).value;
            && |rows| == image.height && (forall r :: 0 <= r < |rows| ==> |rows[r]| == channels * image.width)
            && Restored(channels, seq(channels * image.width, i => 0), raw, rows)
            && image.pixels == RgbImage(channels, rows, image.width)
  {
    hide PixelStream, IdatParts, RgbImage, Rows, ParseIhdr, Restored;
    AcceptedHeader(payload, maxWidth, maxHeight, maxOutput, codec);
    HeaderIsParsed(payload, maxWidth, maxHeight, codec);
    var ihdr := ParseIhdr(payload, maxWidth, maxHeight, codec).value;
    channels := ihdr.channels;
    raw := PixelStream(IdatParts(payload, BODY_OFFSET, codec).value, ihdr, codec).value;
    rows := Rows(channels, ihdr.height, raw, Zeros(channels * ihdr.width)).value;
    RowsAreRestored(channels, ihdr.height, raw, Zeros(channels * ihdr.width));
    assert Zeros(channels * ihdr.width) == seq(channels * ihdr.width, i => 0);
  }

  // ---------- what is refused, and why ----------

  // The first thing that is wrong names the error.
  lemma RefusedFor(payload: seq<Byte>, maxWidth: int, maxHeight: int, maxOutput: int, codec: Codec)
    ensures var r := Decode(payload, maxWidth, maxHeight, maxOutput, codec);
            if !(1 <= maxWidth <= 32768) || !(1 <= maxHeight <= 32768) || !(1 <= maxOutput <= 536870912) then
              r == Err(BoundInvalid)
            else
              var header := HeaderIn(payload, maxWidth, maxHeight, codec);
              if header.Err? then r == Err(header.error)
              else if 3 * header.value.width * header.value.height > maxOutput then r == Err(OutputBoundExceeded)
              else
                var parts := IdatParts(payload, 33, codec);
                if parts.Err? then r == Err(parts.error)
                else r.Ok? || r == Err(PixelPayloadInvalid) || r == Err(StreamCorrupt) || r == Err(FilterUnsupported)
  {
    hide IdatParts, Rows, RgbImage, ParseIhdr, HeaderIn;
    if 1 <= maxWidth <= 32768 && 1 <= maxHeight <= 32768 {
      HeaderIsParsed(payload, maxWidth, maxHeight, codec);
    }
    var header := ParseIhdr(payload, if maxWidth > 0 then maxWidth else 0, if maxHeight > 0 then maxHeight else 0, codec);
    if header.Ok? && IdatParts(payload, 33, codec).Ok? {
      StreamErrors(IdatParts(payload, 33, codec).value, header.value, codec);
    }
  }

  lemma {:induction false} FeedErrors(parts: seq<seq<Byte>>, n: nat, limit: nat, codec: Codec)
    requires n <= |parts|
    ensures var r := Feed(parts, n, limit, codec); r.Ok? || r == Err(StreamCorrupt) || r == Err(PixelPayloadInvalid)
  {
    if n > 0 {
      FeedErrors(parts, n - 1, limit, codec);
    }
  }

  lemma StreamErrors(parts: seq<seq<Byte>>, ihdr: Ihdr, codec: Codec)
    ensures var r := PixelStream(parts, ihdr, codec); r.Ok? || r == Err(StreamCorrupt) || r == Err(PixelPayloadInvalid)
  {
    FeedErrors(parts, |parts|, RawSize(ihdr) + 1, codec);
  }

  // The chunks after the header: what is skipped, what is taken, and what ends the file.
  lemma ChunksAreTaken(data: seq<Byte>, offset: nat, codec: Codec)
    ensures IdatParts(data, offset, codec)
         == if offset >= |data| then Err(ChunkTruncated)
            else
              var read := ReadChunk(data, offset, codec);
              if read.Err? then Err(read.error)
              else if read.value.chunk.kind == [73, 69, 78, 68] then
                if read.value.next == |data| then Ok([]) else Err(TrailingData)
              else
                var rest := IdatParts(data, read.value.next, codec);
                if rest.Ok? && read.value.chunk.kind == [73, 68, 65, 84] then Ok([read.value.chunk.data] + rest.value) else rest
  {
  }
}
