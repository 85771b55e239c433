/**
 The PNG encoder, and the proof that the decoder inverts it: for every size, stride
 padding, filter choice and way of cutting the compressed stream into chunks.
 */
module PngRoundTrip {
  import opened Wrappers
  import opened Words
  import opened Sequences
  import opened PngFilters
  import opened PngPixels
  import opened PngContainer

  // ---------- files as sequences of chunks ----------

  function Body(chunks: seq<Chunk>, codec: Codec): seq<Byte>
    requires forall c :: c in chunks ==> Printable(c)
  {
    if chunks == [] then [] else PrintChunk(chunks[0], codec) + Body(chunks[1..], codec)
  }

  const End := Chunk(IendType, [])

  // Only the kind of the last chunk matters.
  predicate Ends(c: Chunk) {
    Printable(c) && c.kind == IendType
  }

  function FileEnding(header: Chunk, body: seq<Chunk>, end: Chunk, codec: Codec): seq<Byte>
    requires Printable(header) && Ends(end) && forall c :: c in body ==> Printable(c)
  {
    Signature + PrintChunk(header, codec) + Body(body + [end], codec)
  }

  function File(header: Chunk, body: seq<Chunk>, codec: Codec): seq<Byte>
    requires Printable(header) && forall c :: c in body ==> Printable(c)
  {
    FileEnding(header, body, End, codec)
  }

  // The payloads of the IDAT chunks, in order.
  function Idats(chunks: seq<Chunk>): seq<seq<Byte>> {
    if chunks == [] then []
    else if chunks[0].kind == IdatType then [chunks[0].data] + Idats(chunks[1..])
    else Idats(chunks[1..])
  }

  lemma EndReadsBack(before: seq<Byte>, end: Chunk, codec: Codec)
    requires Ends(end)
    ensures IdatParts(before + PrintChunk(end, codec), |before|, codec) == Ok([])
  {
    assert before + PrintChunk(end, codec) + [] == before + PrintChunk(end, codec);
    ReadsBack(before, end, [], codec);
  }

  lemma ChunkReadsBack(before: seq<Byte>, c: Chunk, rest: seq<Byte>, codec: Codec)
    requires Printable(c) && c.kind != IendType
    ensures var printed := before + PrintChunk(c, codec);
            var later := IdatParts(printed + rest, |printed|, codec);
            later.Ok? ==>
              IdatParts(printed + rest, |before|, codec)
              == Ok(if c.kind == IdatType then [c.data] + later.value else later.value)
  {
    hide PrintChunk, ReadChunk;
    ReadsBack(before, c, rest, codec);
  }

  // Reading the chunks of a file gives back its IDAT payloads; other chunks are skipped.
  lemma {:induction false} BodyReadsBack(before: seq<Byte>, chunks: seq<Chunk>, end: Chunk, codec: Codec)
    requires Ends(end) && forall c :: c in chunks ==> Printable(c) && c.kind != IendType
    ensures IdatParts(before + Body(chunks + [end], codec), |before|, codec) == Ok(Idats(chunks))
    decreases |chunks|
  {
    hide PrintChunk, ReadChunk, IdatParts;
    if chunks == [] {
      assert chunks + [end] == [end];
      assert Body([end], codec) == PrintChunk(end, codec) + [];
      assert Body([end], codec) == PrintChunk(end, codec);
      EndReadsBack(before, end, codec);
    } else {
      var printed := before + PrintChunk(chunks[0], codec);
      var rest := Body(chunks[1..] + [end], codec);
      assert (chunks + [end])[1..] == chunks[1..] + [end];
      assert before + Body(chunks + [end], codec) == printed + rest;
      ChunkReadsBack(before, chunks[0], rest, codec);
      BodyReadsBack(printed, chunks[1..], end, codec);
    }
  }

  lemma HeaderReadsBack(header: Chunk, rest: seq<Byte>, maxWidth: nat, maxHeight: nat, codec: Codec)
    requires Printable(header) && |header.data| == 13
    ensures ParseIhdr(Signature + PrintChunk(header, codec) + rest, maxWidth, maxHeight, codec)
         == HeaderOf(header, maxWidth, maxHeight)
  {
    ReadsBack(Signature, header, rest, codec);
    assert (Signature + PrintChunk(header, codec) + rest)[..8] == Signature;
  }

  // ---------- the compressed stream ----------

  // What the inflater may have produced from the first bytes of compressed `raw`.
  predicate Faithful(now: Inflation, raw: seq<Byte>, whole: bool) {
    && now.Inflated? && !now.unused && now.output <= raw
    && (whole ==> now.eof && now.output == raw)
  }

  // Inflating undoes compressing, and a prefix of the stream yields a prefix.
  ghost predicate Inverse(codec: Codec) {
    forall raw: seq<Byte>, limit: nat, n: nat :: |raw| < limit && n <= |codec.compress(raw)| ==>
      Faithful(codec.inflate(codec.compress(raw)[..n], limit), raw, n == |codec.compress(raw)|)
  }

  lemma {:induction false} ConcatPrefix(parts: seq<seq<Byte>>, n: nat)
    requires n <= |parts|
    ensures Concat(parts[..n]) <= Concat(parts)
    decreases |parts| - n
  {
    if n == |parts| {
      assert parts[..n] == parts;
    } else {
      ConcatPrefix(parts, n + 1);
      assert parts[..n + 1][..n] == parts[..n];
    }
  }

  lemma {:induction false} FeedingYieldsPrefixes(parts: seq<seq<Byte>>, n: nat, raw: seq<Byte>, codec: Codec)
    requires Inverse(codec) && Concat(parts) == codec.compress(raw) && 0 < n <= |parts|
    ensures Feed(parts, n, |raw| + 1, codec) == Ok(codec.inflate(Concat(parts[..n]), |raw| + 1))
  {
    if n > 1 {
      FeedingYieldsPrefixes(parts, n - 1, raw, codec);
    }
    ConcatPrefix(parts, n);
    var size := |Concat(parts[..n])|;
    assert Concat(parts[..n]) == codec.compress(raw)[..size];
    assert Faithful(codec.inflate(codec.compress(raw)[..size], |raw| + 1), raw, size == |codec.compress(raw)|);
  }

  lemma StreamReadsBack(parts: seq<seq<Byte>>, raw: seq<Byte>, ihdr: Ihdr, codec: Codec)
    requires Inverse(codec) && parts != [] && Concat(parts) == codec.compress(raw) && |raw| == RawSize(ihdr)
    ensures PixelStream(parts, ihdr, codec) == Ok(raw)
  {
    FeedingYieldsPrefixes(parts, |parts|, raw, codec);
    assert parts[..|parts|] == parts;
    var size := |codec.compress(raw)|;
    assert codec.compress(raw)[..size] == codec.compress(raw);
    assert Faithful(codec.inflate(codec.compress(raw)[..size], |raw| + 1), raw, true);
  }

  // ---------- decoding any file that was put together like this ----------

  predicate BoundsValid(maxWidth: int, maxHeight: int, maxOutput: int) {
    && 0 < maxWidth <= MAX_DIMENSION && 0 < maxHeight <= MAX_DIMENSION
    && 0 < maxOutput <= MAX_PIXEL_BYTES
  }

  // The scanlines of an image, each with its own filter, compressed and cut into any
  // number of IDAT chunks, between any other chunks.
  predicate Holds(body: seq<Chunk>, channels: nat, width: nat, rows: seq<seq<Byte>>, filters: seq<Filter>, codec: Codec)
    requires ChannelCount(channels) && |rows| == |filters|
    requires forall r :: 0 <= r < |rows| ==> |rows[r]| == channels * width
  {
    && (forall c :: c in body ==> Printable(c) && c.kind != IendType)
    && Idats(body) != []
    && Concat(Idats(body)) == codec.compress(Stream(channels, rows, filters, Zeros(channels * width)))
  }

  function Expected(width: Word, height: Word, maxWidth: int, maxHeight: int, maxOutput: int, pixels: seq<Byte>)
    : Result<PngImage, PngError>
  {
    if !(0 < width <= maxWidth) || !(0 < height <= maxHeight) then Err(DimensionBoundExceeded)
    else if width * 3 * height > maxOutput then Err(OutputBoundExceeded)
    else Ok(PngImage(width, height, width * 3, pixels))
  }

  lemma BodyDecodes(file: seq<Byte>, body: seq<Chunk>, ihdr: Ihdr, rows: seq<seq<Byte>>, filters: seq<Filter>,
                    maxOutput: nat, codec: Codec)
    requires ChannelCount(ihdr.channels) && |rows| == |filters| == ihdr.height && Inverse(codec)
    requires forall r :: 0 <= r < |rows| ==> |rows[r]| == ihdr.channels * ihdr.width
    requires Holds(body, ihdr.channels, ihdr.width, rows, filters, codec)
    requires IdatParts(file, BODY_OFFSET, codec) == Ok(Idats(body))
    ensures DecodeBody(file, ihdr, maxOutput, codec)
         == if ihdr.width * 3 * ihdr.height > maxOutput then Err(OutputBoundExceeded)
            else Ok(PngImage(ihdr.width, ihdr.height, ihdr.width * 3, RgbImage(ihdr.channels, rows, ihdr.width)))
  {
    hide Rows, RgbImage, IdatParts, Stream, PixelStream, Idats;
    var raw := Stream(ihdr.channels, rows, filters, Zeros(ihdr.channels * ihdr.width));
    StreamReadsBack(Idats(body), raw, ihdr, codec);
    FilteredImagesDecode(ihdr.channels, ihdr.width, rows, filters);
  }

  // Whatever filters, chunk boundaries and extra chunks the file has, decoding it
  // gives the image, or the error of the caller's bound it exceeds.
  lemma AnyChunkingDecodes(width: Word, height: Word, colorType: Byte, rows: seq<seq<Byte>>, filters: seq<Filter>,
                           body: seq<Chunk>, maxWidth: int, maxHeight: int, maxOutput: int, codec: Codec)
    requires Channels(colorType).Some? && BoundsValid(maxWidth, maxHeight, maxOutput) && Inverse(codec)
    requires |rows| == |filters| == height
    requires forall r :: 0 <= r < |rows| ==> |rows[r]| == Channels(colorType).value * width
    requires Holds(body, Channels(colorType).value, width, rows, filters, codec)
    ensures Decode(File(HeaderChunk(width, height, colorType), body, codec), maxWidth, maxHeight, maxOutput, codec)
         == Expected(width, height, maxWidth, maxHeight, maxOutput, RgbImage(Channels(colorType).value, rows, width))
  {
    hide DecodeBody, IdatParts, RgbImage, ParseIhdr, HeaderOf, HeaderChunk, Stream, Idats;
    var header := HeaderChunk(width, height, colorType);
    var before := Signature + PrintChunk(header, codec);
    HeaderReadsBack(header, Body(body + [End], codec), maxWidth, maxHeight, codec);
    HeaderRoundTrip(width, height, colorType, maxWidth, maxHeight);
    BodyReadsBack(before, body, End, codec);
    if 0 < width <= maxWidth && 0 < height <= maxHeight {
      BodyDecodes(File(header, body, codec), body, Ihdr(width, height, Channels(colorType).value), rows, filters,
                  maxOutput, codec);
    }
  }

  // ---------- the encoder ----------

  datatype EncodeError = DimensionsOutOfBounds | StrideTooSmall | BufferSizeMismatch
                       | ChunkTooLong   // the length does not fit its four bytes

  function RowAt(width: nat, stride: nat, pixels: seq<Byte>, height: nat, r: nat): (row: seq<Byte>)
    requires 3 * width <= stride && |pixels| == stride * height && r < height
    ensures |row| == 3 * width
  {
    RowInside(stride, height, r);
    pixels[r * stride..r * stride + 3 * width]
  }

  lemma RowInside(stride: nat, height: nat, r: nat)
    requires r < height
    ensures 0 <= r * stride && r * stride + stride <= stride * height
  {
    assert (r + 1) * stride <= height * stride;
  }

  // The first n rows of the buffer without their padding.
  function PixelRows(width: nat, stride: nat, pixels: seq<Byte>, height: nat, n: nat): (rows: seq<seq<Byte>>)
    requires 3 * width <= stride && |pixels| == stride * height && n <= height
    ensures |rows| == n && forall r :: 0 <= r < n ==> |rows[r]| == 3 * width
  {
    seq(n, r requires 0 <= r < n => RowAt(width, stride, pixels, height, r))
  }

  function NoFilters(n: nat): (filters: seq<Filter>)
    ensures |filters| == n
  {
    seq(n, i => NoFilter)
  }

  // Unfiltered scanlines, as the encoder appends them.
  function Plain(rows: seq<seq<Byte>>): seq<Byte> {
    if rows == [] then [] else Plain(rows[..|rows| - 1]) + [0] + rows[|rows| - 1]
  }

  lemma {:induction false} PlainFront(row: seq<Byte>, rows: seq<seq<Byte>>)
    ensures Plain([row] + rows) == [0] + row + Plain(rows)
    decreases |rows|
  {
    var all := [row] + rows;
    if rows == [] {
      assert all[..0] == [];
      assert [] + [0] + row == [0] + row + [];
    } else {
      assert all[..|all| - 1] == [row] + rows[..|rows| - 1];
      PlainFront(row, rows[..|rows| - 1]);
      var init := Plain(rows[..|rows| - 1]);
      assert ([0] + row + init) + [0] + rows[|rows| - 1] == [0] + row + (init + [0] + rows[|rows| - 1]);
    }
  }

  lemma PlainRow(channels: nat, row: seq<Byte>, prior: seq<Byte>)
    requires |row| == |prior| && 0 < channels
    ensures FilteredRow(NoFilter, channels, row, prior) == row
  {
    forall i | 0 <= i < |row| ensures FilteredRow(NoFilter, channels, row, prior)[i] == row[i] {
    }
  }

  // What the encoder appends is the stream whose filter is NONE everywhere.
  lemma {:induction false} PlainIsStream(channels: nat, rows: seq<seq<Byte>>, prior: seq<Byte>)
    requires 0 < channels && forall r :: 0 <= r < |rows| ==> |rows[r]| == |prior|
    ensures Plain(rows) == Stream(channels, rows, NoFilters(|rows|), prior)
    decreases |rows|
  {
    if rows != [] {
      assert rows == [rows[0]] + rows[1..];
      PlainFront(rows[0], rows[1..]);
      PlainRow(channels, rows[0], prior);
      PlainIsStream(channels, rows[1..], rows[0]);
      assert NoFilters(|rows|)[1..] == NoFilters(|rows| - 1);
    }
  }

  function EncodedRaw(width: nat, height: nat, stride: nat, pixels: seq<Byte>): seq<Byte>
    requires 3 * width <= stride && |pixels| == stride * height
  {
    Stream(3, PixelRows(width, stride, pixels, height, height), NoFilters(height), Zeros(3 * width))
  }

  function EncodeFailure(width: int, height: int, stride: int, pixels: seq<Byte>): Option<EncodeError> {
    if width <= 0 || height <= 0 || width > MAX_DIMENSION || height > MAX_DIMENSION then Some(DimensionsOutOfBounds)
    else if stride < 3 * width then Some(StrideTooSmall)
    else if |pixels| != stride * height then Some(BufferSizeMismatch)
    else None
  }

  // The encoder takes an image of 1 to 32768 pixels each way whose lines are long
  // enough and whose buffer is exactly these lines; the first thing wrong is reported.
  lemma EncoderTakes(width: int, height: int, stride: int, pixels: seq<Byte>)
    ensures var sized := 1 <= width <= 32_768 && 1 <= height <= 32_768;
            var r := EncodeFailure(width, height, stride, pixels);
            && (r == Some(DimensionsOutOfBounds) <==> !sized)
            && (r == Some(StrideTooSmall) <==> sized && stride < width + width + width)
            && (r == Some(BufferSizeMismatch) <==> sized && width + width + width <= stride && |pixels| != stride * height)
            && (r == None <==> sized && width + width + width <= stride && |pixels| == stride * height)
  {
  }

  method EncodePngRgb8(width: int, height: int, stride: int, pixels: seq<Byte>, codec: Codec)
    returns (r: Result<seq<Byte>, EncodeError>)
    ensures EncodeFailure(width, height, stride, pixels).Some? ==>
              r == Err(EncodeFailure(width, height, stride, pixels).value)
    ensures EncodeFailure(width, height, stride, pixels).None? ==>
              var idat := Chunk(IdatType, codec.compress(EncodedRaw(width, height, stride, pixels)));
              r == if Printable(idat) then Ok(File(HeaderChunk(width, height, 2), [idat], codec)) else Err(ChunkTooLong)
  {
    hide HeaderChunk, PrintChunk, Stream;
    var rowBytes := width * 3;
    if width <= 0 || height <= 0 || width > MAX_DIMENSION || height > MAX_DIMENSION {
      return Err(DimensionsOutOfBounds);
    }
    if stride < rowBytes {
      return Err(StrideTooSmall);
    }
    if |pixels| != stride * height {
      return Err(BufferSizeMismatch);
    }
    var ihdr := HeaderChunk(width, height, 2);
    var raw: seq<Byte> := [];
    var row := 0;
    while row < height
      invariant row <= height && raw == Plain(PixelRows(width, stride, pixels, height, row))
    {
      RowInside(stride, height, row);
      raw := raw + [0] + pixels[row * stride..row * stride + rowBytes];
      assert PixelRows(width, stride, pixels, height, row + 1)[..row] == PixelRows(width, stride, pixels, height, row);
      row := row + 1;
    }
    PlainIsStream(3, PixelRows(width, stride, pixels, height, height), Zeros(3 * width));
    var idat := Chunk(IdatType, codec.compress(raw));
    if |idat.data| >= 0x1_0000_0000 {
      return Err(ChunkTooLong);
    }
    ThreeChunks(ihdr, idat, codec);
    r := Ok(Signature + PrintChunk(ihdr, codec) + PrintChunk(idat, codec) + PrintChunk(End, codec));
  }

  lemma ThreeChunks(header: Chunk, idat: Chunk, codec: Codec)
    requires Printable(header) && Printable(idat)
    ensures File(header, [idat], codec)
         == Signature + PrintChunk(header, codec) + PrintChunk(idat, codec) + PrintChunk(End, codec)
  {
    var tail := PrintChunk(idat, codec) + PrintChunk(End, codec);
    assert [idat] + [End] == [idat, End] && [idat, End][1..] == [End] && [End][1..] == [];
    assert PrintChunk(End, codec) + [] == PrintChunk(End, codec);
    assert Body([End], codec) == PrintChunk(End, codec);
    assert Body([idat, End], codec) == tail;
    assert Signature + PrintChunk(header, codec) + tail
        == Signature + PrintChunk(header, codec) + PrintChunk(idat, codec) + PrintChunk(End, codec);
  }

  // ---------- the round trip ----------

  // Decoding the encoder's output returns the dimensions and the pixels without
  // their padding, or the error of the bound that the image exceeds.
  lemma EncodedImagesDecode(width: nat, height: nat, stride: nat, pixels: seq<Byte>,
                            maxWidth: int, maxHeight: int, maxOutput: int, codec: Codec)
    requires EncodeFailure(width, height, stride, pixels).None? && Inverse(codec)
    requires BoundsValid(maxWidth, maxHeight, maxOutput)
    requires Printable(Chunk(IdatType, codec.compress(EncodedRaw(width, height, stride, pixels))))
    ensures var idat := Chunk(IdatType, codec.compress(EncodedRaw(width, height, stride, pixels)));
            Decode(File(HeaderChunk(width, height, 2), [idat], codec), maxWidth, maxHeight, maxOutput, codec)
            == Expected(width, height, maxWidth, maxHeight, maxOutput,
                        RgbImage(3, PixelRows(width, stride, pixels, height, height), width))
  {
    hide Stream, Decode, RgbImage, HeaderChunk, File;
    var raw := EncodedRaw(width, height, stride, pixels);
    var idat := Chunk(IdatType, codec.compress(raw));
    assert Idats([idat]) == [idat.data];
    assert Concat([idat.data]) == idat.data;
    AnyChunkingDecodes(width, height, 2, PixelRows(width, stride, pixels, height, height), NoFilters(height),
                       [idat], maxWidth, maxHeight, maxOutput, codec);
  }

  // The decoded buffer holds every component of every pixel, and no padding.
  lemma PackedPixels(width: nat, height: nat, stride: nat, pixels: seq<Byte>, y: nat, x: nat, c: nat)
    requires EncodeFailure(width, height, stride, pixels).None? && y < height && x < width && c < 3
    ensures var packed := RgbImage(3, PixelRows(width, stride, pixels, height, height), width);
            var from, to := y * stride + 3 * x + c, RgbOffset(width, y, x, c);
            && |packed| == 3 * width * height && to < |packed|
            && 0 <= from < |pixels| && packed[to] == pixels[from]
  {
    RgbImageAt(3, PixelRows(width, stride, pixels, height, height), width, y, x, c);
    RowInside(stride, height, y);
  }

  // With its default bounds the decoder accepts an encoded image exactly when its
  // pixels fit 512 MiB; the encoder's own bounds admit larger ones.
  lemma DefaultBoundsAccept(width: nat, height: nat, stride: nat, pixels: seq<Byte>, codec: Codec)
    requires EncodeFailure(width, height, stride, pixels).None? && Inverse(codec)
    requires Printable(Chunk(IdatType, codec.compress(EncodedRaw(width, height, stride, pixels))))
    ensures var idat := Chunk(IdatType, codec.compress(EncodedRaw(width, height, stride, pixels)));
            Decode(File(HeaderChunk(width, height, 2), [idat], codec), MAX_DIMENSION, MAX_DIMENSION, MAX_PIXEL_BYTES, codec).Ok?
            <==> width * 3 * height <= MAX_PIXEL_BYTES
  {
    hide Stream, Decode, RgbImage, HeaderChunk, File;
    EncodedImagesDecode(width, height, stride, pixels, MAX_DIMENSION, MAX_DIMENSION, MAX_PIXEL_BYTES, codec);
  }

  // ---------- a codec that satisfies the hypothesis ----------

  // Every byte behind a one, and a zero at the end.
  function Stored(raw: seq<Byte>): seq<Byte> {
    if raw == [] then [0] else [1, raw[0]] + Stored(raw[1..])
  }

  function Restored(stream: seq<Byte>): Inflation {
    if stream == [] then Inflated([], false, false)
    else if stream[0] == 0 then Inflated([], true, |stream| > 1)
    else if |stream| == 1 then Inflated([], false, false)
    else
      var rest := Restored(stream[2..]);
      if rest.Broken? then Broken else Inflated([stream[1]] + rest.output, rest.eof, rest.unused)
  }

  lemma {:induction false} RestoredPrefix(raw: seq<Byte>, n: nat)
    requires n <= |Stored(raw)|
    ensures Faithful(Restored(Stored(raw)[..n]), raw, n == |Stored(raw)|)
  {
    var stream := Stored(raw)[..n];
    if raw != [] && n >= 2 {
      RestoredPrefix(raw[1..], n - 2);
      assert stream[2..] == Stored(raw[1..])[..n - 2];
      var rest := Restored(stream[2..]);
      assert [raw[0]] + rest.output <= [raw[0]] + raw[1..] == raw;
    }
  }

  const Storing := Codec((s: seq<Byte>) => 0 as Word, (raw: seq<Byte>) => Stored(raw),
                         (stream: seq<Byte>, limit: nat) => Restored(stream))

  lemma StoringIsInverse()
    ensures Inverse(Storing)
  {
    forall raw: seq<Byte>, limit: nat, n: nat | |raw| < limit && n <= |Storing.compress(raw)|
      ensures Faithful(Storing.inflate(Storing.compress(raw)[..n], limit), raw, n == |Storing.compress(raw)|)
    {
      RestoredPrefix(raw, n);
    }
  }
}
