/**
 The PNG container (section 3.2 of RFC 2083 and around it): chunks, the header, the
 pixel stream, the decoder's checks in their order and the encoder. Compression and
 the checksum are functions the codec is given.
 */
module PngContainer {
  import opened Wrappers
  import opened Words
  import opened Sequences
  import opened PngFilters
  import opened PngPixels


  // What an inflater has produced once it was fed a stream under an output limit.
  datatype Inflation = Broken | Inflated(output: seq<Byte>, eof: bool, unused: bool)

  datatype Codec = Codec(crc: seq<Byte> -> Word,
                         compress: seq<Byte> -> seq<Byte>,
                         inflate: (seq<Byte>, nat) -> Inflation)

  const Signature: seq<Byte> := [0x89, 0x50, 0x4E, 0x47, 0x0D, 0x0A, 0x1A, 0x0A]
  const IhdrType: seq<Byte> := [0x49, 0x48, 0x44, 0x52]
  const IdatType: seq<Byte> := [0x49, 0x44, 0x41, 0x54]
  const IendType: seq<Byte> := [0x49, 0x45, 0x4E, 0x44]
  // The first chunk after the header starts here.
  const BODY_OFFSET := 33

  // ---------- chunks ----------

  datatype Chunk = Chunk(kind: seq<Byte>, data: seq<Byte>)

  predicate Printable(c: Chunk) {
    |c.kind| == 4 && |c.data| < 0x1_0000_0000
  }

  function PrintChunk(c: Chunk, codec: Codec): (s: seq<Byte>)
    requires Printable(c)
    ensures |s| == 12 + |c.data|
  {
    ToBytes4(|c.data|) + c.kind + c.data + ToBytes4(codec.crc(c.kind + c.data))
  }

  datatype Read = Read(chunk: Chunk, next: nat)

  function ReadChunk(data: seq<Byte>, offset: nat, codec: Codec): (r: Result<Read, PngError>)
    ensures r.Ok? ==> offset + 12 <= r.value.next <= |data| && Printable(r.value.chunk)
  {
    if offset + 8 > |data| then Err(ChunkTruncated)
    else
      var length := FromBytes4(data[offset..offset + 4]);
      var kind := data[offset + 4..offset + 8];
      var start := offset + 8;
      var end := start + length;
      if end + 4 > |data| then Err(ChunkTruncated)
      else if codec.crc(data[offset + 4..end]) != FromBytes4(data[end..end + 4]) then Err(ChunkCrcInvalid)
      else Ok(Read(Chunk(kind, data[start..end]), end + 4))
  }

  // Reading undoes printing, wherever the chunk stands.
  lemma ReadsBack(before: seq<Byte>, c: Chunk, after: seq<Byte>, codec: Codec)
    requires Printable(c)
    ensures ReadChunk(before + PrintChunk(c, codec) + after, |before|, codec)
         == Ok(Read(c, |before| + 12 + |c.data|))
  {
    var data := before + PrintChunk(c, codec) + after;
    var o := |before|;
    FourBytesRoundTrip(|c.data|);
    FourBytesRoundTrip(codec.crc(c.kind + c.data));
    assert data[o..o + 4] == ToBytes4(|c.data|);
    assert data[o + 4..o + 8] == c.kind;
    assert data[o + 8..o + 8 + |c.data|] == c.data;
    assert data[o + 4..o + 8 + |c.data|] == c.kind + c.data;
    assert data[o + 8 + |c.data|..o + 12 + |c.data|] == ToBytes4(codec.crc(c.kind + c.data));
  }

  // And what is read is what was printed there.
  lemma PrintsBack(data: seq<Byte>, offset: nat, codec: Codec)
    requires ReadChunk(data, offset, codec).Ok?
    ensures var r := ReadChunk(data, offset, codec).value;
            data[offset..r.next] == PrintChunk(r.chunk, codec)
  {
    var r := ReadChunk(data, offset, codec).value;
    var end := r.next - 4;
    FourBytesUnique(data[offset..offset + 4]);
    FourBytesUnique(data[end..r.next]);
    assert r.chunk.kind + r.chunk.data == data[offset + 4..end];
    assert data[offset..r.next] == data[offset..offset + 4] + data[offset + 4..end] + data[end..r.next];
  }

  // ---------- the header ----------

  datatype Ihdr = Ihdr(width: nat, height: nat, channels: nat)

  function Channels(colorType: Byte): Option<nat> {
    if colorType == 0 then Some(1)
    else if colorType == 2 then Some(3)
    else if colorType == 6 then Some(4)
    else None
  }

  function ParseIhdr(data: seq<Byte>, maxWidth: nat, maxHeight: nat, codec: Codec): (r: Result<Ihdr, PngError>)
    ensures r.Ok? ==> 0 < r.value.width <= maxWidth && 0 < r.value.height <= maxHeight && ChannelCount(r.value.channels)
  {
    if |data| < 16 || data[..8] != Signature then Err(SignatureInvalid)
    else
      var first := ReadChunk(data, 8, codec);
      if first.Err? then Err(first.error)
      else HeaderOf(first.value.chunk, maxWidth, maxHeight)
  }

  function HeaderOf(c: Chunk, maxWidth: nat, maxHeight: nat): (r: Result<Ihdr, PngError>)
    ensures r.Ok? ==> 0 < r.value.width <= maxWidth && 0 < r.value.height <= maxHeight && ChannelCount(r.value.channels)
  {
    if c.kind != IhdrType || |c.data| != 13 then Err(HeaderInvalid)
    else
      var width := FromBytes4(c.data[0..4]);
      var height := FromBytes4(c.data[4..8]);
      if !(0 < width <= maxWidth) || !(0 < height <= maxHeight) then Err(DimensionBoundExceeded)
      else if Channels(c.data[9]).None? then Err(ColorTypeUnsupported)
      else if c.data[8] != 8 then Err(BitDepthUnsupported)
      else if c.data[10] != 0 || c.data[11] != 0 then Err(HeaderInvalid)
      else if c.data[12] != 0 then Err(InterlaceUnsupported)
      else Ok(Ihdr(width, height, Channels(c.data[9]).value))
  }

  function HeaderChunk(width: Word, height: Word, colorType: Byte): (c: Chunk)
    ensures Printable(c) && |c.data| == 13
  {
    Chunk(IhdrType, ToBytes4(width) + ToBytes4(height) + [8, colorType, 0, 0, 0])
  }

  lemma HeaderRoundTrip(width: Word, height: Word, colorType: Byte, maxWidth: nat, maxHeight: nat)
    requires Channels(colorType).Some?
    ensures HeaderOf(HeaderChunk(width, height, colorType), maxWidth, maxHeight)
         == if 0 < width <= maxWidth && 0 < height <= maxHeight
            then Ok(Ihdr(width, height, Channels(colorType).value)) else Err(DimensionBoundExceeded)
  {
    var c := HeaderChunk(width, height, colorType);
    FourBytesRoundTrip(width);
    FourBytesRoundTrip(height);
    assert c.data[0..4] == ToBytes4(width) && c.data[4..8] == ToBytes4(height);
  }

  // ---------- the pixel stream ----------

  // The payloads of the IDAT chunks up to IEND, which must end the file.
  function IdatParts(data: seq<Byte>, offset: nat, codec: Codec): Result<seq<seq<Byte>>, PngError>
    decreases |data| - offset
  {
    if offset >= |data| then Err(ChunkTruncated)
    else
      var read := ReadChunk(data, offset, codec);
      if read.Err? then Err(read.error)
      else
        var c := read.value.chunk;
        if c.kind == IendType then
          if read.value.next < |data| then Err(TrailingData) else Ok([])
        else
          var rest := IdatParts(data, read.value.next, codec);
          if rest.Err? || c.kind != IdatType then rest else Ok([c.data] + rest.value)
  }

  // The inflater after the first n parts, or the error that stops the loop.
  function Feed(parts: seq<seq<Byte>>, n: nat, limit: nat, codec: Codec): (r: Result<Inflation, PngError>)
    requires n <= |parts|
    ensures r.Ok? ==> r.value.Inflated?
  {
    if n == 0 then Ok(Inflated([], false, false))
    else
      var before := Feed(parts, n - 1, limit, codec);
      if before.Err? then before
      else
        var now := codec.inflate(Concat(parts[..n]), limit);
        if now.Broken? then Err(StreamCorrupt)
        else if |now.output| >= limit then Err(PixelPayloadInvalid)
        else Ok(now)
  }

  function RawSize(ihdr: Ihdr): nat {
    ihdr.height * (1 + ihdr.channels * ihdr.width)
  }

  // One byte more than expected is enough to see that there is too much.
  function PixelStream(parts: seq<seq<Byte>>, ihdr: Ihdr, codec: Codec): (r: Result<seq<Byte>, PngError>)
    ensures r.Ok? ==> |r.value| == RawSize(ihdr)
  {
    if parts == [] then Err(PixelPayloadInvalid)
    else
      var fed := Feed(parts, |parts|, RawSize(ihdr) + 1, codec);
      if fed.Err? then Err(fed.error)
      else if !fed.value.eof || fed.value.unused || |fed.value.output| != RawSize(ihdr) then Err(PixelPayloadInvalid)
      else Ok(fed.value.output)
  }

  // The loop over the chunks.
  method CollectIdat(data: seq<Byte>, codec: Codec) returns (r: Result<seq<seq<Byte>>, PngError>)
    ensures r == IdatParts(data, BODY_OFFSET, codec)
  {
    var parts: seq<seq<Byte>> := [];
    var offset := BODY_OFFSET;
    var sawIend := false;
    AfterNone(IdatParts(data, BODY_OFFSET, codec));
    while offset < |data| && !sawIend
      invariant sawIend ==> offset <= |data|
      invariant IdatParts(data, BODY_OFFSET, codec)
             == if sawIend then (if offset < |data| then Err(TrailingData) else Ok(parts))
                else After(parts, IdatParts(data, offset, codec))
      decreases !sawIend, |data| - offset
    {
      var read := ReadChunk(data, offset, codec);
      if read.Err? {
        return Err(read.error);
      }
      offset := read.value.next;
      if read.value.chunk.kind == IendType {
        AfterAll(parts);
        sawIend := true;
      } else if read.value.chunk.kind == IdatType {
        AfterOneMore(parts, read.value.chunk.data, IdatParts(data, offset, codec));
        parts := parts + [read.value.chunk.data];
      }
    }
    if !sawIend {
      return Err(ChunkTruncated);
    }
    if offset < |data| {
      return Err(TrailingData);
    }
    r := Ok(parts);
  }

  // The loop over the collected payloads.
  method InflateParts(parts: seq<seq<Byte>>, ihdr: Ihdr, codec: Codec) returns (r: Result<seq<Byte>, PngError>)
    ensures r == PixelStream(parts, ihdr, codec)
  {
    if parts == [] {
      return Err(PixelPayloadInvalid);
    }
    var expectedRaw := RawSize(ihdr);
    var limit := expectedRaw + 1;
    var inflater := Inflated([], false, false);
    var k := 0;
    while k < |parts|
      invariant k <= |parts| && inflater.Inflated? && Feed(parts, k, limit, codec) == Ok(inflater)
    {
      var now := codec.inflate(Concat(parts[..k + 1]), limit);
      k := k + 1;
      if now.Broken? {
        FeedStops(parts, k, limit, codec);
        return Err(StreamCorrupt);
      }
      if |now.output| >= limit {
        FeedStops(parts, k, limit, codec);
        return Err(PixelPayloadInvalid);
      }
      inflater := now;
    }
    if !inflater.eof || inflater.unused || |inflater.output| != expectedRaw {
      return Err(PixelPayloadInvalid);
    }
    r := Ok(inflater.output);
  }

  method InflatePixelStream(data: seq<Byte>, ihdr: Ihdr, codec: Codec) returns (r: Result<seq<Byte>, PngError>)
    ensures var parts := IdatParts(data, BODY_OFFSET, codec);
            r == if parts.Err? then Err(parts.error) else PixelStream(parts.value, ihdr, codec)
  {
    var parts := CollectIdat(data, codec);
    if parts.Err? {
      return Err(parts.error);
    }
    r := InflateParts(parts.value, ihdr, codec);
  }

  lemma AfterNone(rest: Result<seq<seq<Byte>>, PngError>)
    ensures After([], rest) == rest
  {
    assert rest.Ok? ==> [] + rest.value == rest.value;
  }

  lemma AfterAll(done: seq<seq<Byte>>)
    ensures After(done, Ok([])) == Ok(done)
  {
    assert done + [] == done;
  }

  function After(done: seq<seq<Byte>>, rest: Result<seq<seq<Byte>>, PngError>): Result<seq<seq<Byte>>, PngError> {
    if rest.Err? then rest else Ok(done + rest.value)
  }

  lemma AfterOneMore(done: seq<seq<Byte>>, part: seq<Byte>, rest: Result<seq<seq<Byte>>, PngError>)
    ensures After(done, if rest.Err? then rest else Ok([part] + rest.value)) == After(done + [part], rest)
  {
    if rest.Ok? {
      assert done + ([part] + rest.value) == done + [part] + rest.value;
    }
  }

  // Once the loop stops with an error, later parts do not matter.
  lemma {:induction false} FeedStops(parts: seq<seq<Byte>>, n: nat, limit: nat, codec: Codec)
    requires n <= |parts| && Feed(parts, n, limit, codec).Err?
    ensures Feed(parts, |parts|, limit, codec) == Feed(parts, n, limit, codec)
    decreases |parts| - n
  {
    if n < |parts| {
      assert Feed(parts, n + 1, limit, codec) == Feed(parts, n, limit, codec);
      FeedStops(parts, n + 1, limit, codec);
    }
  }

  // ---------- the decoder ----------

  datatype PngImage = PngImage(width: nat, height: nat, stride: nat, pixels: seq<Byte>)

  function Decode(payload: seq<Byte>, maxWidth: int, maxHeight: int, maxOutput: int, codec: Codec)
    : (r: Result<PngImage, PngError>)
  {
    if !(0 < maxWidth <= MAX_DIMENSION) || !(0 < maxHeight <= MAX_DIMENSION) then Err(BoundInvalid)
    else if !(0 < maxOutput <= MAX_PIXEL_BYTES) then Err(BoundInvalid)
    else
      var header := ParseIhdr(payload, maxWidth, maxHeight, codec);
      if header.Err? then Err(header.error)
      else DecodeBody(payload, header.value, maxOutput, codec)
  }

  function DecodeBody(payload: seq<Byte>, ihdr: Ihdr, maxOutput: nat, codec: Codec): Result<PngImage, PngError>
    requires ChannelCount(ihdr.channels)
  {
    if ihdr.width * 3 * ihdr.height > maxOutput then Err(OutputBoundExceeded)
    else
      var parts := IdatParts(payload, BODY_OFFSET, codec);
      if parts.Err? then Err(parts.error)
      else
        var raw := PixelStream(parts.value, ihdr, codec);
        if raw.Err? then Err(raw.error)
        else ImageOf(raw.value, ihdr)
  }

  function ImageOf(raw: seq<Byte>, ihdr: Ihdr): Result<PngImage, PngError>
    requires ChannelCount(ihdr.channels) && |raw| == RawSize(ihdr)
  {
    var zeros := Zeros(ihdr.channels * ihdr.width);
    var pixels := Converted(ihdr.channels, Rows(ihdr.channels, ihdr.height, raw, zeros), ihdr.width);
    if pixels.Err? then Err(pixels.error)
    else Ok(PngImage(ihdr.width, ihdr.height, ihdr.width * 3, pixels.value))
  }

  method DecodePngRgb8(payload: seq<Byte>, maxWidth: int, maxHeight: int, maxOutput: int, codec: Codec)
    returns (r: Result<PngImage, PngError>)
    ensures r == Decode(payload, maxWidth, maxHeight, maxOutput, codec)
    ensures r.Ok? ==> |r.value.pixels| == r.value.width * 3 * r.value.height <= maxOutput
  {
    hide ParseIhdr, IdatParts, PixelStream, Rows, Converted, Zeros;
    if !(0 < maxWidth <= MAX_DIMENSION) || !(0 < maxHeight <= MAX_DIMENSION) {
      return Err(BoundInvalid);
    }
    if !(0 < maxOutput <= MAX_PIXEL_BYTES) {
      return Err(BoundInvalid);
    }
    var header := ParseIhdr(payload, maxWidth, maxHeight, codec);
    if header.Err? {
      return Err(header.error);
    }
    var ihdr := header.value;
    if ihdr.width * 3 * ihdr.height > maxOutput {
      return Err(OutputBoundExceeded);
    }
    var raw := InflatePixelStream(payload, ihdr, codec);
    if raw.Err? {
      return Err(raw.error);
    }
    var pixels := UnfilterAndConvert(raw.value, ihdr.width, ihdr.height, ihdr.channels);
    if pixels.Err? {
      return Err(pixels.error);
    }
    r := Ok(PngImage(ihdr.width, ihdr.height, ihdr.width * 3, pixels.value));
  }
}
