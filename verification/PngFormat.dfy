/**
 Which payloads the decoder accepts: exactly the PNG files of section 3.2 of RFC 2083
 whose pixel stream is made of filtered scanlines. This is the converse of the round trip.
 */
module PngFormat {
  import opened Wrappers
  import opened Words
  import opened Sequences
  import opened PngFilters
  import opened PngPixels
  import opened PngContainer
  import opened PngRoundTrip

  // What a file is put together from.
  datatype Png = Png(width: Word, height: Word, colorType: Byte, body: seq<Chunk>, end: Chunk)

  predicate WellFormed(p: Png) {
    Channels(p.colorType).Some? && Ends(p.end) && forall c :: c in p.body ==> Printable(c) && c.kind != IendType
  }

  // The payload is the signature, the header, the chunks and the last chunk, as printed.
  predicate IsPng(payload: seq<Byte>, p: Png, codec: Codec) {
    WellFormed(p) && payload == FileEnding(HeaderChunk(p.width, p.height, p.colorType), p.body, p.end, codec)
  }

  function HeaderOfPng(p: Png): Ihdr
    requires WellFormed(p)
  {
    Ihdr(p.width, p.height, Channels(p.colorType).value)
  }

  // What its pixel stream inflates to.
  function RawOf(p: Png, codec: Codec): Result<seq<Byte>, PngError>
    requires WellFormed(p)
  {
    PixelStream(Idats(p.body), HeaderOfPng(p), codec)
  }

  // The stream is the filtered scanlines of these rows.
  predicate Scanlines(p: Png, rows: seq<seq<Byte>>, filters: seq<Filter>, codec: Codec) {
    && WellFormed(p) && |rows| == |filters| == p.height
    && (forall r :: 0 <= r < |rows| ==> |rows[r]| == Channels(p.colorType).value * p.width)
    && RawOf(p, codec) == Ok(Stream(Channels(p.colorType).value, rows, filters, Zeros(Channels(p.colorType).value * p.width)))
  }

  // And the image is their RGB rendering.
  predicate Shows(p: Png, rows: seq<seq<Byte>>, filters: seq<Filter>, image: PngImage, codec: Codec) {
    && Scanlines(p, rows, filters, codec)
    && image == PngImage(p.width, p.height, p.width * 3, RgbImage(Channels(p.colorType).value, rows, p.width))
  }

  predicate Fits(p: Png, maxWidth: int, maxHeight: int, maxOutput: int) {
    && BoundsValid(maxWidth, maxHeight, maxOutput)
    && 0 < p.width <= maxWidth && 0 < p.height <= maxHeight && p.width * 3 * p.height <= maxOutput
  }

  // ---------- what was accepted was printed ----------

  lemma NextChunk(data: seq<Byte>, offset: nat, codec: Codec)
    requires ReadChunk(data, offset, codec).Ok?
    ensures var r := ReadChunk(data, offset, codec).value;
            && r.next == offset + 12 + |r.chunk.data| <= |data| && Printable(r.chunk)
            && data[offset..] == PrintChunk(r.chunk, codec) + data[r.next..]
  {
    PrintsBack(data, offset, codec);
    var r := ReadChunk(data, offset, codec).value;
    assert data[offset..] == data[offset..r.next] + data[r.next..];
  }

  // The chunks that the loop went over, and the one it ended at.
  lemma {:induction false} ChunksOf(data: seq<Byte>, offset: nat, codec: Codec) returns (body: seq<Chunk>, end: Chunk)
    requires IdatParts(data, offset, codec).Ok?
    ensures Ends(end) && forall c :: c in body ==> Printable(c) && c.kind != IendType
    ensures offset <= |data| && data[offset..] == Body(body + [end], codec)
    ensures IdatParts(data, offset, codec).value == Idats(body)
    decreases |data| - offset
  {
    hide ReadChunk, PrintChunk;
    NextChunk(data, offset, codec);
    var r := ReadChunk(data, offset, codec).value;
    if r.chunk.kind == IendType {
      body, end := [], r.chunk;
      assert [] + [end] == [end] && [end][1..] == [];
      assert Body([end], codec) == PrintChunk(end, codec) + Body([], codec);
    } else {
      var rest: seq<Chunk>;
      rest, end := ChunksOf(data, r.next, codec);
      body := [r.chunk] + rest;
      assert body[1..] == rest && (body + [end])[0] == r.chunk && (body + [end])[1..] == rest + [end];
    }
  }

  lemma HeaderComesBack(c: Chunk, maxWidth: nat, maxHeight: nat) returns (width: Word, height: Word, colorType: Byte)
    requires HeaderOf(c, maxWidth, maxHeight).Ok?
    ensures Channels(colorType).Some? && c == HeaderChunk(width, height, colorType)
    ensures HeaderOf(c, maxWidth, maxHeight).value == Ihdr(width, height, Channels(colorType).value)
  {
    width, height, colorType := FromBytes4(c.data[0..4]), FromBytes4(c.data[4..8]), c.data[9];
    FourBytesUnique(c.data[0..4]);
    FourBytesUnique(c.data[4..8]);
    assert c.data == c.data[0..4] + c.data[4..8] + [8, colorType, 0, 0, 0];
  }

  // ---------- both directions ----------

  // How a well-formed file decodes.
  lemma PngDecodes(payload: seq<Byte>, p: Png, maxWidth: int, maxHeight: int, maxOutput: int, codec: Codec)
    requires IsPng(payload, p, codec) && Fits(p, maxWidth, maxHeight, maxOutput)
    ensures Decode(payload, maxWidth, maxHeight, maxOutput, codec)
         == if RawOf(p, codec).Err? then Err(RawOf(p, codec).error) else ImageOf(RawOf(p, codec).value, HeaderOfPng(p))
  {
    hide HeaderOf, HeaderChunk, ParseIhdr, IdatParts, PixelStream, Idats, ImageOf, Body, PrintChunk;
    var header := HeaderChunk(p.width, p.height, p.colorType);
    HeaderReadsBack(header, Body(p.body + [p.end], codec), maxWidth, maxHeight, codec);
    HeaderRoundTrip(p.width, p.height, p.colorType, maxWidth, maxHeight);
    BodyReadsBack(Signature + PrintChunk(header, codec), p.body, p.end, codec);
  }

  lemma DecodedIsPng(payload: seq<Byte>, maxWidth: int, maxHeight: int, maxOutput: int, codec: Codec) returns (p: Png)
    requires Decode(payload, maxWidth, maxHeight, maxOutput, codec).Ok?
    ensures IsPng(payload, p, codec) && Fits(p, maxWidth, maxHeight, maxOutput)
  {
    hide PixelStream, ImageOf, IdatParts, Idats, ReadChunk, HeaderOf, PrintChunk, HeaderChunk;
    var first := ReadChunk(payload, 8, codec).value;
    NextChunk(payload, 8, codec);
    var width, height, colorType := HeaderComesBack(first.chunk, maxWidth, maxHeight);
    HeaderLength(first.chunk, maxWidth, maxHeight);
    var body, end := ChunksOf(payload, BODY_OFFSET, codec);
    p := Png(width, height, colorType, body, end);
    assert payload == payload[..8] + payload[8..];
    assert payload == Signature + (PrintChunk(first.chunk, codec) + Body(body + [end], codec));
  }

  lemma HeaderLength(c: Chunk, maxWidth: nat, maxHeight: nat)
    requires HeaderOf(c, maxWidth, maxHeight).Ok?
    ensures |c.data| == 13
    ensures 0 < HeaderOf(c, maxWidth, maxHeight).value.width <= maxWidth
    ensures 0 < HeaderOf(c, maxWidth, maxHeight).value.height <= maxHeight
  {
  }

  // A stream that is unfiltered without an error is the filtered scanlines of the rows.
  lemma ImageHasScanlines(p: Png, codec: Codec) returns (rows: seq<seq<Byte>>, filters: seq<Filter>)
    requires WellFormed(p) && RawOf(p, codec).Ok? && ImageOf(RawOf(p, codec).value, HeaderOfPng(p)).Ok?
    ensures Scanlines(p, rows, filters, codec)
  {
    hide PixelStream, Stream, Idats;
    var channels, raw := Channels(p.colorType).value, RawOf(p, codec).value;
    var zeros := Zeros(channels * p.width);
    rows := Rows(channels, p.height, raw, zeros).value;
    filters := RowsComeBack(channels, p.height, raw, zeros);
  }

  lemma ScanlinesDecode(p: Png, rows: seq<seq<Byte>>, filters: seq<Filter>, codec: Codec)
    requires Scanlines(p, rows, filters, codec)
    ensures exists image :: Shows(p, rows, filters, image, codec) && ImageOf(RawOf(p, codec).value, HeaderOfPng(p)) == Ok(image)
  {
    hide PixelStream, Stream, Idats, Rows, RgbImage;
    FilteredImagesDecode(Channels(p.colorType).value, p.width, rows, filters);
    var image := PngImage(p.width, p.height, p.width * 3, RgbImage(Channels(p.colorType).value, rows, p.width));
    assert Shows(p, rows, filters, image, codec);
  }

  // Nothing else decodes: a payload is accepted, and with this image, exactly when it is a
  // PNG file within the bounds whose stream is the filtered scanlines of the image's rows.
  lemma DecodesExactlyPngs(payload: seq<Byte>, maxWidth: int, maxHeight: int, maxOutput: int, codec: Codec, image: PngImage)
    ensures Decode(payload, maxWidth, maxHeight, maxOutput, codec) == Ok(image)
            <==> exists p, rows, filters ::
                   IsPng(payload, p, codec) && Fits(p, maxWidth, maxHeight, maxOutput) && Shows(p, rows, filters, image, codec)
  {
    hide Decode, ImageOf, RawOf, Shows, Scanlines, IsPng, Fits, HeaderOfPng;
    if Decode(payload, maxWidth, maxHeight, maxOutput, codec) == Ok(image) {
      var p := DecodedIsPng(payload, maxWidth, maxHeight, maxOutput, codec);
      PngIsWellFormed(payload, p, codec);
      PngDecodes(payload, p, maxWidth, maxHeight, maxOutput, codec);
      var rows, filters := ImageHasScanlines(p, codec);
      ScanlinesDecode(p, rows, filters, codec);
    }
    forall p, rows, filters |
      IsPng(payload, p, codec) && Fits(p, maxWidth, maxHeight, maxOutput) && Shows(p, rows, filters, image, codec)
      ensures Decode(payload, maxWidth, maxHeight, maxOutput, codec) == Ok(image)
    {
      ShowsOne(p, rows, filters, image, codec);
      PngDecodes(payload, p, maxWidth, maxHeight, maxOutput, codec);
      ScanlinesDecode(p, rows, filters, codec);
    }
  }

  lemma PngIsWellFormed(payload: seq<Byte>, p: Png, codec: Codec)
    requires IsPng(payload, p, codec)
    ensures WellFormed(p)
  {
  }

  // The rows and filters show one image.
  lemma ShowsOne(p: Png, rows: seq<seq<Byte>>, filters: seq<Filter>, image: PngImage, codec: Codec)
    requires Shows(p, rows, filters, image, codec)
    ensures Scanlines(p, rows, filters, codec) && WellFormed(p) && RawOf(p, codec).Ok?
    ensures forall other :: Shows(p, rows, filters, other, codec) ==> other == image
  {
  }
}
