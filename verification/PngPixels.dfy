/**
 The pixel loops of the PNG decoder, on the byte buffers they change in place, each
 proved against the functions of PngFilters.
 */
module PngPixels {
  import opened Wrappers
  import opened Words
  import opened PngFilters

  datatype PngError =
    | BoundInvalid | OutputBoundExceeded | SignatureInvalid | HeaderInvalid | DimensionBoundExceeded
    | ColorTypeUnsupported | BitDepthUnsupported | InterlaceUnsupported | ChunkTruncated | TrailingData
    | PixelPayloadInvalid | ChunkCrcInvalid | FilterUnsupported
    | StreamCorrupt   // the inflater itself raised

  predicate ChannelCount(channels: nat) {
    channels == 1 || channels == 3 || channels == 4
  }

  // ---------- conversion to RGB ----------

  // Component c of pixel x: gray is replicated, RGB is copied, alpha is dropped.
  function RgbByte(channels: nat, row: seq<Byte>, width: nat, x: nat, c: nat): Byte
    requires ChannelCount(channels) && |row| == channels * width && x < width && c < 3
  {
    if channels == 1 then row[x]
    else if channels == 3 then row[3 * x + c]
    else row[4 * x + c]
  }

  function RgbRow(channels: nat, row: seq<Byte>, width: nat): (rgb: seq<Byte>)
    requires ChannelCount(channels) && |row| == channels * width
    ensures |rgb| == 3 * width
  {
    seq(3 * width, i requires 0 <= i < 3 * width => RgbByte(channels, row, width, i / 3, i % 3))
  }

  function RgbImage(channels: nat, rows: seq<seq<Byte>>, width: nat): (rgb: seq<Byte>)
    requires ChannelCount(channels) && forall r :: 0 <= r < |rows| ==> |rows[r]| == channels * width
    ensures |rgb| == 3 * width * |rows|
  {
    if rows == [] then []
    else
      assert 3 * width * |rows| == 3 * width * (|rows| - 1) + 3 * width;
      RgbImage(channels, rows[..|rows| - 1], width) + RgbRow(channels, rows[|rows| - 1], width)
  }

  method WriteRgb8Row(target: array<Byte>, offset: nat, row: array<Byte>, channels: nat, width: nat) returns (next: nat)
    requires ChannelCount(channels) && row.Length == channels * width
    requires offset + 3 * width <= target.Length && target != row
    modifies target
    ensures next == offset + 3 * width
    ensures target[..next] == old(target[..offset]) + RgbRow(channels, row[..], width)
    ensures target[next..] == old(target[next..])
  {
    hide RgbRow;
    next := offset;
    ghost var rgb := RgbRow(channels, row[..], width);
    var x := 0;
    while x < width
      invariant 0 <= x <= width && next == offset + 3 * x
      invariant forall i :: 0 <= i < 3 * x ==> target[offset + i] == rgb[i]
      invariant forall j :: 0 <= j < offset || next <= j < target.Length ==> target[j] == old(target[j])
    {
      RgbRowAt(channels, row[..], width, x);
      if channels == 1 {
        target[next], target[next + 1], target[next + 2] := row[x], row[x], row[x];
      } else {
        target[next], target[next + 1], target[next + 2] := row[channels * x], row[channels * x + 1], row[channels * x + 2];
      }
      next, x := next + 3, x + 1;
    }
  }

  lemma RgbRowAt(channels: nat, row: seq<Byte>, width: nat, x: nat)
    requires ChannelCount(channels) && |row| == channels * width && x < width
    ensures var rgb := RgbRow(channels, row, width);
            && rgb[3 * x] == RgbByte(channels, row, width, x, 0)
            && rgb[3 * x + 1] == RgbByte(channels, row, width, x, 1)
            && rgb[3 * x + 2] == RgbByte(channels, row, width, x, 2)
  {
    Thirds(x);
  }

  lemma Thirds(x: nat)
    ensures (3 * x) / 3 == x && (3 * x + 1) / 3 == x && (3 * x + 2) / 3 == x
    ensures (3 * x) % 3 == 0 && (3 * x + 1) % 3 == 1 && (3 * x + 2) % 3 == 2
  {
  }

  // ---------- undoing a filter in place ----------

  // The state of every unfilter loop: the first i bytes are done.
  ghost predicate DoneUpTo(f: Filter, channels: nat, current: array<Byte>, data: seq<Byte>, prior: seq<Byte>, i: nat)
    requires 0 < channels
    reads current
  {
    && current.Length == |data| == |prior| && i <= |data|
    && current[..i] == Unfiltered(f, channels, data, prior, i)
    && current[i..] == data[i..]
  }

  // One byte more.
  lemma OneMore(f: Filter, channels: nat, before: seq<Byte>, after: seq<Byte>, data: seq<Byte>, prior: seq<Byte>, i: nat)
    requires 0 < channels && i < |data| == |prior| == |before| == |after|
    requires before[..i] == Unfiltered(f, channels, data, prior, i) && before[i..] == data[i..]
    requires after == before[i := (data[i] + Predict(f, LeftOf(before, channels, i), prior[i], LeftOf(prior, channels, i))) % 256]
    ensures after[..i + 1] == Unfiltered(f, channels, data, prior, i + 1) && after[i + 1..] == data[i + 1..]
  {
    assert LeftOf(before, channels, i) == LeftOf(before[..i], channels, i);
    assert after[..i + 1] == before[..i] + [after[i]];
  }

  // The bytes of the first pixel have no left neighbour.
  lemma {:induction false} FirstPixelOfSub(channels: nat, data: seq<Byte>, prior: seq<Byte>, n: nat)
    requires 0 < channels && n <= |data| == |prior| && n <= channels
    ensures Unfiltered(Sub, channels, data, prior, n) == data[..n]
  {
    if n > 0 {
      FirstPixelOfSub(channels, data, prior, n - 1);
      assert data[..n] == data[..n - 1] + [data[n - 1]];
    }
  }

  lemma {:induction false} NothingToUndo(channels: nat, data: seq<Byte>, prior: seq<Byte>, n: nat)
    requires 0 < channels && n <= |data| == |prior|
    ensures Unfiltered(NoFilter, channels, data, prior, n) == data[..n]
  {
    if n > 0 {
      NothingToUndo(channels, data, prior, n - 1);
      assert data[..n] == data[..n - 1] + [data[n - 1]];
    }
  }

  method UndoSub(current: array<Byte>, channels: nat, ghost prior: seq<Byte>)
    requires 0 < channels && current.Length == |prior|
    modifies current
    ensures current[..] == UnfilteredRow(Sub, channels, old(current[..]), prior)
  {
    ghost var data := current[..];
    var index := if channels < current.Length then channels else current.Length;
    FirstPixelOfSub(channels, data, prior, index);
    while index < current.Length
      invariant channels <= index || index == current.Length
      invariant DoneUpTo(Sub, channels, current, data, prior, index)
    {
      ghost var before := current[..];
      current[index] := (current[index] as int + current[index - channels]) % 256;
      OneMore(Sub, channels, before, current[..], data, prior, index);
      index := index + 1;
    }
    assert current[..index] == current[..];
  }

  method UndoUp(current: array<Byte>, channels: nat, previous: array<Byte>)
    requires 0 < channels && current.Length == previous.Length && current != previous
    modifies current
    ensures current[..] == UnfilteredRow(Up, channels, old(current[..]), previous[..])
  {
    ghost var data, prior := current[..], previous[..];
    var index := 0;
    while index < current.Length
      invariant previous[..] == prior
      invariant DoneUpTo(Up, channels, current, data, prior, index)
    {
      ghost var before := current[..];
      current[index] := (current[index] as int + previous[index]) % 256;
      OneMore(Up, channels, before, current[..], data, prior, index);
      index := index + 1;
    }
    assert current[..index] == current[..];
  }

  method UndoAverage(current: array<Byte>, channels: nat, previous: array<Byte>)
    requires 0 < channels && current.Length == previous.Length && current != previous
    modifies current
    ensures current[..] == UnfilteredRow(Average, channels, old(current[..]), previous[..])
  {
    ghost var data, prior := current[..], previous[..];
    var index := 0;
    while index < current.Length
      invariant previous[..] == prior
      invariant DoneUpTo(Average, channels, current, data, prior, index)
    {
      ghost var before := current[..];
      var left: int := if index >= channels then current[index - channels] else 0;
      var prediction := (left + previous[index]) / 2;
      current[index] := (current[index] as int + prediction) % 256;
      OneMore(Average, channels, before, current[..], data, prior, index);
      index := index + 1;
    }
    assert current[..index] == current[..];
  }

  method UndoPaeth(current: array<Byte>, channels: nat, previous: array<Byte>)
    requires 0 < channels && current.Length == previous.Length && current != previous
    modifies current
    ensures current[..] == UnfilteredRow(Paeth, channels, old(current[..]), previous[..])
  {
    ghost var data, prior := current[..], previous[..];
    var index := 0;
    while index < current.Length
      invariant previous[..] == prior
      invariant DoneUpTo(Paeth, channels, current, data, prior, index)
    {
      ghost var before := current[..];
      var left := if index >= channels then current[index - channels] else 0;
      var up := previous[index];
      var upLeft := if index >= channels then previous[index - channels] else 0;
      current[index] := (current[index] + PaethPredictor(left, up, upLeft)) % 256;
      OneMore(Paeth, channels, before, current[..], data, prior, index);
      index := index + 1;
    }
    assert current[..index] == current[..];
  }

  // One scanline; an unknown filter code is the only error.
  method UndoFilter(code: Byte, current: array<Byte>, channels: nat, previous: array<Byte>) returns (known: bool)
    requires 0 < channels && current.Length == previous.Length && current != previous
    modifies current
    ensures known <==> FilterOf(code).Some?
    ensures known ==> current[..] == UnfilteredRow(FilterOf(code).value, channels, old(current[..]), previous[..])
  {
    known := true;
    if code == 0 {
      NothingToUndo(channels, current[..], previous[..], current.Length);
      assert current[..current.Length] == current[..];
    } else if code == 1 {
      UndoSub(current, channels, previous[..]);
    } else if code == 2 {
      UndoUp(current, channels, previous);
    } else if code == 3 {
      UndoAverage(current, channels, previous);
    } else if code == 4 {
      UndoPaeth(current, channels, previous);
    } else {
      known := false;
    }
  }

  // ---------- the whole image ----------

  function Converted(channels: nat, rows: Option<seq<seq<Byte>>>, width: nat): Result<seq<Byte>, PngError>
    requires ChannelCount(channels)
    requires rows.Some? ==> forall r :: 0 <= r < |rows.value| ==> |rows.value[r]| == channels * width
  {
    if rows.None? then Err(FilterUnsupported) else Ok(RgbImage(channels, rows.value, width))
  }

  function Prefixed(done: seq<seq<Byte>>, rest: Option<seq<seq<Byte>>>): Option<seq<seq<Byte>>> {
    if rest.None? then None else Some(done + rest.value)
  }

  // The next scanline of the stream and what remains after it.
  lemma NextLine(channels: nat, height: nat, raw: seq<Byte>, prior: seq<Byte>, done: seq<seq<Byte>>)
    requires 0 < channels && 0 < height && |raw| == height * (1 + |prior|)
    ensures |raw| >= 1 + |prior| && |raw[1 + |prior|..]| == (height - 1) * (1 + |prior|)
    ensures FilterOf(raw[0]).None? ==> Rows(channels, height, raw, prior) == None
    ensures FilterOf(raw[0]).Some? ==>
              var row := UnfilteredRow(FilterOf(raw[0]).value, channels, raw[1..1 + |prior|], prior);
              Prefixed(done, Rows(channels, height, raw, prior))
              == Prefixed(done + [row], Rows(channels, height - 1, raw[1 + |prior|..], row))
  {
    LineFits(height, |prior|);
    if FilterOf(raw[0]).Some? {
      var row := UnfilteredRow(FilterOf(raw[0]).value, channels, raw[1..1 + |prior|], prior);
      var rest := Rows(channels, height - 1, raw[1 + |prior|..], row);
      if rest.Some? {
        assert done + ([row] + rest.value) == done + [row] + rest.value;
      }
    }
  }

  lemma OneRowMore(channels: nat, done: seq<seq<Byte>>, row: seq<Byte>, width: nat)
    requires ChannelCount(channels) && |row| == channels * width
    requires forall r :: 0 <= r < |done| ==> |done[r]| == channels * width
    ensures forall r :: 0 <= r < |done + [row]| ==> |(done + [row])[r]| == channels * width
    ensures RgbImage(channels, done + [row], width) == RgbImage(channels, done, width) + RgbRow(channels, row, width)
  {
    assert (done + [row])[..|done|] == done;
  }

  // The loop body: one scanline is unfiltered into a new buffer and converted.
  method ConvertRow(raw: seq<Byte>, start: nat, width: nat, channels: nat, previous: array<Byte>,
                    target: array<Byte>, offset: nat)
    returns (known: bool, current: array<Byte>, next: nat)
    requires ChannelCount(channels) && previous.Length == channels * width && previous != target
    requires start + 1 + previous.Length <= |raw| && offset + 3 * width <= target.Length
    modifies target
    ensures fresh(current) && current.Length == previous.Length
    ensures known <==> FilterOf(raw[start]).Some?
    ensures known ==> next == offset + 3 * width
    ensures known ==> current[..] == UnfilteredRow(FilterOf(raw[start]).value, channels,
                                                   raw[start + 1..start + 1 + previous.Length], previous[..])
    ensures known ==> target[..next] == old(target[..offset]) + RgbRow(channels, current[..], width)
  {
    var rowBytes := previous.Length;
    current := new Byte[rowBytes](i requires 0 <= i < rowBytes => raw[start + 1 + i]);
    assert current[..] == raw[start + 1..start + 1 + rowBytes];
    known := UndoFilter(raw[start], current, channels, previous);
    next := offset;
    if known {
      next := WriteRgb8Row(target, offset, current, channels, width);
    }
  }

  // The stream half of the image loop: `done` rows are unfiltered, and the stream from
  // `start` on holds the others.
  ghost predicate Undone(raw: seq<Byte>, rowBytes: nat, height: nat, channels: nat,
                         done: seq<seq<Byte>>, start: nat, previous: seq<Byte>)
  {
    && 0 < channels && |raw| == height * (1 + rowBytes) && |done| <= height && |previous| == rowBytes
    && start <= |raw| && |raw[start..]| == (height - |done|) * (1 + rowBytes)
    && Rows(channels, height, raw, Zeros(rowBytes))
       == Prefixed(done, Rows(channels, height - |done|, raw[start..], previous))
  }

  lemma UndoneStarts(raw: seq<Byte>, rowBytes: nat, height: nat, channels: nat)
    requires 0 < channels && |raw| == height * (1 + rowBytes)
    ensures Undone(raw, rowBytes, height, channels, [], 0, Zeros(rowBytes))
  {
    assert raw[0..] == raw;
    NothingDone(Rows(channels, height, raw, Zeros(rowBytes)));
  }

  lemma UndoneGoesOn(raw: seq<Byte>, rowBytes: nat, height: nat, channels: nat, done: seq<seq<Byte>>, start: nat,
                     previous: seq<Byte>)
    requires Undone(raw, rowBytes, height, channels, done, start, previous) && |done| < height
    ensures start + 1 + rowBytes <= |raw|
    ensures FilterOf(raw[start]).None? ==> Rows(channels, height, raw, Zeros(rowBytes)) == None
    ensures FilterOf(raw[start]).Some? ==>
              var row := UnfilteredRow(FilterOf(raw[start]).value, channels, raw[start + 1..start + 1 + rowBytes], previous);
              Undone(raw, rowBytes, height, channels, done + [row], start + 1 + rowBytes, row)
  {
    hide Rows, UnfilteredRow, FilterOf;
    NextLine(channels, height - |done|, raw[start..], previous, done);
    SliceOfSlice(raw, start, 1 + rowBytes);
  }

  lemma UndoneEnds(raw: seq<Byte>, rowBytes: nat, height: nat, channels: nat, done: seq<seq<Byte>>, start: nat,
                   previous: seq<Byte>)
    requires Undone(raw, rowBytes, height, channels, done, start, previous) && |done| == height
    ensures Rows(channels, height, raw, Zeros(rowBytes)) == Some(done)
  {
    AllRowsDone(channels, raw[start..], previous, done);
  }

  // The pixel half: the rows done so far are in the target.
  ghost predicate Written(done: seq<seq<Byte>>, channels: nat, width: nat, pixels: seq<Byte>) {
    && ChannelCount(channels) && (forall k :: 0 <= k < |done| ==> |done[k]| == channels * width)
    && pixels == RgbImage(channels, done, width)
  }

  lemma WrittenGoesOn(done: seq<seq<Byte>>, channels: nat, width: nat, pixels: seq<Byte>, row: seq<Byte>)
    requires Written(done, channels, width, pixels) && |row| == channels * width
    ensures Written(done + [row], channels, width, pixels + RgbRow(channels, row, width))
  {
    OneRowMore(channels, done, row, width);
  }

  lemma WrittenFits(done: seq<seq<Byte>>, channels: nat, width: nat, pixels: seq<Byte>, height: nat)
    requires Written(done, channels, width, pixels) && |done| <= height
    ensures |done| < height ==> |pixels| + 3 * width <= 3 * width * height
    ensures |done| == height ==> |pixels| == 3 * width * height
  {
    if |done| < height {
      RowOffset(width, |done|, height);
    }
  }

  // All rows of the stream, or the first unknown filter code as the error; the result
  // has exactly three bytes per pixel.
  method UnfilterAndConvert(raw: seq<Byte>, width: nat, height: nat, channels: nat) returns (r: Result<seq<Byte>, PngError>)
    requires ChannelCount(channels) && |raw| == height * (1 + channels * width)
    ensures r == Converted(channels, Rows(channels, height, raw, Zeros(channels * width)), width)
    ensures r.Ok? ==> |r.value| == 3 * width * height
  {
    hide Rows, RgbRow, RgbImage, UnfilteredRow, FilterOf, Undone, Written;
    var rowBytes := channels * width;
    var previous := new Byte[rowBytes](_ => 0);
    var target := new Byte[3 * width * height](_ => 0);
    var row, start, targetOffset: nat := 0, 0, 0;
    ghost var done: seq<seq<Byte>> := [];
    UndoneStarts(raw, rowBytes, height, channels);
    NothingWritten(channels, width);
    assert previous[..] == Zeros(rowBytes) && target[..0] == [];
    while row < height
      invariant row == |done| <= height && previous.Length == rowBytes && previous != target
      invariant 0 <= start && 0 <= targetOffset <= target.Length
      invariant Undone(raw, rowBytes, height, channels, done, start, previous[..])
      invariant Written(done, channels, width, target[..targetOffset])
    {
      UndoneGoesOn(raw, rowBytes, height, channels, done, start, previous[..]);
      ghost var pixels := target[..targetOffset];
      WrittenFits(done, channels, width, pixels, height);
      var known, current, next := ConvertRow(raw, start, width, channels, previous, target, targetOffset);
      if !known {
        return Err(FilterUnsupported);
      }
      WrittenGoesOn(done, channels, width, pixels, current[..]);
      done := done + [current[..]];
      previous, targetOffset, start, row := current, next, start + 1 + rowBytes, row + 1;
    }
    UndoneEnds(raw, rowBytes, height, channels, done, start, previous[..]);
    WrittenFits(done, channels, width, target[..targetOffset], height);
    assert target[..targetOffset] == target[..];
    ConvertedRows(channels, done, width, target[..]);
    r := Ok(target[..]);
  }

  lemma NothingWritten(channels: nat, width: nat)
    requires ChannelCount(channels)
    ensures Written([], channels, width, [])
  {
  }

  lemma ConvertedRows(channels: nat, rows: seq<seq<Byte>>, width: nat, pixels: seq<Byte>)
    requires Written(rows, channels, width, pixels)
    ensures forall r :: 0 <= r < |rows| ==> |rows[r]| == channels * width
    ensures Converted(channels, Some(rows), width) == Ok(pixels)
  {
  }

  lemma SliceOfSlice(raw: seq<Byte>, start: nat, n: nat)
    requires start + n <= |raw| && n > 0
    ensures raw[start..][n..] == raw[start + n..] && raw[start..][0] == raw[start]
    ensures raw[start..][1..n] == raw[start + 1..start + n]
  {
  }

  lemma NothingDone(rows: Option<seq<seq<Byte>>>)
    ensures Prefixed([], rows) == rows
  {
    assert rows.Some? ==> [] + rows.value == rows.value;
  }

  lemma AllRowsDone(channels: nat, rest: seq<Byte>, prior: seq<Byte>, done: seq<seq<Byte>>)
    requires 0 < channels && rest == []
    ensures Prefixed(done, Rows(channels, 0, rest, prior)) == Some(done)
  {
    assert done + [] == done;
  }

  // For every image, channel count and choice of one filter per row, the decoder's
  // pixels are the RGB rendering of the rows that were filtered.
  lemma FilteredImagesDecode(channels: nat, width: nat, rows: seq<seq<Byte>>, filters: seq<Filter>)
    requires ChannelCount(channels) && |rows| == |filters|
    requires forall r :: 0 <= r < |rows| ==> |rows[r]| == channels * width
    ensures Converted(channels, Rows(channels, |rows|, Stream(channels, rows, filters, Zeros(channels * width)), Zeros(channels * width)), width)
         == Ok(RgbImage(channels, rows, width))
  {
    ImageRoundTrip(channels, rows, filters, Zeros(channels * width));
  }

  // Every byte of the image is the component of its own pixel.
  lemma {:induction false} RgbImageAt(channels: nat, rows: seq<seq<Byte>>, width: nat, y: nat, x: nat, c: nat)
    requires ChannelCount(channels) && y < |rows| && x < width && c < 3
    requires forall r :: 0 <= r < |rows| ==> |rows[r]| == channels * width
    ensures 3 * width * y + 3 * x + c < 3 * width * |rows|
    ensures RgbImage(channels, rows, width)[3 * width * y + 3 * x + c] == RgbByte(channels, rows[y], width, x, c)
    decreases |rows|
  {
    var last := |rows| - 1;
    RowOffset(width, y, |rows|);
    RowOffset(width, last, |rows|);
    PixelIndex(x, c);
    if y < last {
      RowOffset(width, y, last);
      RgbImageAt(channels, rows[..last], width, y, x, c);
    }
  }

  lemma PixelIndex(x: nat, c: nat)
    requires c < 3
    ensures (3 * x + c) / 3 == x && (3 * x + c) % 3 == c
  {
  }
}
