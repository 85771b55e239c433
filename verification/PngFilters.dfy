/**
 Scanline filters (sections 6.1 to 6.6 of RFC 2083): the predictors, filtering as
 an encoder applies it, the recursion a decoder follows to undo it, and the proof
 that one inverts the other row by row and image by image.
 */
module PngFilters {
  import opened Wrappers
  import opened Words

  datatype Filter = NoFilter | Sub | Up | Average | Paeth

  function FilterCode(f: Filter): Byte {
    match f
    case NoFilter => 0
    case Sub => 1
    case Up => 2
    case Average => 3
    case Paeth => 4
  }

  function FilterOf(code: Byte): Option<Filter> {
    if code == 0 then Some(NoFilter)
    else if code == 1 then Some(Sub)
    else if code == 2 then Some(Up)
    else if code == 3 then Some(Average)
    else if code == 4 then Some(Paeth)
    else None
  }

  function Distance(a: int, b: int): nat {
    if a < b then b - a else a - b
  }

  function PaethPredictor(left: Byte, up: Byte, upLeft: Byte): Byte {
    var base := left + up - upLeft;
    if Distance(base, left) <= Distance(base, up) && Distance(base, left) <= Distance(base, upLeft) then left
    else if Distance(base, up) <= Distance(base, upLeft) then up
    else upLeft
  }

  // The predictor is the neighbour nearest to left + up - upLeft; ties go to the
  // left one, then to the upper one.
  lemma PaethIsNearest(left: Byte, up: Byte, upLeft: Byte, candidate: Byte)
    requires candidate == left || candidate == up || candidate == upLeft
    ensures var p := PaethPredictor(left, up, upLeft);
            var base := left + up - upLeft;
            && (p == left || p == up || p == upLeft)
            && Distance(base, p) <= Distance(base, candidate)
            && (Distance(base, p) == Distance(base, left) ==> p == left)
            && (Distance(base, p) == Distance(base, up) && p != left ==> p == up)
  {
  }

  function Predict(f: Filter, left: Byte, up: Byte, upLeft: Byte): Byte {
    match f
    case NoFilter => 0
    case Sub => left
    case Up => up
    case Average => (left + up) / 2
    case Paeth => PaethPredictor(left, up, upLeft)
  }

  // The byte one pixel to the left, or zero at the row's start.
  function LeftOf(row: seq<Byte>, channels: nat, i: nat): Byte
    requires i < |row| + channels && 0 < channels
  {
    if i < channels then 0 else row[i - channels]
  }

  // ---------- filtering, as an encoder does it ----------

  function FilteredByte(f: Filter, channels: nat, row: seq<Byte>, prior: seq<Byte>, i: nat): Byte
    requires i < |row| == |prior| && 0 < channels
  {
    (row[i] - Predict(f, LeftOf(row, channels, i), prior[i], LeftOf(prior, channels, i))) % 256
  }

  function FilteredRow(f: Filter, channels: nat, row: seq<Byte>, prior: seq<Byte>): (data: seq<Byte>)
    requires |row| == |prior| && 0 < channels
    ensures |data| == |row|
  {
    seq(|row|, i requires 0 <= i < |row| => FilteredByte(f, channels, row, prior, i))
  }

  // ---------- unfiltering, as a decoder does it ----------

  // The first n bytes of the row, each built from the ones before it.
  function Unfiltered(f: Filter, channels: nat, data: seq<Byte>, prior: seq<Byte>, n: nat): (row: seq<Byte>)
    requires n <= |data| == |prior| && 0 < channels
    ensures |row| == n
  {
    if n == 0 then []
    else
      var before := Unfiltered(f, channels, data, prior, n - 1);
      before + [UnfilteredByte(f, channels, before, data, prior)]
  }

  // The next byte after the ones already unfiltered.
  function UnfilteredByte(f: Filter, channels: nat, before: seq<Byte>, data: seq<Byte>, prior: seq<Byte>): Byte
    requires |before| < |data| == |prior| && 0 < channels
  {
    var i := |before|;
    (data[i] + Predict(f, LeftOf(before, channels, i), prior[i], LeftOf(prior, channels, i))) % 256
  }

  function UnfilteredRow(f: Filter, channels: nat, data: seq<Byte>, prior: seq<Byte>): (row: seq<Byte>)
    requires |data| == |prior| && 0 < channels
    ensures |row| == |data|
  {
    Unfiltered(f, channels, data, prior, |data|)
  }

  lemma AddBack(x: Byte, p: Byte)
    ensures ((x - p) % 256 + p) % 256 == x
  {
  }

  lemma ByteInverts(f: Filter, channels: nat, row: seq<Byte>, prior: seq<Byte>, i: nat)
    requires i < |row| == |prior| && 0 < channels
    ensures UnfilteredByte(f, channels, row[..i], FilteredRow(f, channels, row, prior), prior) == row[i]
  {
    hide Predict;
    assert LeftOf(row[..i], channels, i) == LeftOf(row, channels, i);
    AddBack(row[i], Predict(f, LeftOf(row, channels, i), prior[i], LeftOf(prior, channels, i)));
  }

  lemma {:induction false} UnfilterInverts(f: Filter, channels: nat, row: seq<Byte>, prior: seq<Byte>, n: nat)
    requires n <= |row| == |prior| && 0 < channels
    ensures Unfiltered(f, channels, FilteredRow(f, channels, row, prior), prior, n) == row[..n]
  {
    hide UnfilteredByte, FilteredRow;
    if n > 0 {
      UnfilterInverts(f, channels, row, prior, n - 1);
      ByteInverts(f, channels, row, prior, n - 1);
      assert row[..n] == row[..n - 1] + [row[n - 1]];
    }
  }

  // Undoing a filter gives back the row, for every filter, width and channel count.
  lemma RowRoundTrip(f: Filter, channels: nat, row: seq<Byte>, prior: seq<Byte>)
    requires |row| == |prior| && 0 < channels
    ensures UnfilteredRow(f, channels, FilteredRow(f, channels, row, prior), prior) == row
  {
    UnfilterInverts(f, channels, row, prior, |row|);
    assert row[..|row|] == row;
  }

  // The other way round, a row that was unfiltered is the data again when filtered.
  lemma {:induction false} UnfilteredAt(f: Filter, channels: nat, data: seq<Byte>, prior: seq<Byte>, n: nat, i: nat)
    requires i < n <= |data| == |prior| && 0 < channels
    ensures Unfiltered(f, channels, data, prior, n)[..i] == Unfiltered(f, channels, data, prior, i)
    ensures Unfiltered(f, channels, data, prior, n)[i]
         == UnfilteredByte(f, channels, Unfiltered(f, channels, data, prior, i), data, prior)
    decreases n
  {
    hide UnfilteredByte;
    var before := Unfiltered(f, channels, data, prior, n - 1);
    if i < n - 1 {
      UnfilteredAt(f, channels, data, prior, n - 1, i);
      assert Unfiltered(f, channels, data, prior, n)[..i] == before[..i];
    } else {
      assert Unfiltered(f, channels, data, prior, n)[..i] == before;
    }
  }

  lemma TakeBack(x: Byte, p: Byte)
    ensures ((x + p) % 256 - p) % 256 == x
  {
  }

  lemma ByteComesBack(f: Filter, channels: nat, row: seq<Byte>, data: seq<Byte>, prior: seq<Byte>, i: nat)
    requires i < |row| == |data| == |prior| && 0 < channels
    requires row[i] == UnfilteredByte(f, channels, row[..i], data, prior)
    ensures FilteredByte(f, channels, row, prior, i) == data[i]
  {
    hide Predict;
    assert LeftOf(row[..i], channels, i) == LeftOf(row, channels, i);
    TakeBack(data[i], Predict(f, LeftOf(row, channels, i), prior[i], LeftOf(prior, channels, i)));
  }

  lemma DataComesBack(f: Filter, channels: nat, data: seq<Byte>, prior: seq<Byte>)
    requires |data| == |prior| && 0 < channels
    ensures FilteredRow(f, channels, UnfilteredRow(f, channels, data, prior), prior) == data
  {
    hide FilteredByte, UnfilteredByte, Unfiltered;
    var row := UnfilteredRow(f, channels, data, prior);
    forall i | 0 <= i < |data| ensures FilteredByte(f, channels, row, prior, i) == data[i] {
      UnfilteredAt(f, channels, data, prior, |data|, i);
      ByteComesBack(f, channels, row, data, prior, i);
    }
  }

  // ---------- whole images ----------

  function Zeros(n: nat): (row: seq<Byte>)
    ensures |row| == n
  {
    seq(n, i => 0)
  }

  // A pixel stream is a sequence of scanlines: a filter code and the filtered bytes.
  function Stream(channels: nat, rows: seq<seq<Byte>>, filters: seq<Filter>, prior: seq<Byte>): (raw: seq<Byte>)
    requires |rows| == |filters| && 0 < channels
    requires forall r :: 0 <= r < |rows| ==> |rows[r]| == |prior|
    ensures |raw| == |rows| * (1 + |prior|)
  {
    if rows == [] then []
    else
      [FilterCode(filters[0])] + FilteredRow(filters[0], channels, rows[0], prior)
      + Stream(channels, rows[1..], filters[1..], rows[0])
  }

  function Consed(row: seq<Byte>, rest: Option<seq<seq<Byte>>>): Option<seq<seq<Byte>>> {
    if rest.None? then None else Some([row] + rest.value)
  }

  // The rows of a stream, or None at the first unknown filter code.
  function Rows(channels: nat, height: nat, raw: seq<Byte>, prior: seq<Byte>): (rows: Option<seq<seq<Byte>>>)
    requires 0 < channels && |raw| == height * (1 + |prior|)
    ensures rows.Some? ==> |rows.value| == height && forall r :: 0 <= r < height ==> |rows.value[r]| == |prior|
    decreases height
  {
    if height == 0 then Some([])
    else
      LineFits(height, |prior|);
      var f := FilterOf(raw[0]);
      if f.None? then None
      else
        var row := UnfilteredRow(f.value, channels, raw[1..1 + |prior|], prior);
        Consed(row, Rows(channels, height - 1, raw[1 + |prior|..], row))
  }

  lemma LineFits(height: nat, rowBytes: nat)
    requires height > 0
    ensures height * (1 + rowBytes) == (1 + rowBytes) + (height - 1) * (1 + rowBytes)
  {
  }

  lemma SplitLine(code: Byte, line: seq<Byte>, rest: seq<Byte>)
    ensures var raw := [code] + line + rest;
            raw[0] == code && raw[1..1 + |line|] == line && raw[1 + |line|..] == rest
  {
  }

  lemma RowsOfLine(channels: nat, height: nat, f: Filter, line: seq<Byte>, rest: seq<Byte>, prior: seq<Byte>)
    requires 0 < channels && 0 < height && |line| == |prior| && |rest| == (height - 1) * (1 + |prior|)
    ensures |[FilterCode(f)] + line + rest| == height * (1 + |prior|)
    ensures var row := UnfilteredRow(f, channels, line, prior);
            Consed(row, Rows(channels, height - 1, rest, row))
            == Rows(channels, height, [FilterCode(f)] + line + rest, prior)
  {
    LineFits(height, |prior|);
    SplitLine(FilterCode(f), line, rest);
  }

  // Every choice of one filter per row is undone.
  lemma {:induction false} ImageRoundTrip(channels: nat, rows: seq<seq<Byte>>, filters: seq<Filter>, prior: seq<Byte>)
    requires |rows| == |filters| && 0 < channels
    requires forall r :: 0 <= r < |rows| ==> |rows[r]| == |prior|
    ensures Rows(channels, |rows|, Stream(channels, rows, filters, prior), prior) == Some(rows)
    decreases |rows|
  {
    if rows != [] {
      var line := FilteredRow(filters[0], channels, rows[0], prior);
      var rest := Stream(channels, rows[1..], filters[1..], rows[0]);
      RowsOfLine(channels, |rows|, filters[0], line, rest, prior);
      RowRoundTrip(filters[0], channels, rows[0], prior);
      ImageRoundTrip(channels, rows[1..], filters[1..], rows[0]);
      assert [rows[0]] + rows[1..] == rows;
    }
  }

  // Whatever unfilters at all is a stream of the rows it unfilters to.
  lemma {:induction false} RowsComeBack(channels: nat, height: nat, raw: seq<Byte>, prior: seq<Byte>) returns (filters: seq<Filter>)
    requires 0 < channels && |raw| == height * (1 + |prior|) && Rows(channels, height, raw, prior).Some?
    ensures |filters| == height
    ensures Stream(channels, Rows(channels, height, raw, prior).value, filters, prior) == raw
    decreases height
  {
    hide FilteredRow, UnfilteredRow;
    filters := [];
    if height > 0 {
      LineFits(height, |prior|);
      var f, line, rest := FilterOf(raw[0]).value, raw[1..1 + |prior|], raw[1 + |prior|..];
      var row := UnfilteredRow(f, channels, line, prior);
      DataComesBack(f, channels, line, prior);
      var others := RowsComeBack(channels, height - 1, rest, row);
      filters := [f] + others;
      var rows := Rows(channels, height, raw, prior).value;
      assert rows == [row] + Rows(channels, height - 1, rest, row).value && filters[1..] == others;
      assert FilterCode(f) == raw[0];
      assert raw == [raw[0]] + line + rest;
    }
  }

  // The codes of all lines are those of the first and of the rest.
  lemma CodesOfLines(height: nat, raw: seq<Byte>, rowBytes: nat, below: nat, rest: seq<Byte>)
    requires height == below + 1 && |raw| == height * (1 + rowBytes)
    requires rest == raw[1 + rowBytes..] && |rest| == below * (1 + rowBytes)
    ensures (forall r :: 0 <= r < height ==> CodeAt(raw, height, rowBytes, r) <= 4)
            <==> raw[0] <= 4 && forall r :: 0 <= r < below ==> CodeAt(rest, below, rowBytes, r) <= 4
  {
    assert CodeAt(raw, height, rowBytes, 0) == raw[0];
    forall r | 0 < r < height
      ensures CodeAt(raw, height, rowBytes, r) == CodeAt(rest, below, rowBytes, r - 1)
    {
      NextLineCode(raw, height, rowBytes, r);
    }
    if forall r :: 0 <= r < height ==> CodeAt(raw, height, rowBytes, r) <= 4 {
      forall r | 0 <= r < below ensures CodeAt(rest, below, rowBytes, r) <= 4 {
        assert CodeAt(raw, height, rowBytes, r + 1) <= 4;
      }
    }
  }

  // Decoding fails on an unknown filter code, and on nothing else.
  lemma {:induction false} RowsFailOnlyOnFilters(channels: nat, height: nat, raw: seq<Byte>, prior: seq<Byte>)
    requires 0 < channels && |raw| == height * (1 + |prior|)
    ensures Rows(channels, height, raw, prior).Some? <==>
            forall r :: 0 <= r < height ==> CodeAt(raw, height, |prior|, r) <= 4
    decreases height
  {
    hide CodeAt, UnfilteredRow;
    if height > 0 {
      LineFits(height, |prior|);
      CodesOfLines(height, raw, |prior|, height - 1, raw[1 + |prior|..]);
      var f := FilterOf(raw[0]);
      if f.Some? {
        RowsFailOnlyOnFilters(channels, height - 1, raw[1 + |prior|..],
                              UnfilteredRow(f.value, channels, raw[1..1 + |prior|], prior));
      }
    }
  }

  lemma NextLineCode(raw: seq<Byte>, height: nat, rowBytes: nat, r: nat)
    requires |raw| == height * (1 + rowBytes) && 0 < r < height
    ensures |raw[1 + rowBytes..]| == (height - 1) * (1 + rowBytes)
    ensures CodeAt(raw, height, rowBytes, r) == CodeAt(raw[1 + rowBytes..], height - 1, rowBytes, r - 1)
  {
    LineFits(height, rowBytes);
    CodeIndex(height, rowBytes, r);
    CodeIndex(height - 1, rowBytes, r - 1);
    assert r * (1 + rowBytes) == (r - 1) * (1 + rowBytes) + (1 + rowBytes);
  }

  lemma CodeIndex(height: nat, rowBytes: nat, r: nat)
    requires r < height
    ensures 0 <= r * (1 + rowBytes) < height * (1 + rowBytes)
  {
    assert (r + 1) * (1 + rowBytes) <= height * (1 + rowBytes);
  }

  function CodeAt(raw: seq<Byte>, height: nat, rowBytes: nat, r: nat): Byte
    requires |raw| == height * (1 + rowBytes) && r < height
  {
    CodeIndex(height, rowBytes, r);
    raw[r * (1 + rowBytes)]
  }
}
