/**
 The difference hash of an RGB image: 64 comparisons of neighbouring brightness
 samples, gathered into a number bit by bit.
 */
module PerceptualHash {
  import opened Wrappers
  import opened Words
  import AdaptiveModel

  const COLUMNS := 9
  const ROWS := 8

  datatype HashError = BadDimensions | StrideTooSmall | BufferSizeMismatch

  function SampleCoordinate(index: nat, samples: nat, extent: nat): nat
    requires samples > 1 && extent > 0
  {
    if extent == 1 then 0 else index * (extent - 1) / (samples - 1)
  }

  // Samples lie inside the image, in order, and span it from edge to edge.
  lemma SamplesSpanTheImage(index: nat, samples: nat, extent: nat)
    requires (samples == ROWS || samples == COLUMNS) && extent > 0 && index < samples
    ensures SampleCoordinate(index, samples, extent) < extent
    ensures SampleCoordinate(0, samples, extent) == 0
    ensures SampleCoordinate(samples - 1, samples, extent) == extent - 1
    ensures index > 0 ==> SampleCoordinate(index - 1, samples, extent) <= SampleCoordinate(index, samples, extent)
  {
    ProductOrder(index, samples - 1, extent - 1);
    if index > 0 {
      ProductOrder(index - 1, index, extent - 1);
    }
  }

  lemma ProductOrder(a: nat, b: nat, n: nat)
    requires a <= b
    ensures a * n <= b * n
  {
  }

  predicate Fits(pixels: seq<Byte>, width: nat, height: nat, stride: nat) {
    width > 0 && height > 0 && 3 * width <= stride && |pixels| == stride * height
  }

  lemma PixelInside(pixels: seq<Byte>, width: nat, height: nat, stride: nat, x: nat, y: nat)
    requires Fits(pixels, width, height, stride) && x < width && y < height
    ensures 0 <= y * stride + 3 * x && y * stride + 3 * x + 2 < |pixels|
  {
    assert (y + 1) * stride <= height * stride;
  }

  // The brightness of one sample.
  function Luminance(pixels: seq<Byte>, width: nat, height: nat, stride: nat, row: nat, column: nat): nat
    requires Fits(pixels, width, height, stride) && row < ROWS && column < COLUMNS
  {
    SamplesSpanTheImage(row, ROWS, height);
    SamplesSpanTheImage(column, COLUMNS, width);
    var y := SampleCoordinate(row, ROWS, height);
    var x := SampleCoordinate(column, COLUMNS, width);
    PixelInside(pixels, width, height, stride, x, y);
    var offset := y * stride + 3 * x;
    (299 * pixels[offset] as int + 587 * pixels[offset + 1] as int + 114 * pixels[offset + 2] as int) / 1000
  }

  // Bit k compares samples k % 8 and k % 8 + 1 of row k / 8.
  function Darkens(pixels: seq<Byte>, width: nat, height: nat, stride: nat, k: nat): bool
    requires Fits(pixels, width, height, stride) && k < 64
  {
    Luminance(pixels, width, height, stride, k / 8, k % 8) > Luminance(pixels, width, height, stride, k / 8, k % 8 + 1)
  }

  function Bits(pixels: seq<Byte>, width: nat, height: nat, stride: nat): (bits: seq<bool>)
    requires Fits(pixels, width, height, stride)
    ensures |bits| == 64
  {
    seq(64, k requires 0 <= k < 64 => Darkens(pixels, width, height, stride, k))
  }

  // The number with these binary digits, lowest first.
  function FromBits(bits: seq<bool>): nat {
    if bits == [] then 0 else (if bits[0] then 1 else 0) + 2 * FromBits(bits[1..])
  }

  lemma {:induction false} AppendBit(bits: seq<bool>, b: bool)
    ensures FromBits(bits + [b]) == FromBits(bits) + if b then Power(|bits|) else 0
    ensures FromBits(bits) < Power(|bits|)
  {
    if bits == [] {
      assert [] + [b] == [b] && [b][1..] == [];
    } else {
      assert (bits + [b])[1..] == bits[1..] + [b];
      AppendBit(bits[1..], b);
    }
  }

  lemma NextBit(bits: seq<bool>, k: nat)
    requires k < |bits|
    ensures FromBits(bits[..k + 1]) == FromBits(bits[..k]) + if bits[k] then Power(k) else 0
  {
    assert bits[..k + 1] == bits[..k] + [bits[k]];
    AppendBit(bits[..k], bits[k]);
  }

  lemma Power64()
    ensures Power(64) == 0x1_0000_0000_0000_0000
  {
    assert Power(4) == 16;
    PowerSum(4, 4);
    PowerSum(8, 8);
    PowerSum(16, 16);
    PowerSum(32, 32);
  }

  lemma {:induction false} PowerSum(a: nat, b: nat)
    ensures Power(a + b) == Power(a) * Power(b)
  {
    if a > 0 {
      PowerSum(a - 1, b);
    }
  }

  function Differences(a: seq<bool>, b: seq<bool>): nat
    requires |a| == |b|
  {
    if a == [] then 0 else (if a[0] != b[0] then 1 else 0) + Differences(a[1..], b[1..])
  }

  lemma {:induction false} DistanceOfBits(a: seq<bool>, b: seq<bool>)
    requires |a| == |b|
    ensures AdaptiveModel.Differing(FromBits(a), FromBits(b), |a|) == Differences(a, b)
  {
    if a != [] {
      var x, y := FromBits(a), FromBits(b);
      assert x / 2 == FromBits(a[1..]) && y / 2 == FromBits(b[1..]);
      DistanceOfBits(a[1..], b[1..]);
    }
  }

  method PerceptualDhash(pixels: seq<Byte>, width: int, height: int, stride: Option<int>) returns (r: Result<int, HashError>)
    ensures r == Hash(pixels, width, height, stride)
  {
    if width <= 0 || height <= 0 {
      return Err(BadDimensions);
    }
    var rowBytes := width * 3;
    var effective := if stride.None? then rowBytes else stride.value;
    if effective < rowBytes {
      return Err(StrideTooSmall);
    }
    if |pixels| != effective * height {
      return Err(BufferSizeMismatch);
    }
    ghost var bits := Bits(pixels, width, height, effective);
    hide Luminance, SampleCoordinate;
    var fingerprint := 0;
    var sampleY := 0;
    while sampleY < ROWS
      invariant sampleY <= ROWS && fingerprint == FromBits(bits[..8 * sampleY])
    {
      var row := SampleRow(pixels, width, height, effective, sampleY);
      var column := 0;
      while column < COLUMNS - 1
        invariant column <= COLUMNS - 1 && fingerprint == FromBits(bits[..8 * sampleY + column])
      {
        ghost var k := 8 * sampleY + column;
        assert k / 8 == sampleY && k % 8 == column;
        NextBit(bits, k);
        if row[column] > row[column + 1] {
          fingerprint := fingerprint + Power(8 * sampleY + column);
        }
        column := column + 1;
      }
      sampleY := sampleY + 1;
    }
    assert bits[..64] == bits;
    r := Ok(fingerprint);
  }

  method SampleRow(pixels: seq<Byte>, width: nat, height: nat, stride: nat, sampleY: nat) returns (row: seq<int>)
    requires Fits(pixels, width, height, stride) && sampleY < ROWS
    ensures |row| == COLUMNS
    ensures forall c :: 0 <= c < COLUMNS ==> row[c] == Luminance(pixels, width, height, stride, sampleY, c)
  {
    SamplesSpanTheImage(sampleY, ROWS, height);
    var y := SampleCoordinate(sampleY, ROWS, height);
    row := [];
    var sampleX := 0;
    while sampleX < COLUMNS
      invariant sampleX <= COLUMNS && |row| == sampleX
      invariant forall c :: 0 <= c < sampleX ==> row[c] == Luminance(pixels, width, height, stride, sampleY, c)
    {
      SamplesSpanTheImage(sampleX, COLUMNS, width);
      var x := SampleCoordinate(sampleX, COLUMNS, width);
      PixelInside(pixels, width, height, stride, x, y);
      var offset := y * stride + x * 3;
      row := row + [(299 * pixels[offset] as int + 587 * pixels[offset + 1] as int + 114 * pixels[offset + 2] as int) / 1000];
      sampleX := sampleX + 1;
    }
  }

  function Hash(pixels: seq<Byte>, width: int, height: int, stride: Option<int>): Result<int, HashError> {
    if width <= 0 || height <= 0 then Err(BadDimensions)
    else
      var effective := if stride.None? then width * 3 else stride.value;
      if effective < width * 3 then Err(StrideTooSmall)
      else if |pixels| != effective * height then Err(BufferSizeMismatch)
      else Ok(FromBits(Bits(pixels, width, height, effective)))
  }

  // Every hash is a valid fingerprint, and the distance of two hashes is the number
  // of brightness comparisons in which the images differ.
  lemma HashDistance(a: seq<Byte>, b: seq<Byte>, widthA: nat, heightA: nat, strideA: nat,
                     widthB: nat, heightB: nat, strideB: nat)
    requires Fits(a, widthA, heightA, strideA) && Fits(b, widthB, heightB, strideB)
    ensures var x := Hash(a, widthA, heightA, Some(strideA));
            var y := Hash(b, widthB, heightB, Some(strideB));
            && x.Ok? && y.Ok?
            && 0 <= x.value < 0x1_0000_0000_0000_0000 && 0 <= y.value < 0x1_0000_0000_0000_0000
            && AdaptiveModel.Hamming(x.value, y.value)
               == Differences(Bits(a, widthA, heightA, strideA), Bits(b, widthB, heightB, strideB))
  {
    var p, q := Bits(a, widthA, heightA, strideA), Bits(b, widthB, heightB, strideB);
    AppendBit(p, false);
    AppendBit(q, false);
    Power64();
    DistanceOfBits(p, q);
  }

  // ---------- the hash, bit by bit ----------

  lemma {:induction false} DigitsAreBits(bits: seq<bool>, k: nat)
    requires k < |bits|
    ensures Bit(FromBits(bits), k) <==> bits[k]
  {
    var n := FromBits(bits);
    assert n / 2 == FromBits(bits[1..]) && n % 2 == (if bits[0] then 1 else 0);
    if k > 0 {
      DigitsAreBits(bits[1..], k - 1);
    }
  }

  // The brightness of a pixel, in thousandths of its red, green and blue.
  function Brightness(pixels: seq<Byte>, stride: nat, x: nat, y: nat): nat
    requires y * stride + 3 * x + 2 < |pixels|
  {
    (299 * pixels[y * stride + 3 * x] as int + 587 * pixels[y * stride + 3 * x + 1] as int
     + 114 * pixels[y * stride + 3 * x + 2] as int) / 1000
  }

  // Samples stand in nine columns and eight rows, evenly from edge to edge.
  function SampleX(column: nat, width: nat): nat
    requires width > 0
  {
    column * (width - 1) / 8
  }

  function SampleY(row: nat, height: nat): nat
    requires height > 0
  {
    row * (height - 1) / 7
  }

  lemma SampleIs(pixels: seq<Byte>, width: nat, height: nat, stride: nat, row: nat, column: nat)
    requires Fits(pixels, width, height, stride) && row < 8 && column < 9
    ensures SampleX(column, width) < width && SampleY(row, height) < height
    ensures SampleY(row, height) * stride + 3 * SampleX(column, width) + 2 < |pixels|
    ensures Luminance(pixels, width, height, stride, row, column)
         == Brightness(pixels, stride, SampleX(column, width), SampleY(row, height))
  {
    SamplesSpanTheImage(row, ROWS, height);
    SamplesSpanTheImage(column, COLUMNS, width);
    PixelInside(pixels, width, height, stride, SampleX(column, width), SampleY(row, height));
  }

  // Bit k of the hash is set exactly when, in row k / 8 of the samples, sample k % 8 is
  // brighter than the one to its right.
  lemma HashBit(pixels: seq<Byte>, width: nat, height: nat, stride: nat, k: nat)
    requires Fits(pixels, width, height, stride) && k < 64
    ensures Hash(pixels, width, height, Some(stride)).Ok?
    ensures var y, left, right := SampleY(k / 8, height), SampleX(k % 8, width), SampleX(k % 8 + 1, width);
            && y * stride + 3 * left + 2 < |pixels| && y * stride + 3 * right + 2 < |pixels|
            && (Bit(Hash(pixels, width, height, Some(stride)).value, k)
                <==> Brightness(pixels, stride, left, y) > Brightness(pixels, stride, right, y))
  {
    hide FromBits, SampleX, SampleY, Luminance, Brightness;
    DigitsAreBits(Bits(pixels, width, height, stride), k);
    SampleIs(pixels, width, height, stride, k / 8, k % 8);
    SampleIs(pixels, width, height, stride, k / 8, k % 8 + 1);
  }

  // Which images are hashed; without a stride the rows stand close.
  lemma Hashed(pixels: seq<Byte>, width: int, height: int, stride: Option<int>)
    ensures var line := if stride.Some? then stride.value else 3 * width;
            var r := Hash(pixels, width, height, stride);
            if width <= 0 || height <= 0 then r == Err(BadDimensions)
            else if line < 3 * width then r == Err(StrideTooSmall)
            else if |pixels| != line * height then r == Err(BufferSizeMismatch)
            else r == Hash(pixels, width, height, Some(line)) && r.Ok?
  {
  }
}
