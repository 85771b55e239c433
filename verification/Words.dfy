/** Bytes and 32-bit words as numbers, the big-endian form of a word, powers of two, and image limits. */
module Words {
  type Byte = b: int | 0 <= b < 256
  type Word = w: int | 0 <= w < 0x1_0000_0000

  // The largest side and the largest size in bytes that the image decoders take.
  const MAX_DIMENSION := 32_768
  const MAX_PIXEL_BYTES := 512 * 1024 * 1024

  function Power(n: nat): (p: nat)
    ensures p > 0
  {
    if n == 0 then 1 else 2 * Power(n - 1)
  }

  // Binary digit i of a number, the lowest first.
  predicate Bit(a: nat, i: nat) {
    if i == 0 then a % 2 == 1 else Bit(a / 2, i - 1)
  }

  // ---------- four-byte integers ----------

  function ToBytes4(n: Word): (s: seq<Byte>)
    ensures |s| == 4
  {
    [n / 0x100_0000, n / 0x1_0000 % 0x100, n / 0x100 % 0x100, n % 0x100]
  }

  function FromBytes4(s: seq<Byte>): Word
    requires |s| == 4
  {
    s[0] as int * 0x100_0000 + s[1] as int * 0x1_0000 + s[2] as int * 0x100 + s[3]
  }

  lemma LastByte(n: nat, q: nat, d: Byte)
    requires n == q * 0x100 + d
    ensures n / 0x100 == q && n % 0x100 == d
  {
  }

  // Dividing by one byte after another.
  lemma ByteByByte(n: nat)
    ensures n / 0x1_0000 == n / 0x100 / 0x100
    ensures n / 0x100_0000 == n / 0x100 / 0x100 / 0x100
  {
    var q1, q2, q3 := n / 0x100, n / 0x100 / 0x100, n / 0x100 / 0x100 / 0x100;
    assert n == q1 * 0x100 + n % 0x100 && q1 == q2 * 0x100 + q1 % 0x100 && q2 == q3 * 0x100 + q2 % 0x100;
    assert n - q2 * 0x1_0000 == q1 % 0x100 * 0x100 + n % 0x100;
    assert n - q3 * 0x100_0000 == q2 % 0x100 * 0x1_0000 + q1 % 0x100 * 0x100 + n % 0x100;
  }

  lemma FourBytesRoundTrip(n: Word)
    ensures FromBytes4(ToBytes4(n)) == n
  {
    ByteByByte(n);
  }

  lemma FourBytesUnique(s: seq<Byte>)
    requires |s| == 4
    ensures ToBytes4(FromBytes4(s)) == s
  {
    var a: int, b: int, c: int, d: int := s[0], s[1], s[2], s[3];
    var n := FromBytes4(s);
    LastByte(n, a * 0x1_0000 + b * 0x100 + c, s[3]);
    LastByte(a * 0x1_0000 + b * 0x100 + c, a * 0x100 + b, s[2]);
    LastByte(a * 0x100 + b, a, s[1]);
    ByteByByte(n);
  }

  // A four-byte number is big-endian.
  function Number(s: seq<Byte>): nat
    requires |s| == 4
  {
    ((s[0] as int * 256 + s[1] as int) * 256 + s[2] as int) * 256 + s[3] as int
  }

  lemma NumberIsBigEndian(s: seq<Byte>)
    requires |s| == 4
    ensures FromBytes4(s) == Number(s)
  {
  }

  // ---------- rows of RGB pixels ----------

  // Where component c of a pixel stands in packed RGB rows.
  function RgbOffset(width: nat, row: nat, column: nat, c: nat): nat {
    3 * width * row + 3 * column + c
  }

  lemma RowOffset(width: nat, row: nat, height: nat)
    requires row < height
    ensures 3 * width * row + 3 * width == 3 * width * (row + 1) <= 3 * width * height
  {
  }
}
