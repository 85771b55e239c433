/**
 Colour masks of X window dumps: which masks the decoder accepts, and what scaling a
 masked channel to eight bits does. Words are non-negative numbers and their bit
 operations are defined digit by digit.
 */
module XwdMasks {
  import opened Words

  // ---------- bits ----------

  // The bitwise conjunction.
  function And(a: nat, b: nat): nat
    decreases a
  {
    if a == 0 then 0 else (if a % 2 == 1 && b % 2 == 1 then 1 else 0) + 2 * And(a / 2, b / 2)
  }

  function BitLength(a: nat): nat {
    if a == 0 then 0 else 1 + BitLength(a / 2)
  }

  // The position of the lowest set bit, `(mask & -mask).bit_length() - 1`.
  function Shift(mask: nat): nat
    requires mask > 0
  {
    if mask % 2 == 1 then 0 else 1 + Shift(mask / 2)
  }

  function ShiftRight(a: nat, n: nat): nat {
    if n == 0 then a else ShiftRight(a / 2, n - 1)
  }

  // The mask with its trailing zeros removed.
  function Maximum(mask: nat): nat
    requires mask > 0
  {
    ShiftRight(mask, Shift(mask))
  }

  // ---------- the mask check ----------

  predicate MaskFits(mask: nat, bitsPerPixel: nat) {
    mask != 0 && BitLength(mask) <= bitsPerPixel
  }

  predicate Overlap(red: nat, green: nat, blue: nat) {
    And(red, green) != 0 || And(red, blue) != 0 || And(green, blue) != 0
  }

  predicate Contiguous(mask: nat)
    requires mask > 0
  {
    And(Maximum(mask), Maximum(mask) + 1) == 0
  }

  datatype MaskError = MaskInvalid | MasksOverlap | NotContiguous

  datatype MaskCheck = Accepted | Refused(error: MaskError)

  function CheckMasks(red: nat, green: nat, blue: nat, bitsPerPixel: nat): MaskCheck {
    if !MaskFits(red, bitsPerPixel) || !MaskFits(green, bitsPerPixel) || !MaskFits(blue, bitsPerPixel) then Refused(MaskInvalid)
    else if Overlap(red, green, blue) then Refused(MasksOverlap)
    else if !Contiguous(red) || !Contiguous(green) || !Contiguous(blue) then Refused(NotContiguous)
    else Accepted
  }

  // A run of `width` set bits above `shift` clear ones.
  predicate IsRun(mask: nat, shift: nat, width: nat) {
    width > 0 && mask == (Power(width) - 1) * Power(shift)
  }

  lemma {:induction false} AndSelf(a: nat)
    ensures And(a, a) == a
  {
    if a > 0 {
      AndSelf(a / 2);
    }
  }

  // n & (n + 1) is zero exactly for a row of ones.
  lemma {:induction false} OnesExactly(n: nat) returns (width: nat)
    ensures And(n, n + 1) == 0 ==> n + 1 == Power(width)
  {
    width := 0;
    if n > 0 && n % 2 == 1 {
      assert (n + 1) / 2 == n / 2 + 1;
      var w := OnesExactly(n / 2);
      width := w + 1;
    } else if n > 0 {
      assert (n + 1) / 2 == n / 2;
      AndSelf(n / 2);
    }
  }

  lemma {:induction false} RowOfOnes(width: nat)
    ensures And(Power(width) - 1, Power(width)) == 0
  {
    if width > 0 {
      RowOfOnes(width - 1);
      var n := Power(width) - 1;
      assert n % 2 == 1 && n / 2 == Power(width - 1) - 1 && Power(width) / 2 == Power(width - 1);
    }
  }

  lemma {:induction false} ShiftOfMask(mask: nat)
    requires mask > 0
    ensures Maximum(mask) % 2 == 1 && mask == Maximum(mask) * Power(Shift(mask))
  {
    if mask % 2 == 0 {
      ShiftOfMask(mask / 2);
      DoubleProduct(Maximum(mask / 2), Power(Shift(mask / 2)));
    }
  }

  lemma DoubleProduct(a: nat, b: nat)
    ensures a * (2 * b) == 2 * (a * b)
  {
  }

  lemma {:induction false} ShiftOfRun(ones: nat, shift: nat)
    requires ones % 2 == 1
    ensures ones * Power(shift) > 0
    ensures Shift(ones * Power(shift)) == shift && Maximum(ones * Power(shift)) == ones
  {
    if shift > 0 {
      ShiftOfRun(ones, shift - 1);
      DoubleProduct(ones, Power(shift - 1));
      assert ones * Power(shift) / 2 == ones * Power(shift - 1);
    }
  }

  // The mask is a run of set bits.
  ghost predicate Run(mask: nat)
    requires mask > 0
  {
    exists width: nat :: IsRun(mask, Shift(mask), width)
  }

  lemma ContiguousIsRun(mask: nat)
    requires mask > 0 && Contiguous(mask)
    ensures Run(mask)
  {
    ShiftOfMask(mask);
    var width := OnesExactly(Maximum(mask));
    assert width > 0;
    assert IsRun(mask, Shift(mask), width);
  }

  lemma RunIsContiguous(mask: nat, shift: nat, width: nat)
    requires mask > 0 && IsRun(mask, shift, width)
    ensures Contiguous(mask)
  {
    RowOfOnes(width);
    assert Power(width) == 2 * Power(width - 1);
    ShiftOfRun(Power(width) - 1, shift);
  }

  // The contiguity test accepts exactly the runs of set bits.
  lemma ContiguousIffRun(mask: nat)
    requires mask > 0
    ensures Contiguous(mask) <==> Run(mask)
  {
    hide IsRun, Contiguous;
    if Contiguous(mask) {
      ContiguousIsRun(mask);
    }
    if width: nat :| IsRun(mask, Shift(mask), width) {
      RunIsContiguous(mask, Shift(mask), width);
    }
  }

  // No bit is set in both.
  ghost predicate Disjoint(a: nat, b: nat) {
    forall i: nat :: !(Bit(a, i) && Bit(b, i))
  }

  // Masks overlap exactly when they share a bit.
  lemma {:induction false} AndIsZeroIffDisjoint(a: nat, b: nat)
    ensures And(a, b) == 0 <==> Disjoint(a, b)
    decreases a
  {
    if a == 0 {
      forall i: nat ensures !Bit(a, i) {
        NoBits(i);
      }
    } else {
      AndIsZeroIffDisjoint(a / 2, b / 2);
      if And(a, b) == 0 {
        forall i: nat ensures !(Bit(a, i) && Bit(b, i)) {
          if i > 0 {
            assert !(Bit(a / 2, i - 1) && Bit(b / 2, i - 1));
          }
        }
      }
      if Disjoint(a, b) {
        assert !(Bit(a, 0) && Bit(b, 0));
        forall i: nat ensures !(Bit(a / 2, i) && Bit(b / 2, i)) {
          assert !(Bit(a, i + 1) && Bit(b, i + 1));
        }
      }
    }
  }

  lemma {:induction false} NoBits(i: nat)
    ensures !Bit(0, i)
  {
    if i > 0 {
      NoBits(i - 1);
    }
  }

  lemma {:induction false} BitLengthBound(a: nat, n: nat)
    ensures BitLength(a) <= n <==> a < Power(n)
  {
    if n > 0 {
      if a > 0 {
        BitLengthBound(a / 2, n - 1);
      }
    }
  }

  ghost predicate RunBelow(mask: nat, bitsPerPixel: nat) {
    0 < mask < Power(bitsPerPixel) && Run(mask)
  }

  lemma MaskAcceptedExactly(mask: nat, bitsPerPixel: nat)
    ensures MaskFits(mask, bitsPerPixel) && Contiguous(mask) <==> RunBelow(mask, bitsPerPixel)
  {
    BitLengthBound(mask, bitsPerPixel);
    if mask > 0 {
      ContiguousIffRun(mask);
    }
  }

  // The check accepts exactly three pairwise disjoint runs that fit the pixel.
  lemma MasksAcceptedExactly(red: nat, green: nat, blue: nat, bitsPerPixel: nat)
    ensures CheckMasks(red, green, blue, bitsPerPixel) == Accepted <==>
            && RunBelow(red, bitsPerPixel) && RunBelow(green, bitsPerPixel) && RunBelow(blue, bitsPerPixel)
            && Disjoint(red, green) && Disjoint(red, blue) && Disjoint(green, blue)
  {
    hide RunBelow, Disjoint, Contiguous, And, BitLength;
    MaskAcceptedExactly(red, bitsPerPixel);
    MaskAcceptedExactly(green, bitsPerPixel);
    MaskAcceptedExactly(blue, bitsPerPixel);
    AndIsZeroIffDisjoint(red, green);
    AndIsZeroIffDisjoint(red, blue);
    AndIsZeroIffDisjoint(green, blue);
  }

  // ---------- scaling ----------

  function ChannelValue(pixel: nat, mask: nat): nat
    requires mask > 0
  {
    ShiftRight(And(pixel, mask), Shift(mask))
  }

  function Rounded(value: nat, maximum: nat): nat
    requires maximum > 0
  {
    (value * 255 + maximum / 2) / maximum
  }

  lemma {:induction false} AndBelow(a: nat, b: nat, n: nat)
    requires b < Power(n)
    ensures And(a, b) < Power(n) && And(a, b) <= b
    decreases a
  {
    if a > 0 {
      if n == 0 {
        AndZero(a / 2);
      } else {
        AndBelow(a / 2, b / 2, n - 1);
      }
    }
  }

  lemma {:induction false} AndZero(a: nat)
    ensures And(a, 0) == 0
  {
    if a > 0 {
      AndZero(a / 2);
    }
  }

  // The pixel's bits under a row of ones are its remainder.
  lemma {:induction false} AndOnes(a: nat, width: nat)
    ensures And(a, Power(width) - 1) == a % Power(width)
    decreases width
  {
    if width == 0 {
      AndZero(a);
    } else {
      AndOnes(a / 2, width - 1);
      var p := Power(width - 1);
      assert (2 * p - 1) / 2 == p - 1 && (2 * p - 1) % 2 == 1;
      HalvedRemainder(a, p);
    }
  }

  lemma HalvedRemainder(a: nat, p: nat)
    requires p > 0
    ensures a % (2 * p) == a % 2 + 2 * (a / 2 % p)
  {
    var h := a / 2;
    var q, r := h / p, h % p;
    assert h == p * q + r;
    assert a == (2 * p) * q + (a % 2 + 2 * r);
    RemainderOf(a, 2 * p, q, a % 2 + 2 * r);
  }

  lemma Multiples(n: int, k: int)
    requires n > 0
    ensures k >= 0 ==> n * k >= 0
    ensures k >= 1 ==> n * k >= n
    ensures k <= -1 ==> n * k <= -n
  {
  }

  lemma RemainderOf(a: nat, n: nat, q: nat, r: nat)
    requires n > 0 && r < n && a == n * q + r
    ensures a % n == r
  {
    var k := q - a / n;
    assert a == n * (a / n) + a % n;
    assert n * k == n * q - n * (a / n);
    Multiples(n, k);
  }

  // A channel is the number its bits spell: the pixel, shifted down, cut to the
  // mask's width.
  lemma {:induction false} ChannelIsItsBits(pixel: nat, mask: nat, width: nat)
    requires mask > 0 && IsRun(mask, Shift(mask), width)
    ensures Maximum(mask) == Power(width) - 1
    ensures ChannelValue(pixel, mask) == ShiftRight(pixel, Shift(mask)) % Power(width)
    ensures ChannelValue(pixel, mask) <= Maximum(mask)
    decreases mask
  {
    assert Power(width) == 2 * Power(width - 1);
    if mask % 2 == 1 {
      OddRun(width, Shift(mask));
      AndOnes(pixel, width);
    } else {
      var half := mask / 2;
      DoubleProduct(Power(width) - 1, Power(Shift(half)));
      assert IsRun(half, Shift(half), width);
      ChannelIsItsBits(pixel / 2, half, width);
      HalvedAnd(pixel, mask);
    }
  }

  lemma OddRun(width: nat, shift: nat)
    requires width > 0 && shift == 0
    ensures (Power(width) - 1) * Power(shift) == Power(width) - 1
  {
  }

  lemma HalvedAnd(a: nat, b: nat)
    requires b % 2 == 0
    ensures And(a, b) / 2 == And(a / 2, b / 2)
  {
  }

  lemma DivisionBounds(n: nat, d: nat)
    requires d > 0
    ensures d * (n / d) <= n < d * (n / d) + d
  {
  }

  // Twice the distance of the result from the exact quotient, in units of 1 / maximum.
  function TwiceTheError(value: nat, maximum: nat): int
    requires maximum > 0
  {
    2 * (Rounded(value, maximum) * maximum - value * 255)
  }

  // The channel to its eight-bit value.
  lemma RoundedIsNearest(value: nat, maximum: nat)
    requires 0 < maximum && value <= maximum && maximum % 2 == 1
    ensures 0 <= Rounded(value, maximum) <= 255
    ensures TwiceTheError(value, maximum) < maximum && TwiceTheError(value, maximum) > 0 - maximum
  {
    var n := value * 255 + maximum / 2;
    var q := n / maximum;
    DivisionBounds(n, maximum);
    assert q * maximum == maximum * q;
    assert maximum * (q - 256) == maximum * q - maximum * 256;
    Multiples(maximum, q - 256);
  }

  lemma RoundedIsMonotone(low: nat, high: nat, maximum: nat)
    requires 0 < maximum && low <= high
    ensures Rounded(low, maximum) <= Rounded(high, maximum)
  {
    var a, b := low * 255 + maximum / 2, high * 255 + maximum / 2;
    var p, q := a / maximum, b / maximum;
    DivisionBounds(a, maximum);
    DivisionBounds(b, maximum);
    assert maximum * (p - q) == maximum * p - maximum * q;
    Multiples(maximum, p - q);
  }

  function ScaleMaskedChannel(pixel: nat, mask: nat): nat
    requires mask > 0 && Maximum(mask) > 0
  {
    Rounded(ChannelValue(pixel, mask), Maximum(mask))
  }

  // Scaling an accepted mask's channel rounds value / maximum * 255 to the nearest
  // byte, never to a tie; equal bits give equal bytes and larger channels no smaller ones.
  lemma ScalingRoundsToNearest(pixel: nat, other: nat, mask: nat)
    requires mask > 0 && Contiguous(mask)
    ensures Maximum(mask) > 0
    ensures 0 <= ScaleMaskedChannel(pixel, mask) <= 255
    ensures TwiceTheError(ChannelValue(pixel, mask), Maximum(mask)) < Maximum(mask)
    ensures TwiceTheError(ChannelValue(pixel, mask), Maximum(mask)) > 0 - Maximum(mask)
    ensures ChannelValue(pixel, mask) <= ChannelValue(other, mask) ==>
              ScaleMaskedChannel(pixel, mask) <= ScaleMaskedChannel(other, mask)
    ensures ScaleMaskedChannel(pixel, mask) == 0 <==> 255 * ChannelValue(pixel, mask) * 2 < Maximum(mask)
  {
    ContiguousIffRun(mask);
    ShiftOfMask(mask);
    var width: nat :| IsRun(mask, Shift(mask), width);
    ChannelIsItsBits(pixel, mask, width);
    RoundedIsNearest(ChannelValue(pixel, mask), Maximum(mask));
    if ChannelValue(pixel, mask) <= ChannelValue(other, mask) {
      RoundedIsMonotone(ChannelValue(pixel, mask), ChannelValue(other, mask), Maximum(mask));
    }
    ZeroRounding(ChannelValue(pixel, mask), Maximum(mask));
  }

  lemma ZeroRounding(value: nat, maximum: nat)
    requires 0 < maximum && maximum % 2 == 1
    ensures Rounded(value, maximum) == 0 <==> 255 * value * 2 < maximum
  {
    var n := value * 255 + maximum / 2;
    assert maximum == 2 * (maximum / 2) + 1;
    assert n / maximum == 0 <==> n < maximum;
  }
}
