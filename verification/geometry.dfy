/**
 * Angle arithmetic shared by both wheel variants: where a slice is drawn,
 * the cumulative rotation a spin is sent to, and the remainder the editor
 * tests take of it to find the sector the arrow stops in.
 */
module Geometry {

  /** What a spin hands to the animation layer: the rotation target and the
      prize index its completion callback reports. */
  datatype SpinRequest = SpinRequest(prizeIndex: int, targetAngle: real)

  /** Rotation of slice `i` when it is drawn: the middle of its sector
      [i * sliceAngle, (i + 1) * sliceAngle). */
  function SliceCentre(i: int, sliceAngle: real): (c: real)
    requires sliceAngle > 0.0
    ensures sliceAngle * i as real < c < sliceAngle * i as real + sliceAngle
  {
    i as real * sliceAngle + sliceAngle / 2.0
  }

  /** `numSpins` full turns, then `prizeIndex` slices, then a point inside
      the slice. The result is cumulative: it is not reduced modulo 360. */
  function TargetAngle(numSpins: int, sliceAngle: real, prizeIndex: int, angleInSlice: real): (target: real)
  {
    numSpins as real * 360.0 + sliceAngle * prizeIndex as real + angleInSlice
  }

  /** Integer part of `x`, rounding toward zero. */
  function Truncate(x: real): (n: int)
    ensures 0.0 <= x ==> n as real <= x < n as real + 1.0
    ensures x < 0.0 ==> n as real - 1.0 < x <= n as real
  {
    if x >= 0.0 then x.Floor else -((-x).Floor)
  }

  /** The remainder of the C# `%` operator on a floating-point angle and 360:
      the quotient is truncated toward zero, so the result has the sign of
      `x`. */
  function Remainder360(x: real): (r: real)
    ensures 0.0 <= x ==> 0.0 <= r < 360.0
    ensures x < 0.0 ==> -360.0 < r <= 0.0
  {
    x - 360.0 * Truncate(x / 360.0) as real
  }

  /** Whole turns disappear in the remainder. */
  lemma RemainderOfWholeTurns(k: int, a: real, x: real)
    requires k >= 0 && 0.0 <= a < 360.0 && x == k as real * 360.0 + a
    ensures Remainder360(x) == a
  {
    assert x / 360.0 == k as real + a / 360.0;
    assert Truncate(x / 360.0) == k;
  }

  /** `n` slices of 360 / n degrees make a full turn. */
  lemma SlicesMakeFullTurn(n: int)
    requires n > 0
    ensures (360.0 / n as real) * n as real == 360.0
  {
  }

  lemma ProductNonNegative(a: real, b: real)
    requires a >= 0.0 && b >= 0.0
    ensures a * b >= 0.0
  {
  }

  lemma ProductPositive(a: real, b: real)
    requires a > 0.0 && b > 0.0
    ensures a * b > 0.0
  {
  }

  lemma Distribute(a: real, b: real, c: real)
    ensures a * (b + 1.0 + c) == a * b + a + a * c
  {
  }

  /** The linear core of SectorWithinTurn: a turn `q` split into the slices
      before (`p`), the slice itself (`sliceAngle`) and the slices after
      (`rest`). */
  lemma PointBeforeTurnEnd(p: real, sliceAngle: real, rest: real, angleInSlice: real,
                           q: real, more: bool)
    requires p >= 0.0 && rest >= 0.0 && q == p + sliceAngle + rest
    requires more ==> rest > 0.0
    requires 0.0 <= angleInSlice <= sliceAngle
    requires more || angleInSlice < sliceAngle
    ensures 0.0 <= p + angleInSlice < q
  {
  }

  /** Slice `ir`'s sector, from its start up to `angleInSlice`, ends within the
      first turn unless it reaches the far edge of the last slice. */
  lemma SectorWithinTurn(sliceAngle: real, ir: real, nr: real, angleInSlice: real)
    requires sliceAngle > 0.0 && sliceAngle * nr == 360.0
    requires 0.0 <= ir && ir + 1.0 <= nr
    requires 0.0 <= angleInSlice <= sliceAngle
    requires ir + 1.0 < nr || angleInSlice < sliceAngle
    ensures 0.0 <= sliceAngle * ir + angleInSlice < 360.0
  {
    var after := nr - ir - 1.0;
    ProductNonNegative(sliceAngle, ir);
    ProductNonNegative(sliceAngle, after);
    if after > 0.0 {
      ProductPositive(sliceAngle, after);
    }
    Distribute(sliceAngle, ir, after);
    assert ir + 1.0 + after == nr;
    PointBeforeTurnEnd(sliceAngle * ir, sliceAngle, sliceAngle * after, angleInSlice,
                       sliceAngle * nr, after > 0.0);
  }

  /** Sector of slice `i` reached by the target angle: with the arrow offset
      non-negative and the point inside the slice drawn from
      [arrowOffset, sliceAngle], the target angle modulo 360 lies in
      [sliceAngle * i + arrowOffset, sliceAngle * i + sliceAngle], unless the
      point is the far edge of the last slice (see TargetAtFullTurn). */
  lemma TargetLandsInSlice(n: int, sliceAngle: real, i: int, numSpins: int,
                           arrowOffset: real, angleInSlice: real)
    requires n > 0 && sliceAngle == 360.0 / n as real
    requires 0 <= i < n && numSpins >= 0
    requires 0.0 <= arrowOffset <= angleInSlice <= sliceAngle
    requires i < n - 1 || angleInSlice < sliceAngle
    ensures var landed := Remainder360(TargetAngle(numSpins, sliceAngle, i, angleInSlice));
            sliceAngle * i as real + arrowOffset <= landed <= sliceAngle * i as real + sliceAngle
  {
    var inTurn := sliceAngle * i as real + angleInSlice;
    SlicesMakeFullTurn(n);
    SectorWithinTurn(sliceAngle, i as real, n as real, angleInSlice);
    RemainderOfWholeTurns(numSpins, inTurn, TargetAngle(numSpins, sliceAngle, i, angleInSlice));
  }

  /** TargetLandsInSlice with its side conditions as a hypothesis. */
  lemma LandingInSector(n: int, sliceAngle: real, i: int, numSpins: int,
                        arrowOffset: real, angleInSlice: real)
    requires n >= 0 && (n > 0 ==> sliceAngle == 360.0 / n as real)
    requires arrowOffset <= angleInSlice <= sliceAngle
    ensures var base := numSpins as real * 360.0 + sliceAngle * i as real;
            var target := TargetAngle(numSpins, sliceAngle, i, angleInSlice);
            base + arrowOffset <= target <= base + sliceAngle
    ensures && 0 <= i < n && numSpins >= 0 && 0.0 <= arrowOffset
            && (i < n - 1 || angleInSlice < sliceAngle)
            ==> var landed := Remainder360(TargetAngle(numSpins, sliceAngle, i, angleInSlice));
                sliceAngle * i as real + arrowOffset <= landed <= sliceAngle * i as real + sliceAngle
  {
    if && 0 <= i < n && numSpins >= 0 && 0.0 <= arrowOffset
       && (i < n - 1 || angleInSlice < sliceAngle) {
      TargetLandsInSlice(n, sliceAngle, i, numSpins, arrowOffset, angleInSlice);
    }
  }

  /** The far edge of any slice but the last lands on the leading edge of the
      next slice: the upper end of the closed range the editor test accepts. */
  lemma FarEdgeStartsNextSlice(n: int, sliceAngle: real, i: int, numSpins: int)
    requires n > 0 && sliceAngle == 360.0 / n as real
    requires 0 <= i < n - 1 && numSpins >= 0
    ensures Remainder360(TargetAngle(numSpins, sliceAngle, i, sliceAngle))
            == sliceAngle * i as real + sliceAngle
  {
    SlicesMakeFullTurn(n);
    SectorWithinTurn(sliceAngle, i as real, n as real, sliceAngle);
    RemainderOfWholeTurns(numSpins, sliceAngle * i as real + sliceAngle,
                          TargetAngle(numSpins, sliceAngle, i, sliceAngle));
  }

  /** The far edge of the last slice is a whole number of turns: the target
      angle modulo 360 is then 0, the leading edge of slice 0. */
  lemma TargetAtFullTurn(n: int, sliceAngle: real, numSpins: int)
    requires n > 0 && sliceAngle == 360.0 / n as real && numSpins >= 0
    ensures Remainder360(TargetAngle(numSpins, sliceAngle, n - 1, sliceAngle)) == 0.0
  {
    var nr := n as real;
    SlicesMakeFullTurn(n);
    assert sliceAngle * (nr - 1.0) + sliceAngle == sliceAngle * nr;
    RemainderOfWholeTurns(numSpins + 1, 0.0, TargetAngle(numSpins, sliceAngle, n - 1, sliceAngle));
  }
}
