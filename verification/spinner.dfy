/**
 * The spin engine: a single in-flight flag, weighted prize selection by
 * walking the drop rates in order, the target angle of a spin, and the
 * completion step that clears the flag and reports the reward.
 */
module Spinner {
  import opened Geometry
  import opened Generator

  datatype Option<T> = None | Some(value: T)

  /** Sum of the drop rates of the first `i` slices. */
  function Prefix(s: seq<WheelSlice>, i: int): (p: real)
    requires 0 <= i <= |s|
  {
    SumRates(s[..i])
  }

  lemma PrefixStep(s: seq<WheelSlice>, i: int)
    requires 0 <= i < |s|
    ensures Prefix(s, i + 1) == Prefix(s, i) + s[i].dropRate
  {
    assert s[..i + 1][..i] == s[..i];
  }

  lemma PrefixWhole(s: seq<WheelSlice>)
    ensures Prefix(s, |s|) == SumRates(s)
  {
    assert s[..|s|] == s;
  }

  /** With rates that are not negative, prefix sums never decrease. */
  lemma {:induction false} PrefixMonotone(s: seq<WheelSlice>, i: int, j: int)
    requires RatesInRange(s)
    requires 0 <= i <= j <= |s|
    ensures Prefix(s, i) <= Prefix(s, j)
    decreases j - i
  {
    if i < j {
      PrefixStep(s, j - 1);
      PrefixMonotone(s, i, j - 1);
    }
  }

  /** `r` is what the selection loop returns for the draw `rand` over `s`:
      every slice before `r` was passed over because what was left of the
      draw was at least its rate, and slice `r` caught the draw; -1 when
      every slice was passed over. */
  predicate IsSelection(s: seq<WheelSlice>, rand: real, r: int)
  {
    && -1 <= r < |s|
    && (forall j :: 0 <= j < |s| && (r == -1 || j < r) ==> rand - Prefix(s, j) >= s[j].dropRate)
    && (r >= 0 ==> rand - Prefix(s, r) < s[r].dropRate)
  }

  /** The selection is a function of the list and the draw. */
  lemma SelectionUnique(s: seq<WheelSlice>, rand: real, r1: int, r2: int)
    requires IsSelection(s, rand, r1) && IsSelection(s, rand, r2)
    ensures r1 == r2
  {
  }

  /** On a valid list, a draw in [0, 1) always finds a slice, and the draw lies
      in that slice's band [Prefix(r), Prefix(r + 1)). */
  lemma SelectionCoverage(s: seq<WheelSlice>, rand: real, r: int)
    requires IsValidTable(s) && 0.0 <= rand < 1.0
    requires IsSelection(s, rand, r)
    ensures 0 <= r < |s|
    ensures Prefix(s, r) <= rand < Prefix(s, r + 1)
  {
    PrefixWhole(s);
    if r == -1 {
      var last := |s| - 1;
      PrefixStep(s, last);
      assert false;
    }
    PrefixStep(s, r);
    if r > 0 {
      PrefixStep(s, r - 1);
      assert rand - Prefix(s, r - 1) >= s[r - 1].dropRate;
    }
  }

  /** Conversely, with rates that are not negative, every draw in slice `j`'s
      band selects `j`: the bands tile [0, 1) without gap or overlap. */
  lemma BandSelects(s: seq<WheelSlice>, rand: real, j: int)
    requires RatesInRange(s)
    requires 0 <= j < |s| && Prefix(s, j) <= rand < Prefix(s, j + 1)
    ensures IsSelection(s, rand, j)
  {
    PrefixStep(s, j);
    forall k | 0 <= k < j
      ensures rand - Prefix(s, k) >= s[k].dropRate
    {
      PrefixStep(s, k);
      PrefixMonotone(s, k + 1, j);
    }
  }

  /** A draw of exactly 1 on a valid list with rates in range passes over
      every slice: the loop falls through to the -1 sentinel. */
  lemma FullDrawFindsNoSlice(s: seq<WheelSlice>, r: int)
    requires IsValidTable(s) && RatesInRange(s)
    requires IsSelection(s, 1.0, r)
    ensures r == -1
  {
    if r >= 0 {
      PrefixStep(s, r);
      PrefixMonotone(s, r + 1, |s|);
      PrefixWhole(s);
      assert false;
    }
  }

  class WheelSpinner {
    var minSpins: int
    var maxSpins: int
    /** Degrees per second; only the animation reads it. */
    var spinSpeed: real
    /** How many degrees the arrow sits past 0. */
    var wheelArrowOffset: real
    var wheelInfo: WheelGenerator
    var isSpinning: bool

    /** The spin settings of a new component; no spin is in flight. */
    constructor InitializeValues(minSpins: int, maxSpins: int, spinSpeed: real,
                                 wheelArrowOffset: real, wheelInfo: WheelGenerator)
      ensures this.minSpins == minSpins && this.maxSpins == maxSpins
      ensures this.spinSpeed == spinSpeed && this.wheelArrowOffset == wheelArrowOffset
      ensures this.wheelInfo == wheelInfo
      ensures !isSpinning
    {
      this.minSpins := minSpins;
      this.maxSpins := maxSpins;
      this.spinSpeed := spinSpeed;
      this.wheelArrowOffset := wheelArrowOffset;
      this.wheelInfo := wheelInfo;
      isSpinning := false;
    }

    /** The slices the selection loop walks: as many as the cached count, read
        from the current list. */
    ghost function DrawTable(): (table: seq<WheelSlice>)
      reads this, wheelInfo
      requires 0 <= wheelInfo.numSlices <= |wheelInfo.wheelSlices|
    {
      wheelInfo.wheelSlices[..wheelInfo.numSlices]
    }

    /** Starts a spin with the draws `rand` (the prize), `numSpins` (full
        turns) and `angleInSlice` (where in the slice to stop). Refused, with
        nothing drawn and the flag untouched, on an invalid wheel and then
        while a spin is in flight; a selection outside the slice range starts
        nothing either. */
    method Spin(rand: real, numSpins: int, angleInSlice: real) returns (started: Option<SpinRequest>)
      requires wheelInfo.Valid()
      requires wheelInfo.isWheelValid && !isSpinning ==>
                 && 0.0 <= rand <= 1.0
                 && wheelInfo.numSlices <= |wheelInfo.wheelSlices|
                 && minSpins <= numSpins < maxSpins
                 && wheelArrowOffset <= angleInSlice <= wheelInfo.sliceAngle
      modifies this`isSpinning
      ensures !wheelInfo.isWheelValid ==> started == None && isSpinning == old(isSpinning)
      ensures wheelInfo.isWheelValid && old(isSpinning) ==> started == None && isSpinning
      ensures wheelInfo.isWheelValid && !old(isSpinning) ==>
                && isSpinning == started.Some?
                && (started.None? ==> IsSelection(DrawTable(), rand, -1))
                && (started.Some? ==>
                      var i := started.value.prizeIndex;
                      && IsSelection(DrawTable(), rand, i)
                      && 0 <= i < wheelInfo.numSlices
                      && started.value.targetAngle == GetRandomSpinAngleToSlice(i, numSpins, angleInSlice))
      ensures wheelInfo.isWheelValid && !old(isSpinning) && rand < 1.0 &&
              wheelInfo.wheelSlices == wheelInfo.validatedSlices ==>
                && started.Some?
                && var i := started.value.prizeIndex;
                   0 <= i < |wheelInfo.wheelSlices| &&
                   Prefix(wheelInfo.wheelSlices, i) <= rand < Prefix(wheelInfo.wheelSlices, i + 1)
    {
      started := None;
      if !wheelInfo.IsWheelValid() {
        return;
      }
      if isSpinning {
        return;
      }

      var randomPrize := GetRandomPrizeIndex(rand);
      if randomPrize >= 0 && randomPrize < wheelInfo.GetNumberOfSlices() {
        var request := SpinToSlice(randomPrize, numSpins, angleInSlice);
        started := Some(request);
      }
      if wheelInfo.wheelSlices == wheelInfo.validatedSlices && rand < 1.0 {
        assert DrawTable() == wheelInfo.wheelSlices;
        SelectionCoverage(wheelInfo.wheelSlices, rand, randomPrize);
      }
    }

    /** The selection loop: walks the first `numSlices` slices in order,
        subtracting each rate from what is left of the draw, and returns the
        first slice whose rate exceeds the remainder, or -1. */
    method GetRandomPrizeIndex(rand: real) returns (prize: int)
      requires wheelInfo.Valid()
      requires 0.0 <= rand <= 1.0
      requires wheelInfo.numSlices <= |wheelInfo.wheelSlices|
      ensures IsSelection(DrawTable(), rand, prize)
    {
      ghost var s := DrawTable();
      var remaining := rand;
      var i := 0;
      while i < wheelInfo.GetNumberOfSlices()
        invariant 0 <= i <= |s|
        invariant remaining == rand - Prefix(s, i)
        invariant forall j :: 0 <= j < i ==> rand - Prefix(s, j) >= s[j].dropRate
      {
        if remaining < wheelInfo.GetDropRate(i) {
          return i;
        }
        PrefixStep(s, i);
        remaining := remaining - wheelInfo.GetDropRate(i);
        i := i + 1;
      }

      return -1;
    }

    /** Marks the spin as in flight and builds the rotation request whose
        completion will report `prizeIndex`. */
    method SpinToSlice(prizeIndex: int, numSpins: int, angleInSlice: real) returns (request: SpinRequest)
      requires wheelInfo.Valid()
      requires minSpins <= numSpins < maxSpins
      requires wheelArrowOffset <= angleInSlice <= wheelInfo.sliceAngle
      modifies this`isSpinning
      ensures isSpinning
      ensures request == SpinRequest(prizeIndex, GetRandomSpinAngleToSlice(prizeIndex, numSpins, angleInSlice))
    {
      isSpinning := true;

      var targetAngle := GetRandomSpinAngleToSlice(prizeIndex, numSpins, angleInSlice);
      request := SpinRequest(prizeIndex, targetAngle);
    }

    /** The cumulative target angle for slice `prizeIndex` with the draws
        `numSpins` and `angleInSlice`. It lies between the arrow offset and the
        far edge of the slice, `numSpins` turns on; modulo 360, it lies in the
        closed range the editor tests check, except at the far edge of the
        last slice. */
    function GetRandomSpinAngleToSlice(prizeIndex: int, numSpins: int, angleInSlice: real): (r: real)
      reads this, wheelInfo
      requires wheelInfo.Valid()
      requires minSpins <= numSpins < maxSpins
      requires wheelArrowOffset <= angleInSlice <= wheelInfo.sliceAngle
      ensures var base := numSpins as real * 360.0 + wheelInfo.sliceAngle * prizeIndex as real;
              base + wheelArrowOffset <= r <= base + wheelInfo.sliceAngle
      ensures && 0 <= prizeIndex < wheelInfo.numSlices
              && 0 <= numSpins && 0.0 <= wheelArrowOffset
              && (prizeIndex < wheelInfo.numSlices - 1 || angleInSlice < wheelInfo.sliceAngle)
              ==> wheelInfo.sliceAngle * prizeIndex as real + wheelArrowOffset
                    <= Remainder360(r)
                    <= wheelInfo.sliceAngle * prizeIndex as real + wheelInfo.sliceAngle
    {
      var sliceAngle := wheelInfo.GetSliceAngle();
      LandingInSector(wheelInfo.numSlices, sliceAngle, prizeIndex, numSpins,
                      wheelArrowOffset, angleInSlice);
      TargetAngle(numSpins, sliceAngle, prizeIndex, angleInSlice)
    }

    /** The completion callback: the spin is over, whatever state the flag
        was in, and the reward of the slice spun to is announced. */
    method EndSpin(prizeIndex: int) returns (reward: string)
      requires 0 <= prizeIndex < |wheelInfo.wheelSlices|
      modifies this`isSpinning
      ensures !isSpinning
      ensures reward == wheelInfo.wheelSlices[prizeIndex].winString
    {
      isSpinning := false;

      reward := GetReward(prizeIndex);
    }

    /** The reward string of slice `prizeIndex` of the generator's list. */
    function GetReward(prizeIndex: int): (r: string)
      reads this, wheelInfo
      requires 0 <= prizeIndex < |wheelInfo.wheelSlices|
      ensures r == wheelInfo.wheelSlices[prizeIndex].winString
    {
      wheelInfo.GetReward(prizeIndex)
    }
  }
}
