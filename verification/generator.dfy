/**
 * The wheel configuration component: the slice list, its validation (non-empty,
 * drop rates summing to exactly 1), the cached validity flag, slice count and
 * slice angle, the per-index queries, and the layout of the slices.
 */
module Generator {
  import opened Geometry

  /** One prize on the wheel. The icon sprite is display data the logic never
      reads and is not part of this model. */
  datatype WheelSlice = WheelSlice(winString: string, dropRate: real, uiText: string)

  /** Where a slice is drawn: its label and its rotation about the hub. */
  datatype SlicePlacement = SlicePlacement(uiText: string, rotateAngle: real)

  /** Sum of the drop rates, accumulated front to back. */
  function SumRates(s: seq<WheelSlice>): (sum: real)
  {
    if s == [] then 0.0 else SumRates(s[..|s| - 1]) + s[|s| - 1].dropRate
  }

  /** The two configuration rules: at least one slice, and drop rates that add
      up to exactly 1 (the comparison has no tolerance). */
  predicate IsValidTable(s: seq<WheelSlice>)
  {
    |s| > 0 && SumRates(s) == 1.0
  }

  /** The inspector's range for a drop rate. Nothing in the code enforces it:
      a list set from code may hold any rates. */
  predicate RatesInRange(s: seq<WheelSlice>)
  {
    forall i :: 0 <= i < |s| ==> 0.0 <= s[i].dropRate <= 1.0
  }

  /** The cached part of the generator's state. */
  datatype Cache = Cache(numSlices: int, sliceAngle: real, isWheelValid: bool)

  /** The cache after initialisation on `slices`, starting from `c`: the flag is
      recomputed; count and angle are replaced only when the list is valid. */
  function Initialized(c: Cache, slices: seq<WheelSlice>): (r: Cache)
    ensures r.isWheelValid <==> IsValidTable(slices)
    ensures r.isWheelValid ==> r.numSlices == |slices| && r.sliceAngle * |slices| as real == 360.0
    ensures !r.isWheelValid ==> r.numSlices == c.numSlices && r.sliceAngle == c.sliceAngle
  {
    if IsValidTable(slices) then Cache(|slices|, 360.0 / |slices| as real, true)
    else c.(isWheelValid := false)
  }

  /** Initialising twice on the same list gives what initialising once gave. */
  lemma InitializeIdempotent(c: Cache, slices: seq<WheelSlice>)
    ensures Initialized(Initialized(c, slices), slices) == Initialized(c, slices)
  {
  }

  /** Whatever list a successful initialisation saw, the slices tile the
      circle: the angle is positive and `numSlices` of them make 360 degrees. */
  lemma InitializedGeometry(c: Cache, slices: seq<WheelSlice>)
    requires Initialized(c, slices).isWheelValid
    ensures var r := Initialized(c, slices);
            r.sliceAngle > 0.0 && r.numSlices as real * r.sliceAngle == 360.0
  {
  }

  class WheelGenerator {
    var wheelSlices: seq<WheelSlice>
    var numSlices: int
    var sliceAngle: real
    var isWheelValid: bool
    /** The list as it was when the flag was last computed. */
    ghost var validatedSlices: seq<WheelSlice>

    /** The cache is either untouched (no slices, angle 0) or describes a list
        that once passed validation; the flag, when set, vouches for the list
        seen at the last initialisation, which need not be the current one. */
    ghost predicate Valid()
      reads this
    {
      && FlagSound()
      && numSlices >= 0
      && (numSlices == 0 ==> sliceAngle == 0.0)
      && (numSlices > 0 ==> sliceAngle == 360.0 / numSlices as real)
      && (isWheelValid ==> numSlices == |validatedSlices|)
    }

    /** The flag is only ever set by a validation that succeeded. */
    ghost predicate FlagSound()
      reads this
    {
      isWheelValid ==> IsValidTable(validatedSlices)
    }

    function Cached(): (c: Cache)
      reads this
    {
      Cache(numSlices, sliceAngle, isWheelValid)
    }

    /** A new component: empty list, nothing cached, not valid. */
    constructor ()
      ensures Valid()
      ensures wheelSlices == [] && Cached() == Cache(0, 0.0, false)
    {
      wheelSlices := [];
      numSlices := 0;
      sliceAngle := 0.0;
      isWheelValid := false;
      validatedSlices := [];
    }

    /** Replaces the list without revalidating it. */
    method SetTestSlices(testSlices: seq<WheelSlice>)
      requires Valid()
      modifies this`wheelSlices
      ensures Valid()
      ensures wheelSlices == testSlices
    {
      wheelSlices := testSlices;
    }

    /** Recomputes the validity flag from the current list. */
    method ValidateWheel()
      modifies this`isWheelValid, this`validatedSlices
      ensures isWheelValid <==> IsValidTable(wheelSlices)
      ensures |wheelSlices| == 0 ==> !isWheelValid
      ensures validatedSlices == wheelSlices && FlagSound()
    {
      var isValid := true;
      if |wheelSlices| == 0 {
        isValid := false;
      }

      var totalSum := 0.0;
      var i := 0;
      while i < |wheelSlices|
        invariant 0 <= i <= |wheelSlices|
        invariant totalSum == SumRates(wheelSlices[..i])
      {
        assert wheelSlices[..i + 1][..i] == wheelSlices[..i];
        totalSum := totalSum + wheelSlices[i].dropRate;
        i := i + 1;
      }
      assert wheelSlices[..i] == wheelSlices;
      if totalSum != 1.0 {
        isValid := false;
      }

      isWheelValid := isValid;
      validatedSlices := wheelSlices;
    }

    /** Validates the list; on success caches its count and slice angle. */
    method InitializeWheel()
      requires Valid()
      modifies this`isWheelValid, this`validatedSlices, this`numSlices, this`sliceAngle
      ensures Valid()
      ensures Cached() == Initialized(old(Cached()), wheelSlices)
      ensures validatedSlices == wheelSlices
    {
      ValidateWheel();
      if !IsWheelValid() {
        return;
      }

      numSlices := |wheelSlices|;
      sliceAngle := 360.0 / numSlices as real;
    }

    /** Lays the slices out around the hub, slice `i` centred in its sector;
        nothing is laid out on an invalid wheel. */
    method GenerateSlices() returns (layout: seq<SlicePlacement>)
      requires Valid()
      requires isWheelValid ==> numSlices <= |wheelSlices|
      ensures !isWheelValid ==> layout == []
      ensures isWheelValid ==> |layout| == numSlices
      ensures isWheelValid ==> forall i :: 0 <= i < |layout| ==>
                layout[i].uiText == wheelSlices[i].uiText &&
                sliceAngle * i as real < layout[i].rotateAngle < sliceAngle * i as real + sliceAngle &&
                layout[i].rotateAngle == SliceCentre(i, sliceAngle)
    {
      layout := [];
      if !isWheelValid {
        return;
      }

      var halfAngle := sliceAngle / 2.0;
      for i := 0 to numSlices
        invariant |layout| == i
        invariant forall k :: 0 <= k < i ==>
                    layout[k] == SlicePlacement(wheelSlices[k].uiText, SliceCentre(k, sliceAngle))
      {
        var sliceInfo := wheelSlices[i];
        var rotateAngle := i as real * sliceAngle + halfAngle;
        layout := layout + [SlicePlacement(sliceInfo.uiText, rotateAngle)];
      }
    }

    function GetDropRate(prizeIndex: int): (r: real)
      reads this
      requires 0 <= prizeIndex < |wheelSlices|
      ensures r == wheelSlices[prizeIndex].dropRate
    {
      wheelSlices[prizeIndex].dropRate
    }

    function GetReward(prizeIndex: int): (r: string)
      reads this
      requires 0 <= prizeIndex < |wheelSlices|
      ensures r == wheelSlices[prizeIndex].winString
    {
      wheelSlices[prizeIndex].winString
    }

    /** The cached flag: it speaks for the list seen at the last
        initialisation and is not recomputed from the current one. */
    function IsWheelValid(): (r: bool)
      reads this
      requires FlagSound()
      ensures r ==> IsValidTable(validatedSlices)
    {
      isWheelValid
    }

    function GetNumberOfSlices(): (r: int)
      reads this
      requires Valid()
      ensures r >= 0
      ensures isWheelValid ==> r == |validatedSlices|
    {
      numSlices
    }

    function GetSliceAngle(): (r: real)
      reads this
      requires Valid()
      ensures r >= 0.0
      ensures numSlices > 0 ==> r > 0.0 && numSlices as real * r == 360.0
    {
      sliceAngle
    }
  }
}
