/**
 * The earlier single-component wheel, which the spin button still calls:
 * same slice layout and target-angle arithmetic, but the prize is drawn
 * uniformly from [1, numSlices), ignoring the drop rates, and nothing guards
 * against an invalid list or a spin already in flight.
 */
module LegacyWheel {
  import opened Geometry
  import opened Generator

  class Wheel {
    /** How many degrees the arrow sits past 0. */
    var wheelArrowOffset: real
    var minSpins: int
    var maxSpins: int
    /** Degrees per second; only the animation reads it. */
    var spinSpeed: real
    var wheelSlices: seq<WheelSlice>
    var numSlices: int
    var sliceAngle: real

    /** The inspector settings of a new component; nothing generated yet. */
    constructor (wheelArrowOffset: real, minSpins: int, maxSpins: int, spinSpeed: real,
                 wheelSlices: seq<WheelSlice>)
      ensures this.wheelArrowOffset == wheelArrowOffset
      ensures this.minSpins == minSpins && this.maxSpins == maxSpins
      ensures this.spinSpeed == spinSpeed && this.wheelSlices == wheelSlices
      ensures numSlices == 0 && sliceAngle == 0.0
    {
      this.wheelArrowOffset := wheelArrowOffset;
      this.minSpins := minSpins;
      this.maxSpins := maxSpins;
      this.spinSpeed := spinSpeed;
      this.wheelSlices := wheelSlices;
      numSlices := 0;
      sliceAngle := 0.0;
    }

    /** The state GenerateSlices leaves: count and angle describe the list. */
    ghost predicate Generated()
      reads this
    {
      numSlices == |wheelSlices| > 0 && sliceAngle == 360.0 / numSlices as real
    }

    /** Caches the count and the slice angle, then lays the slices out, slice
        `i` centred in its sector. */
    method GenerateSlices() returns (layout: seq<SlicePlacement>)
      requires |wheelSlices| > 0
      modifies this`numSlices, this`sliceAngle
      ensures Generated()
      ensures sliceAngle > 0.0 && numSlices as real * sliceAngle == 360.0
      ensures |layout| == numSlices
      ensures forall i :: 0 <= i < |layout| ==>
                layout[i].uiText == wheelSlices[i].uiText &&
                sliceAngle * i as real < layout[i].rotateAngle < sliceAngle * i as real + sliceAngle &&
                layout[i].rotateAngle == SliceCentre(i, sliceAngle)
    {
      numSlices := |wheelSlices|;

      sliceAngle := 360.0 / numSlices as real;
      var halfAngle := sliceAngle / 2.0;

      layout := [];
      for i := 0 to numSlices
        invariant |layout| == i
        invariant forall k :: 0 <= k < i ==>
                    layout[k] == SlicePlacement(wheelSlices[k].uiText, SliceCentre(k, sliceAngle))
      {
        var sliceInfo := wheelSlices[i];
        var rotateAngle := i as real * sliceAngle + halfAngle;
        layout := layout + [SlicePlacement(sliceInfo.uiText, rotateAngle)];
      }
    }

    /** Every call draws a prize and starts a rotation to it: there is no
        validity or in-flight check. The prize is never slice 0, and its
        completion reports that slice's reward. */
    method Spin(prizeDraw: int, numSpins: int, angleInSlice: real) returns (request: SpinRequest)
      requires Generated()
      requires 1 <= prizeDraw < numSlices
      requires minSpins <= numSpins < maxSpins
      requires wheelArrowOffset <= angleInSlice <= sliceAngle
      ensures request.prizeIndex == GetRandomPrize(prizeDraw)
      ensures 1 <= request.prizeIndex < |wheelSlices|
      ensures request.targetAngle == GetRandomSpinAngleToSlice(request.prizeIndex, numSpins, angleInSlice)
      ensures request.prizeIndex == prizeDraw
    {
      var randomPrize := GetRandomPrize(prizeDraw);

      request := SpinToSlice(randomPrize, numSpins, angleInSlice);
    }

    /** The rotation request for slice `i`, whose completion logs slice `i`'s
        reward. */
    method SpinToSlice(i: int, numSpins: int, angleInSlice: real) returns (request: SpinRequest)
      requires Generated()
      requires minSpins <= numSpins < maxSpins
      requires wheelArrowOffset <= angleInSlice <= sliceAngle
      ensures request.prizeIndex == i
      ensures request.targetAngle == GetRandomSpinAngleToSlice(i, numSpins, angleInSlice)
    {
      var targetAngle := GetRandomSpinAngleToSlice(i, numSpins, angleInSlice);

      request := SpinRequest(i, targetAngle);
    }

    /** The reward of slice `i`, reported when its rotation completes. */
    function LogReward(i: int): (r: string)
      reads this
      requires 0 <= i < |wheelSlices|
      ensures r == wheelSlices[i].winString
    {
      wheelSlices[i].winString
    }

    /** The prize for the integer draw `prizeDraw` from [1, numSlices): the
        drop rates play no part, and slice 0 can never be drawn. */
    function GetRandomPrize(prizeDraw: int): (r: int)
      reads this
      requires Generated()
      requires 1 <= prizeDraw < numSlices
      ensures 0 < r < |wheelSlices|
    {
      prizeDraw
    }

    /** The cumulative target angle for slice `i`, the same arithmetic as the
        spin engine's: between the arrow offset and the far edge of the slice,
        `numSpins` turns on, and modulo 360 in the closed range the editor
        tests check, except at the far edge of the last slice. */
    function GetRandomSpinAngleToSlice(i: int, numSpins: int, angleInSlice: real): (r: real)
      reads this
      requires Generated()
      requires minSpins <= numSpins < maxSpins
      requires wheelArrowOffset <= angleInSlice <= sliceAngle
      ensures var base := numSpins as real * 360.0 + sliceAngle * i as real;
              base + wheelArrowOffset <= r <= base + sliceAngle
      ensures && 0 <= i < numSlices && 0 <= numSpins && 0.0 <= wheelArrowOffset
              && (i < numSlices - 1 || angleInSlice < sliceAngle)
              ==> sliceAngle * i as real + wheelArrowOffset
                    <= Remainder360(r)
                    <= sliceAngle * i as real + sliceAngle
    {
      LandingInSector(numSlices, sliceAngle, i, numSpins, wheelArrowOffset, angleInSlice);
      TargetAngle(numSpins, sliceAngle, i, angleInSlice)
    }
  }
}
