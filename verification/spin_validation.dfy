/**
 * The editor-test scenario: eight slices with the rates
 * 0.2, 0.1, 0.1, 0.1, 0.05, 0.2, 0.05, 0.2, three to ten full turns and an
 * arrow offset of 3 degrees.
 */
module SpinValidation {
  import opened Geometry
  import opened Generator
  import opened Spinner

  function TestSlices(): (slices: seq<WheelSlice>)
  {
    [ WheelSlice("Life 30 min", 0.2, ""),
      WheelSlice("Brush 3X", 0.1, ""),
      WheelSlice("Gems 35", 0.1, ""),
      WheelSlice("Hammer 3X", 0.1, ""),
      WheelSlice("Coins 750", 0.05, ""),
      WheelSlice("Brush 1X", 0.2, ""),
      WheelSlice("Gems 75", 0.05, ""),
      WheelSlice("Hammer 1X", 0.2, "") ]
  }

  /** The running sums of the test rates. */
  lemma TestPrefixes()
    ensures var t := TestSlices();
            && Prefix(t, 0) == 0.0 && Prefix(t, 1) == 0.2 && Prefix(t, 2) == 0.3
            && Prefix(t, 3) == 0.4 && Prefix(t, 4) == 0.5 && Prefix(t, 5) == 0.55
            && Prefix(t, 6) == 0.75 && Prefix(t, 7) == 0.8 && Prefix(t, 8) == 1.0
  {
    var t := TestSlices();
    assert t[..0] == [];
    PrefixStep(t, 0);
    PrefixStep(t, 1);
    PrefixStep(t, 2);
    PrefixStep(t, 3);
    PrefixStep(t, 4);
    PrefixStep(t, 5);
    PrefixStep(t, 6);
    PrefixStep(t, 7);
  }

  /** The test table passes validation, and its slices are 45 degrees wide. */
  lemma TestTableIsValid()
    ensures IsValidTable(TestSlices()) && RatesInRange(TestSlices())
    ensures 360.0 / |TestSlices()| as real == 45.0
  {
    TestPrefixes();
    PrefixWhole(TestSlices());
  }

  /** The draws 0.15, 0.25 and 0.999 select slices 0, 1 and 7. */
  lemma TestTableSelections()
    ensures IsSelection(TestSlices(), 0.15, 0)
    ensures IsSelection(TestSlices(), 0.25, 1)
    ensures IsSelection(TestSlices(), 0.999, 7)
  {
    TestPrefixes();
    TestTableIsValid();
    BandSelects(TestSlices(), 0.15, 0);
    BandSelects(TestSlices(), 0.25, 1);
    BandSelects(TestSlices(), 0.999, 7);
  }

  /** A wheel and spinner set up as the editor tests set them up. */
  method SetUpTestWheel() returns (spinner: WheelSpinner)
    ensures fresh(spinner) && fresh(spinner.wheelInfo)
    ensures spinner.wheelInfo.Valid() && spinner.wheelInfo.isWheelValid
    ensures spinner.wheelInfo.wheelSlices == spinner.wheelInfo.validatedSlices == TestSlices()
    ensures spinner.wheelInfo.numSlices == 8 && spinner.wheelInfo.sliceAngle == 45.0
    ensures spinner.minSpins == 3 && spinner.maxSpins == 10 && spinner.wheelArrowOffset == 3.0
    ensures !spinner.isSpinning
  {
    var wheelGenerator := new WheelGenerator();
    wheelGenerator.SetTestSlices(TestSlices());
    wheelGenerator.InitializeWheel();
    TestTableIsValid();

    spinner := new WheelSpinner.InitializeValues(3, 10, 360.0, 3.0, wheelGenerator);
  }

  /** The sector check of the editor tests: for each slice `i` and any draws
      that do not put the arrow on the far edge of the last slice, the target
      angle modulo 360 lies in [45 i + 3, 45 i + 45], and the reward reported
      is the slice's own. */
  method SpinToPrizeLandsOnCorrectSlice(i: int, numSpins: int, angleInSlice: real)
    returns (result: real, reward: string)
    requires 0 <= i < 8 && 3 <= numSpins < 10 && 3.0 <= angleInSlice <= 45.0
    requires i < 7 || angleInSlice < 45.0
    ensures 45.0 * i as real + 3.0 <= result <= 45.0 * i as real + 45.0
    ensures reward == TestSlices()[i].winString
  {
    var spinner := SetUpTestWheel();
    var target := spinner.GetRandomSpinAngleToSlice(i, numSpins, angleInSlice);
    result := Remainder360(target);
    reward := spinner.GetReward(i);
  }

  /** idle -> spinning -> idle: the draw 0.15 starts a spin to slice 0, a
      second request while it is in flight is refused, and completion
      announces "Life 30 min" and leaves the spinner idle. */
  method SpinLifecycle()
    returns (first: Option<SpinRequest>, second: Option<SpinRequest>, reward: string,
             spinningBetween: bool, spinningAfter: bool)
    ensures first.Some? && first.value.prizeIndex == 0
    ensures second == None && spinningBetween
    ensures reward == "Life 30 min" && !spinningAfter
  {
    var spinner := SetUpTestWheel();
    first := spinner.Spin(0.15, 5, 20.0);
    assert spinner.DrawTable() == TestSlices();
    TestTableSelections();
    SelectionUnique(TestSlices(), 0.15, 0, first.value.prizeIndex);

    second := spinner.Spin(0.999, 4, 10.0);
    spinningBetween := spinner.isSpinning;

    reward := spinner.EndSpin(first.value.prizeIndex);
    spinningAfter := spinner.isSpinning;
  }
}
