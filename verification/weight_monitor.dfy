/** The bag-weight card: the weight as a percentage of the recommended
    maximum, the colour and status text chosen from that percentage, the
    "overweight" banner (which compares the weights directly) and the width of
    the bar under the gauge. */
module WeightMonitor {
  import opened JsNumber
  import opened CircularProgress

  /** The recommended maximum when the card is given none; the Home screen
      also passes 5 explicitly. */
  const DefaultMaxWeight: real := 5.0

  /** With the default 5 kg maximum the card turns red from 5 kg and amber
      from 3.75 kg. */
  lemma DefaultMaximumTiers(weight: real)
    ensures WeightColor(weight, DefaultMaxWeight) == Error <==> weight >= 5.0
    ensures WeightColor(weight, DefaultMaxWeight) == Secondary <==> 3.75 <= weight < 5.0
  {
    TiersByWeight(weight, DefaultMaxWeight);
  }

  /** `currentWeight / maxRecommendedWeight * 100`; for a positive maximum
      this is the finite ratio. */
  function WeightPercentage(weight: real, max: real): (p: Num)
    ensures max > 0.0 ==> p == Finite(weight / max * 100.0)
    ensures max == 0.0 ==> !p.Finite?
  {
    Scale(Div(weight, max), 100.0)
  }

  /** The red banner compares the weights directly, strictly above the
      maximum; for a positive maximum the gauge then always reads the error
      tier. */
  function IsOverweight(weight: real, max: real): (over: bool)
    ensures over <==> weight > max
    ensures max > 0.0 && over ==> WeightColor(weight, max) == Error
  {
    if max > 0.0 then
      DivAtLeast(weight, max, 1.0);
      weight > max
    else
      weight > max
  }

  /** Error from 100 % up, secondary from 75 %, accent below (and for NaN). */
  function WeightColor(weight: real, max: real): (c: Color)
    ensures c != Primary
    ensures c == Error <==> Ge(WeightPercentage(weight, max), 100.0)
    ensures c == Secondary <==> !Ge(WeightPercentage(weight, max), 100.0) && Ge(WeightPercentage(weight, max), 75.0)
  {
    var p := WeightPercentage(weight, max);
    if Ge(p, 100.0) then Error
    else if Ge(p, 75.0) then Secondary
    else Accent
  }

  /** The status text uses the colour's tiers word for word. */
  function StatusText(weight: real, max: real): (t: string)
    ensures WeightColor(weight, max) == Error ==> t == "Too Heavy!"
    ensures WeightColor(weight, max) == Secondary ==> t == "Getting Heavy"
    ensures WeightColor(weight, max) == Accent ==> t == "Good Weight"
  {
    var p := WeightPercentage(weight, max);
    if Ge(p, 100.0) then "Too Heavy!"
    else if Ge(p, 75.0) then "Getting Heavy"
    else "Good Weight"
  }

  /** `Math.min(weightPercentage, 100)`: never above 100, equal to the
      percentage up to the maximum and exactly 100 from there on. */
  function BarWidth(weight: real, max: real): (w: Num)
    ensures w.Finite? ==> w.v <= 100.0
    ensures max > 0.0 ==> w.Finite?
    ensures max > 0.0 && weight <= max ==> w == WeightPercentage(weight, max)
    ensures max > 0.0 && weight >= max ==> w == Finite(100.0)
  {
    RatioAtMostHundred(weight, max);
    Min(WeightPercentage(weight, max), 100.0)
  }

  lemma RatioAtMostHundred(weight: real, max: real)
    ensures max > 0.0 && weight <= max ==> weight / max * 100.0 <= 100.0
    ensures max > 0.0 && weight >= max ==> weight / max * 100.0 >= 100.0
  {
    if max > 0.0 {
      var q := weight / max;
      assert q * max == weight;
    }
  }

  /** For a positive maximum the tiers are weight comparisons: "Too Heavy!"
      from `weight == max` on, "Getting Heavy" from three quarters of it. */
  lemma {:induction false} TiersByWeight(weight: real, max: real)
    requires max > 0.0
    ensures WeightColor(weight, max) == Error <==> weight >= max
    ensures WeightColor(weight, max) == Secondary <==> 0.75 * max <= weight < max
    ensures IsOverweight(weight, max) ==> WeightColor(weight, max) == Error
  {
    DivAtLeast(weight, max, 1.0);
    DivAtLeast(weight, max, 0.75);
  }

  /** At exactly the maximum the gauge already reads "Too Heavy!" in the
      error colour while the red overweight banner stays hidden. */
  lemma AtMaximumTooHeavyWithoutBanner(max: real)
    requires max > 0.0
    ensures StatusText(max, max) == "Too Heavy!"
    ensures WeightColor(max, max) == Error
    ensures !IsOverweight(max, max)
  {
    TiersByWeight(max, max);
  }
}
