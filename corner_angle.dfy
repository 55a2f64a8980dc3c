/** The corner-angle calculator (`calculateCornerAngle` in
    corner-angle-calculator/script.js): from a curve radius, the height at which
    the curve is cut off and the straight-line distance across the top of the
    corner, it derives the arc angle, the top radius and the corner angle. */
module CornerAngle {
  import opened JsMath
  import opened Units
  import opened Arc

  /** The form's fields as numbers; radius and height each come with their unit,
      the chord is always in inches. */
  datatype CornerInput = CornerInput(
    radiusValue: real, radiusUnit: string,
    heightValue: real, heightUnit: string,
    chordInches: real)

  /** Everything the calculation derives when it gets through both checks. */
  datatype CornerAngleResult = CornerAngleResult(
    radiusInches: real,
    heightInches: real,
    cosAlpha: real,
    alpha: real,
    topRadius: real,
    sinHalfTheta: real,
    cornerAngle: real,
    cornerAngleDegrees: real)

  /** The ways a calculation ends: one of the two rejections (each an alert in the
      source), an angle, or a top radius of zero, where the source divides by zero
      and shows NaN for the angle. */
  datatype CornerOutcome =
    | HeightExceedsRadius
    | ChordTooWide
    | AngleUndefined
    | Angle(result: CornerAngleResult)

  /** The horizontal distance from the toe at the top of the curve, `R * sin(alpha)`. */
  function TopRadius(radiusInches: real, heightInches: real, trig: Trig): (top: real)
    requires radiusInches > 0.0
    ensures var sinAlpha := trig.sin(trig.acos(CosOfArcAngle(radiusInches, heightInches)));
            && (top == 0.0 <==> sinAlpha == 0.0)
            && (top > 0.0 <==> sinAlpha > 0.0)
            && (top <= radiusInches <==> sinAlpha <= 1.0)
            && (top == radiusInches <==> sinAlpha == 1.0)
  {
    ScaleByRadius(radiusInches, trig.sin(trig.acos(CosOfArcAngle(radiusInches, heightInches))));
    radiusInches * trig.sin(trig.acos(CosOfArcAngle(radiusInches, heightInches)))
  }

  lemma ScaleByRadius(radius: real, s: real)
    requires radius > 0.0
    ensures radius * s == 0.0 <==> s == 0.0
    ensures radius * s > 0.0 <==> s > 0.0
    ensures radius * s <= radius <==> s <= 1.0
    ensures radius * s == radius <==> s == 1.0
  {
  }

  /** `calculateCornerAngle` without the page: both lengths are converted to inches
      first; a height above the radius is rejected before anything else is
      computed; only then is the top radius computed and a chord wider than twice
      it rejected. Every argument that reaches `acos` lies in [0, 1] when the
      height is not negative, and every argument that reaches `asin` lies in
      [0, 1] when the top radius is positive and the chord is not negative. */
  function CalculateCornerAngle(input: CornerInput, trig: Trig): (r: CornerOutcome)
    requires ToInches(input.radiusValue, input.radiusUnit) > 0.0
    ensures var radius := ToInches(input.radiusValue, input.radiusUnit);
            var height := ToInches(input.heightValue, input.heightUnit);
            && (r.HeightExceedsRadius? <==> height > radius)
            && (r.ChordTooWide? <==>
                  height <= radius && input.chordInches > 2.0 * TopRadius(radius, height, trig))
            && (r.AngleUndefined? <==>
                  height <= radius && input.chordInches <= 2.0 * TopRadius(radius, height, trig)
                  && TopRadius(radius, height, trig) == 0.0)
            && (r.Angle? ==>
                  && r.result.radiusInches == radius && r.result.heightInches == height
                  && r.result.cosAlpha == CosOfArcAngle(radius, height)
                  && r.result.alpha == trig.acos(r.result.cosAlpha)
                  && r.result.topRadius == radius * trig.sin(r.result.alpha)
                  && r.result.topRadius == TopRadius(radius, height, trig)
                  && r.result.cornerAngle == 2.0 * trig.asin(r.result.sinHalfTheta)
                  && r.result.cornerAngleDegrees == r.result.cornerAngle * (180.0 / PI)
                  && r.result.topRadius != 0.0
                  && 0.0 <= r.result.cosAlpha
                  && (r.result.cosAlpha <= 1.0 <==> height >= 0.0)
                  && r.result.sinHalfTheta * 2.0 * r.result.topRadius == input.chordInches
                  && (r.result.topRadius > 0.0 ==> r.result.sinHalfTheta <= 1.0)
                  && (r.result.topRadius > 0.0 ==>
                        (0.0 <= r.result.sinHalfTheta <==> 0.0 <= input.chordInches)))
  {
    var radiusInches := ToInches(input.radiusValue, input.radiusUnit);
    var heightInches := ToInches(input.heightValue, input.heightUnit);
    if heightInches > radiusInches then
      HeightExceedsRadius
    else
      var cosAlpha := CosOfArcAngle(radiusInches, heightInches);
      var alpha := trig.acos(cosAlpha);
      var topRadius := radiusInches * trig.sin(alpha);
      if input.chordInches > 2.0 * topRadius then
        ChordTooWide
      else if topRadius == 0.0 then
        AngleUndefined
      else
        var sinHalfTheta := input.chordInches / (2.0 * topRadius);
        var cornerAngle := 2.0 * trig.asin(sinHalfTheta);
        var cornerAngleDegrees := cornerAngle * (180.0 / PI);
        HalfChordRatio(input.chordInches, topRadius);
        Angle(CornerAngleResult(radiusInches, heightInches, cosAlpha, alpha, topRadius,
                                sinHalfTheta, cornerAngle, cornerAngleDegrees))
  }

  /** What `chord / (2 * topRadius)` satisfies once the chord check has passed. */
  lemma HalfChordRatio(chord: real, topRadius: real)
    requires topRadius != 0.0 && chord <= 2.0 * topRadius
    ensures chord / (2.0 * topRadius) * 2.0 * topRadius == chord
    ensures topRadius > 0.0 ==> chord / (2.0 * topRadius) <= 1.0
    ensures topRadius > 0.0 ==> (0.0 <= chord / (2.0 * topRadius) <==> 0.0 <= chord)
  {
  }
}
