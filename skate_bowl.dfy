/** The bowl rib calculator (`calculateRibs` in skate-bowl-calculator/script.js):
    from the bowl's radius, corner angle, number of fan sections, rib spacing,
    maximum height and material thicknesses it derives the layout of the corner and
    the list of ribs to cut, from the top of the curve down towards the toe. */
module SkateBowl {
  import opened JsMath
  import opened Units
  import opened Arc

  /** The form's fields as numbers; radius and maximum height each come with their
      unit, every other length is in inches and the corner angle is in degrees. */
  datatype RibInput = RibInput(
    radiusValue: real, radiusUnit: string,
    cornerAngleDeg: real,
    numSections: int,
    ribSpacing: real,
    maxHeightValue: real, heightUnit: string,
    supportThickness: real,
    ribThickness: real)

  /** One rib to cut. `number` counts from 1 in the order the ribs are produced. */
  datatype Rib = Rib(
    number: int,
    distanceFromTop: real,
    arcFromBottom: real,
    height: real,
    length: real,
    miter: real,
    bevel: real)

  /** The layout values the page shows and draws beside the rib list. */
  datatype Geometry = Geometry(
    radius: real,
    maxHeight: real,
    alphaMax: real,
    cornerAngleRad: real,
    fanAngleRad: real,
    numSections: int,
    topRadius: real,
    topChord: real,
    fanAngleDeg: real)

  /** The values the rib loop reads: the curve's radius and arc length from toe to
      cutoff, where the first rib sits and how far apart the ribs are, the fan
      angle, and the deduction for the shared supports. */
  datatype RibPlan = RibPlan(
    radius: real,
    totalArcLength: real,
    ribThickness: real,
    ribSpacing: real,
    fanAngleRad: real,
    thicknessPerRib: real)

  /** How a calculation ends: rejected because the maximum height exceeds the
      radius (an alert in the source, before anything is computed), or with the
      layout, the loop's inputs and the ribs. An empty rib list is a result, not an
      error: the page reports that no ribs fit. */
  datatype RibOutcome =
    | MaxHeightExceedsRadius
    | Calculated(geometry: Geometry, plan: RibPlan, ribs: seq<Rib>)

  /** The support thickness deducted from each rib: the `numSections - 1` shared
      supports spread evenly over the `numSections` ribs of a row. Nothing is
      deducted for a single section, and for a thickness `w` that is not negative
      the deduction lies in [0, w). */
  function ThicknessPerRib(numSections: int, supportThickness: real): (d: real)
    requires numSections >= 1
    ensures numSections as real * d == (numSections - 1) as real * supportThickness
    ensures numSections == 1 ==> d == 0.0
    ensures supportThickness >= 0.0 ==> 0.0 <= d <= supportThickness
    ensures supportThickness > 0.0 ==> d < supportThickness
  {
    var n := numSections as real;
    var d := (numSections - 1) as real * supportThickness / n;
    DeductionBounds(n, supportThickness, d);
    d
  }

  lemma DeductionBounds(n: real, w: real, d: real)
    requires n >= 1.0 && d == (n - 1.0) * w / n
    ensures n * d == (n - 1.0) * w
    ensures w >= 0.0 ==> 0.0 <= d <= w
    ensures w > 0.0 ==> d < w
  {
  }

  /** Where the rib with 0-based index `k` sits, measured down the curve from the
      top edge: the first one rib-thickness down, each next one `ribSpacing`
      further. */
  function Position(plan: RibPlan, k: nat): real
  {
    plan.ribThickness + k as real * plan.ribSpacing
  }

  /** The angle, in radians, that an arc of the given length subtends on the curve:
      the arc is that angle times the radius. */
  function ArcAngle(plan: RibPlan, arc: real): (alpha: real)
    requires plan.radius > 0.0
    ensures alpha * plan.radius == arc
  {
    arc / plan.radius
  }

  /** The saw's table rotation, in radians, for a rib at angle `alpha` on the curve
      in a fan section of angle `fanAngleRad`: `asin(sin(fan/2) * sin(alpha))`. */
  function MiterAngle(trig: Trig, fanAngleRad: real, alpha: real): real
  {
    trig.asin(trig.sin(fanAngleRad / 2.0) * trig.sin(alpha))
  }

  /** The saw's blade tilt, in radians, for the same rib:
      `atan(tan(fan/2) * cos(alpha))`. */
  function BevelAngle(trig: Trig, fanAngleRad: real, alpha: real): real
  {
    trig.atan(trig.tan(fanAngleRad / 2.0) * trig.cos(alpha))
  }

  /** The rib with the given number whose bottom edge is `distanceFromTop` down the
      curve: its place measured from the toe, its height, its length across the fan
      section less the support deduction, and the two saw angles in degrees. The
      trigonometry is whatever `trig` says it is. */
  function MakeRib(plan: RibPlan, trig: Trig, number: int, distanceFromTop: real): (rib: Rib)
    requires plan.radius > 0.0
    ensures rib.number == number && rib.distanceFromTop == distanceFromTop
    ensures rib.arcFromBottom + distanceFromTop == plan.totalArcLength
    ensures rib.arcFromBottom > 0.0 <==> distanceFromTop < plan.totalArcLength
    ensures var alpha := ArcAngle(plan, rib.arcFromBottom);
            && (rib.height == 0.0 <==> trig.cos(alpha) == 1.0)
            && (rib.height >= 0.0 <==> trig.cos(alpha) <= 1.0)
            && rib.length + plan.thicknessPerRib
                 == 2.0 * plan.radius * trig.sin(alpha) * trig.tan(plan.fanAngleRad / 2.0)
            && rib.miter / 180.0 * PI == MiterAngle(trig, plan.fanAngleRad, alpha)
            && rib.bevel / 180.0 * PI == BevelAngle(trig, plan.fanAngleRad, alpha)
  {
    var arcFromBottom := plan.totalArcLength - distanceFromTop;
    var alpha := ArcAngle(plan, arcFromBottom);
    var height := plan.radius * (1.0 - trig.cos(alpha));
    var horizDist := plan.radius * trig.sin(alpha);
    var rawLength := 2.0 * horizDist * trig.tan(plan.fanAngleRad / 2.0);
    var ribLength := rawLength - plan.thicknessPerRib;
    var bevelRad := BevelAngle(trig, plan.fanAngleRad, alpha);
    var miterRad := MiterAngle(trig, plan.fanAngleRad, alpha);
    Rib(number, distanceFromTop, arcFromBottom, height, ribLength,
        Degrees(miterRad), Degrees(bevelRad))
  }

  /** The rib with 0-based index `k`, as a closed form of its index. */
  function RibAt(plan: RibPlan, trig: Trig, k: nat): Rib
    requires plan.radius > 0.0
  {
    MakeRib(plan, trig, k + 1, Position(plan, k))
  }

  /** How many ribs fit: the number of positions `Position(plan, k)` below the
      arc length, which is the ceiling of `(totalArcLength - ribThickness) /
      ribSpacing`, or none at all when the first rib does not fit. */
  function RibCount(plan: RibPlan): (count: nat)
    requires plan.ribSpacing > 0.0
    ensures forall k: nat :: k < count ==> Position(plan, k) < plan.totalArcLength
    ensures Position(plan, count) >= plan.totalArcLength
    ensures count == 0 <==> plan.ribThickness >= plan.totalArcLength
  {
    if plan.ribThickness >= plan.totalArcLength then
      0
    else
      var q := (plan.totalArcLength - plan.ribThickness) / plan.ribSpacing;
      var count := -((-q).Floor);
      CountFits(plan, q, count);
      count
  }

  lemma CountFits(plan: RibPlan, q: real, count: int)
    requires plan.ribSpacing > 0.0 && plan.ribThickness < plan.totalArcLength
    requires q == (plan.totalArcLength - plan.ribThickness) / plan.ribSpacing
    requires count == -((-q).Floor)
    ensures count >= 1
    ensures forall k: nat :: k < count ==> Position(plan, k) < plan.totalArcLength
    ensures Position(plan, count) >= plan.totalArcLength
  {
    var s := plan.ribSpacing;
    assert q * s == plan.totalArcLength - plan.ribThickness;
    DivCompare(plan.totalArcLength - plan.ribThickness, s, 0.0);
    assert (count - 1) as real < q <= count as real;
    forall k: nat | k < count
      ensures Position(plan, k) < plan.totalArcLength
    {
      ScaleStrict(k as real, q, s);
    }
    ScaleWeak(q, count as real, s);
  }

  lemma ScaleStrict(x: real, y: real, k: real)
    requires k > 0.0 && x < y
    ensures x * k < y * k
  {
  }

  lemma ScaleWeak(x: real, y: real, k: real)
    requires k > 0.0 && x <= y
    ensures x * k <= y * k
  {
  }

  /** Positions further down the list are further down the curve. */
  lemma PositionIncreases(plan: RibPlan, i: nat, j: nat)
    requires plan.ribSpacing > 0.0 && i < j
    ensures Position(plan, i) + plan.ribSpacing <= Position(plan, j)
  {
    ScaleWeak((i + 1) as real, j as real, plan.ribSpacing);
  }

  /** The rib loop of `calculateRibs`: starting one rib-thickness down from the top,
      it adds a rib and moves `ribSpacing` further down for as long as the position
      is still above the toe. The ribs are numbered 1, 2, ... in order; the k-th
      sits at `ribThickness + (k - 1) * ribSpacing`; every rib lies strictly above
      the toe and the next position would not; the list is empty exactly when
      the first rib does not fit; and the ribs' arc distances from the toe
      strictly decrease down the list. */
  method GenerateRibs(plan: RibPlan, trig: Trig) returns (ribs: seq<Rib>)
    requires plan.radius > 0.0 && plan.ribSpacing > 0.0
    ensures |ribs| == RibCount(plan)
    ensures forall i :: 0 <= i < |ribs| ==> ribs[i] == RibAt(plan, trig, i)
    ensures forall i :: 0 <= i < |ribs| ==>
              && ribs[i].number == i + 1
              && ribs[i].distanceFromTop == Position(plan, i)
              && ribs[i].distanceFromTop < plan.totalArcLength
              && ribs[i].arcFromBottom == plan.totalArcLength - ribs[i].distanceFromTop
              && ribs[i].arcFromBottom > 0.0
    ensures Position(plan, |ribs|) >= plan.totalArcLength
    ensures |ribs| == 0 <==> plan.ribThickness >= plan.totalArcLength
    ensures forall i, j :: 0 <= i < j < |ribs| ==> ribs[j].arcFromBottom < ribs[i].arcFromBottom
  {
    ribs := [];
    var distanceFromTop := plan.ribThickness;
    while distanceFromTop < plan.totalArcLength
      invariant |ribs| <= RibCount(plan)
      invariant distanceFromTop == Position(plan, |ribs|)
      invariant forall i :: 0 <= i < |ribs| ==> ribs[i] == RibAt(plan, trig, i)
      decreases RibCount(plan) - |ribs|
    {
      ribs := ribs + [MakeRib(plan, trig, |ribs| + 1, distanceFromTop)];
      distanceFromTop := distanceFromTop + plan.ribSpacing;
    }
    RibListFacts(plan, trig, ribs);
  }

  /** What the closed form says about a whole list of `RibCount` ribs. */
  lemma RibListFacts(plan: RibPlan, trig: Trig, ribs: seq<Rib>)
    requires plan.radius > 0.0 && plan.ribSpacing > 0.0
    requires |ribs| == RibCount(plan)
    requires forall i :: 0 <= i < |ribs| ==> ribs[i] == RibAt(plan, trig, i)
    ensures forall i :: 0 <= i < |ribs| ==>
              && ribs[i].number == i + 1
              && ribs[i].distanceFromTop == Position(plan, i)
              && ribs[i].distanceFromTop < plan.totalArcLength
              && ribs[i].arcFromBottom == plan.totalArcLength - ribs[i].distanceFromTop
              && ribs[i].arcFromBottom > 0.0
    ensures Position(plan, |ribs|) >= plan.totalArcLength
    ensures |ribs| == 0 <==> plan.ribThickness >= plan.totalArcLength
    ensures forall i, j :: 0 <= i < j < |ribs| ==> ribs[j].arcFromBottom < ribs[i].arcFromBottom
  {
    forall i | 0 <= i < |ribs|
      ensures && ribs[i].number == i + 1
              && ribs[i].distanceFromTop == Position(plan, i)
              && ribs[i].distanceFromTop < plan.totalArcLength
              && ribs[i].arcFromBottom == plan.totalArcLength - ribs[i].distanceFromTop
              && ribs[i].arcFromBottom > 0.0
    {
      RibAtPlacement(plan, trig, i);
    }
    forall i, j | 0 <= i < j < |ribs|
      ensures ribs[j].arcFromBottom < ribs[i].arcFromBottom
    {
      RibAtPlacement(plan, trig, i);
      RibAtPlacement(plan, trig, j);
      PositionIncreases(plan, i, j);
    }
  }

  /** Where the closed-form rib with index `k` sits. */
  lemma RibAtPlacement(plan: RibPlan, trig: Trig, k: nat)
    requires plan.radius > 0.0
    ensures RibAt(plan, trig, k).number == k + 1
    ensures RibAt(plan, trig, k).distanceFromTop == Position(plan, k)
    ensures RibAt(plan, trig, k).arcFromBottom == plan.totalArcLength - Position(plan, k)
  {
  }

  /** The arc angle of every rib, `arcFromBottom / radius`, is positive and at most
      the angle at the cutoff, because the arc length is `radius * alphaMax` and
      the first rib sits at or below the top edge. */
  lemma RibAngleBounds(plan: RibPlan, trig: Trig, alphaMax: real, k: nat)
    requires plan.radius > 0.0 && plan.ribSpacing > 0.0 && plan.ribThickness >= 0.0
    requires plan.totalArcLength == plan.radius * alphaMax
    requires k < RibCount(plan)
    ensures 0.0 < RibAt(plan, trig, k).arcFromBottom / plan.radius <= alphaMax
  {
    var arc := RibAt(plan, trig, k).arcFromBottom;
    assert 0.0 < arc <= plan.totalArcLength by {
      ScaleWeak(0.0, k as real, plan.ribSpacing);
    }
    DivCompare(arc, plan.radius, 0.0);
    DivCompare(arc, plan.radius, alphaMax);
  }

  /** `calculateRibs` without the page: the radius and maximum height are converted
      to inches first; a maximum height above the radius is rejected before any
      layout value or rib is computed. Otherwise the layout follows from the inputs
      (the fan angle is the corner angle shared equally by the sections, the arc
      length is `radius * alphaMax`, the `acos` argument is in [0, 1] when the
      height is not negative) and the ribs are those of the rib loop. */
  method CalculateRibs(input: RibInput, trig: Trig) returns (out: RibOutcome)
    requires ToInches(input.radiusValue, input.radiusUnit) > 0.0
    requires input.numSections >= 1 && input.ribSpacing > 0.0
    ensures var radius := ToInches(input.radiusValue, input.radiusUnit);
            var maxHeight := ToInches(input.maxHeightValue, input.heightUnit);
            && (out.MaxHeightExceedsRadius? <==> maxHeight > radius)
            && (out.Calculated? ==>
                  && out.geometry.radius == radius && out.geometry.maxHeight == maxHeight
                  && out.geometry.numSections == input.numSections
                  && 0.0 <= CosOfArcAngle(radius, maxHeight)
                  && (CosOfArcAngle(radius, maxHeight) <= 1.0 <==> maxHeight >= 0.0)
                  && out.geometry.alphaMax == trig.acos(CosOfArcAngle(radius, maxHeight))
                  && out.geometry.fanAngleDeg * input.numSections as real == input.cornerAngleDeg
                  && out.geometry.fanAngleRad == out.geometry.fanAngleDeg * PI / 180.0
                  && out.geometry.cornerAngleRad == input.cornerAngleDeg * PI / 180.0
                  && out.geometry.topRadius == radius * trig.sin(out.geometry.alphaMax)
                  && out.geometry.topChord
                       == 2.0 * out.geometry.topRadius * trig.sin(out.geometry.cornerAngleRad / 2.0)
                  && out.plan == RibPlan(radius, radius * out.geometry.alphaMax,
                                         input.ribThickness, input.ribSpacing,
                                         out.geometry.fanAngleRad,
                                         ThicknessPerRib(input.numSections, input.supportThickness))
                  && |out.ribs| == RibCount(out.plan)
                  && forall i :: 0 <= i < |out.ribs| ==> out.ribs[i] == RibAt(out.plan, trig, i))
  {
    var radius := ToInches(input.radiusValue, input.radiusUnit);
    var maxHeight := ToInches(input.maxHeightValue, input.heightUnit);
    if maxHeight > radius {
      return MaxHeightExceedsRadius;
    }
    var fanAngleDeg := input.cornerAngleDeg / input.numSections as real;
    var fanAngleRad := fanAngleDeg * PI / 180.0;
    var cornerAngleRad := input.cornerAngleDeg * PI / 180.0;
    var alphaMax := trig.acos(CosOfArcAngle(radius, maxHeight));
    var topRadius := radius * trig.sin(alphaMax);
    var topChord := 2.0 * topRadius * trig.sin(cornerAngleRad / 2.0);
    var totalArcLength := radius * alphaMax;
    var thicknessPerRib := ThicknessPerRib(input.numSections, input.supportThickness);
    var plan := RibPlan(radius, totalArcLength, input.ribThickness, input.ribSpacing,
                        fanAngleRad, thicknessPerRib);
    var ribs := GenerateRibs(plan, trig);
    var geometry := Geometry(radius, maxHeight, alphaMax, cornerAngleRad, fanAngleRad,
                             input.numSections, topRadius, topChord, fanAngleDeg);
    return Calculated(geometry, plan, ribs);
  }

  /** The worked layout of a 30" radius, 24" high corner with 6" spacing and 3/4"
      material: whatever the arc length works out to, as long as it lies in
      (36.75, 42.75] (acos(0.2) * 30 is about 41.05) exactly seven ribs fit, at
      0.75", 6.75", ..., 36.75" from the top, and each rib loses 1/2" to the two
      shared supports of three sections. */
  lemma WorkedLayout(totalArcLength: real)
    requires 36.75 < totalArcLength <= 42.75
    ensures RibCount(RibPlan(30.0, totalArcLength, 0.75, 6.0, 0.0, 0.5)) == 7
    ensures ThicknessPerRib(3, 0.75) == 0.5
  {
  }
}
