/** The arc relation both calculators start from: a curve of radius `R` cut off at
    height `h` above its toe sweeps the angle `acos(1 - h/R)`. */
module Arc {

  /** The cosine of the arc angle at height `height`: the argument both calculators
      hand to `Math.acos`. It lies in acos's domain [-1, 1] exactly when
      `0 <= height <= 2 * radius`; after the "height exceeds radius" check it is
      never negative, and it is at most 1 exactly when the height is not negative. */
  function CosOfArcAngle(radius: real, height: real): (c: real)
    requires radius > 0.0
    ensures c >= 0.0 <==> height <= radius
    ensures c <= 1.0 <==> height >= 0.0
    ensures -1.0 <= c <= 1.0 <==> 0.0 <= height <= 2.0 * radius
    ensures c == 1.0 <==> height == 0.0
    ensures c == 0.0 <==> height == radius
  {
    RatioCompare(height, radius);
    1.0 - height / radius
  }

  /** How `height / radius` compares with 0, 1 and 2. */
  lemma RatioCompare(height: real, radius: real)
    requires radius > 0.0
    ensures height / radius <= 1.0 <==> height <= radius
    ensures height / radius == 1.0 <==> height == radius
    ensures height / radius <= 2.0 <==> height <= 2.0 * radius
    ensures height / radius >= 0.0 <==> height >= 0.0
    ensures height / radius == 0.0 <==> height == 0.0
  {
    DivCompare(height, radius, 1.0);
    DivCompare(height, radius, 2.0);
    DivCompare(height, radius, 0.0);
  }

  /** Dividing by a positive number keeps comparisons. */
  lemma DivCompare(a: real, k: real, c: real)
    requires k > 0.0
    ensures a / k <= c <==> a <= c * k
    ensures a / k >= c <==> a >= c * k
    ensures a / k == c <==> a == c * k
  {
  }
}
