/** The two calculators format lengths by different routes; this module relates
    them. */
module Formatters {
  import opened JsMath
  import opened Sixteenths
  import opened SkateBowlFormat
  import opened CornerAngleFormat

  /** For a length that is not negative both formatters round to the same number
      of sixteenths, show a fraction in the same cases and, when they do, the same
      fraction; they differ only in that the corner calculator prints a zero whole
      part ("0 1/8" against "1/8"). */
  lemma FormattersAgree(inches: real, p: Printed, q: Printed)
    requires inches >= 0.0
    requires FormatsFraction(inches, p) && FormatsInches(inches, q)
    ensures !p.Whole? ==> p.den != 0
    ensures !q.Whole? ==> q.den != 0
    ensures Value(p) == Value(q)
    ensures p.Whole? <==> q.Whole?
    ensures !p.Whole? ==> q.Mixed? && p.num == q.num && p.den == q.den
    ensures p.Mixed? ==> p == q
  {
    FormatFractionValue(inches, p);
    FormatInchesValue(inches, q);
    var w := inches.Floor;
    var s := FractionSixteenths(inches);
    var (whole, remainder) := Split(Round(inches * 16.0));
    assert Round(inches * 16.0) == 16 * w + s;
    if s != 0 && s != 16 {
      assert whole == w && remainder == s;
      LowestSixteenthsUnique(s, p.num, p.den, q.num, q.den);
    }
  }
}
