/** The corner-angle calculator's length formatter (`formatInches` in
    corner-angle-calculator/script.js). Unlike the bowl calculator's, it floors the
    length first and rounds only the fractional part, carries a fraction that rounds
    up to 16/16 into the whole part, and always prints the whole part: `W"` or
    `W N/D"`. */
module CornerAngleFormat {
  import opened JsMath
  import opened Sixteenths

  /** The fractional part of the length and the sixteenths it rounds to: the
      fractional part lies in [0, 1) and what is left is a whole number, so the
      count is between 0 and 16 inclusive. */
  function FractionSixteenths(inches: real): (s: int)
    ensures 0.0 <= inches - inches.Floor as real < 1.0
    ensures 0 <= s <= 16
    ensures (s as real) - 0.5 <= (inches - inches.Floor as real) * 16.0 < (s as real) + 0.5
  {
    Round((inches - inches.Floor as real) * 16.0)
  }

  /** `p` is what the formatter shows for `inches`: the floor alone when the
      fraction rounds to nothing, the floor plus one when it rounds to a full inch,
      and otherwise the floor (even 0) followed by the fraction in lowest terms. */
  predicate FormatsInches(inches: real, p: Printed)
  {
    var whole := inches.Floor;
    var sixteenths := FractionSixteenths(inches);
    if sixteenths == 0 then
      p == Whole(whole)
    else if sixteenths == 16 then
      p == Whole(whole + 1)
    else
      p.Mixed? && p.whole == whole && LowestSixteenths(sixteenths, p.num, p.den)
  }

  /** `formatInches`, with the text left as its parts. */
  method FormatInches(inches: real) returns (p: Printed)
    ensures FormatsInches(inches, p)
  {
    var wholeInches := inches.Floor;
    var sixteenths := FractionSixteenths(inches);
    if sixteenths == 0 {
      p := Whole(wholeInches);
    } else if sixteenths == 16 {
      p := Whole(wholeInches + 1);
    } else {
      var num, den := Reduce(sixteenths);
      p := Mixed(wholeInches, num, den);
    }
  }

  /** The formatter is deterministic: one length has one printed form. */
  lemma FormatsInchesUnique(inches: real, p: Printed, q: Printed)
    requires FormatsInches(inches, p) && FormatsInches(inches, q)
    ensures p == q
  {
  }

  /** For every length, negative ones included, the parts `w + n/d` add up to the
      length rounded to the nearest sixteenth, so they are within 1/32" of it. For a
      negative length that is a statement about the parts, not about how the text
      reads: -0.5 gives the parts -1 and 1/2, printed `-1 1/2"`, which a reader
      takes for -1.5. */
  lemma FormatInchesValue(inches: real, p: Printed)
    requires FormatsInches(inches, p)
    ensures !p.Whole? ==> p.den != 0
    ensures Value(p) == Round(inches * 16.0) as real / 16.0
    ensures -1.0 / 32.0 < Value(p) - inches <= 1.0 / 32.0
  {
    var w := inches.Floor;
    var s := FractionSixteenths(inches);
    assert inches * 16.0 == (16 * w) as real + (inches - w as real) * 16.0;
    RoundShift(16 * w, (inches - w as real) * 16.0);
    assert Round(inches * 16.0) == 16 * w + s;
    if s != 0 && s != 16 {
      LowestSixteenthsValue(s, p.num, p.den);
    }
  }

  /** Lengths worked through by hand: 3" shows as `3"`, 3.5" as `3 1/2"`, 0.125"
      as `0 1/8"`, 3.9999" carries into `4"`, and -0.5" shows as `-1 1/2"`. */
  lemma FormatInchesExamples()
    ensures FormatsInches(3.0, Whole(3))
    ensures FormatsInches(3.5, Mixed(3, 1, 2))
    ensures FormatsInches(0.125, Mixed(0, 1, 8))
    ensures FormatsInches(3.9999, Whole(4))
    ensures FormatsInches(-0.5, Mixed(-1, 1, 2))
  {
  }
}
