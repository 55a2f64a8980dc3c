/** The bowl calculator's length formatter (`formatFraction` in
    skate-bowl-calculator/script.js): a length in decimal inches shown to the
    nearest sixteenth as "W", "N/D" or "W-N/D". `formatInches` there only appends
    the inch mark to this. */
module SkateBowlFormat {
  import opened JsMath
  import opened Sixteenths

  /** The count of sixteenths the length rounds to, split the way the source splits
      it: the whole part by flooring the quotient, the rest by JavaScript's `%`.
      For a count that is not negative the two parts add up to the count. */
  function Split(sixteenths: int): (parts: (int, int))
    ensures parts.0 == (sixteenths as real / 16.0).Floor
    ensures parts.1 == Remainder(sixteenths, 16)
    ensures sixteenths >= 0 ==> sixteenths == 16 * parts.0 + parts.1 && 0 <= parts.1 < 16
    ensures sixteenths < 0 && parts.1 != 0 ==> sixteenths == 16 * parts.0 + parts.1 + 16
  {
    var whole := (sixteenths as real / 16.0).Floor;
    assert whole == sixteenths / 16;
    (whole, Remainder(sixteenths, 16))
  }

  /** `p` is what the formatter shows for `inches`: the whole part alone when the
      remainder is zero; otherwise the remainder in lowest terms, after the whole
      part and a dash unless the whole part is zero. */
  predicate FormatsFraction(inches: real, p: Printed)
  {
    var (whole, remainder) := Split(Round(inches * 16.0));
    if remainder == 0 then
      p == Whole(whole)
    else if whole == 0 then
      p.Frac? && LowestSixteenths(remainder, p.num, p.den)
    else
      p.Mixed? && p.whole == whole && LowestSixteenths(remainder, p.num, p.den)
  }

  /** `formatFraction`, with the text left as its parts. */
  method FormatFraction(inches: real) returns (p: Printed)
    ensures FormatsFraction(inches, p)
  {
    var sixteenths := Round(inches * 16.0);
    var (whole, remainder) := Split(sixteenths);
    if remainder == 0 {
      return Whole(whole);
    }
    var num, den := Reduce(remainder);
    if whole == 0 {
      return Frac(num, den);
    }
    return Mixed(whole, num, den);
  }

  /** The formatter is deterministic: one length has one printed form. */
  lemma FormatsFractionUnique(inches: real, p: Printed, q: Printed)
    requires FormatsFraction(inches, p) && FormatsFraction(inches, q)
    ensures p == q
  {
    var (whole, remainder) := Split(Round(inches * 16.0));
    if remainder != 0 {
      LowestSixteenthsUnique(remainder, p.num, p.den, q.num, q.den);
    }
  }

  /** For a length that is not negative the printed parts add up to the length
      rounded to the nearest sixteenth, so they are within 1/32" of it. */
  lemma FormatFractionValue(inches: real, p: Printed)
    requires inches >= 0.0 && FormatsFraction(inches, p)
    ensures !p.Whole? ==> p.den != 0
    ensures Value(p) == Round(inches * 16.0) as real / 16.0
    ensures -1.0 / 32.0 < Value(p) - inches <= 1.0 / 32.0
  {
  }

  /** For a negative count of sixteenths that is not a whole number of inches, the
      floored whole part and the truncated remainder are both negative, so the
      parts add up to one inch less than the rounded length (-0.5 shows as
      "-1--1/2"). */
  lemma FormatFractionNegative(inches: real, p: Printed)
    requires FormatsFraction(inches, p)
    requires Round(inches * 16.0) < 0 && Round(inches * 16.0) % 16 != 0
    ensures p.Mixed? && p.whole < 0 && p.num < 0 && p.den != 0
    ensures Value(p) == Round(inches * 16.0) as real / 16.0 - 1.0
  {
  }

  /** Lengths worked through by hand: 3" shows as "3", 3.5" as "3-1/2", 0.125" as
      "1/8", 3.9999" rounds up to 64 sixteenths and shows as "4", and -0.5" shows
      as "-1--1/2". */
  lemma FormatFractionExamples()
    ensures FormatsFraction(3.0, Whole(3))
    ensures FormatsFraction(3.5, Mixed(3, 1, 2))
    ensures FormatsFraction(0.125, Frac(1, 8))
    ensures FormatsFraction(3.9999, Whole(4))
    ensures FormatsFraction(-0.5, Mixed(-1, -1, 2))
  {
  }
}
