/** Lengths shown to the nearest sixteenth of an inch, with the fraction reduced by
    halving: the part the two formatters share. */
module Sixteenths {

  /** What a formatter prints, before the numbers become text: a whole number alone,
      a fraction alone, or a whole number followed by a fraction. */
  datatype Printed =
    | Whole(whole: int)
    | Frac(num: int, den: int)
    | Mixed(whole: int, num: int, den: int)

  /** The number a reader adds up from the printed parts. */
  function Value(p: Printed): real
    requires !p.Whole? ==> p.den != 0
  {
    match p
    case Whole(w) => w as real
    case Frac(n, d) => n as real / d as real
    case Mixed(w, n, d) => w as real + n as real / d as real
  }

  /** `num/den` is `n/16` in lowest terms: the denominator is a power of two
      between 2 and 16 and the numerator is odd. */
  predicate LowestSixteenths(n: int, num: int, den: int)
  {
    && num * 16 == n * den
    && (den == 2 || den == 4 || den == 8 || den == 16)
    && num % 2 == 1
  }

  /** The reduction loop both formatters run on `n/16`: halve numerator and
      denominator while both are even. The source only enters it with a non-zero
      count of sixteenths below sixteen in size. */
  method Reduce(n: int) returns (num: int, den: int)
    requires -16 < n < 16 && n != 0
    ensures LowestSixteenths(n, num, den)
  {
    num, den := n, 16;
    while num % 2 == 0 && den % 2 == 0
      invariant num * 16 == n * den
      invariant den == 2 || den == 4 || den == 8 || den == 16
      decreases den
    {
      num, den := num / 2, den / 2;
    }
  }

  /** The lowest-terms form is unique: whatever computes it, the result is the
      one pair the reduction loop yields. */
  lemma LowestSixteenthsUnique(n: int, a: int, b: int, c: int, d: int)
    requires LowestSixteenths(n, a, b) && LowestSixteenths(n, c, d)
    ensures a == c && b == d
  {
  }

  /** The reduced fraction has the value of `n` sixteenths. */
  lemma LowestSixteenthsValue(n: int, num: int, den: int)
    requires LowestSixteenths(n, num, den)
    ensures num as real / den as real == n as real / 16.0
  {
  }
}
