# Skate bowl and corner angle calculators, modelled in Dafny

Two small browser calculators for building curved skate ramps out of flat plywood
"ribs". The corner-angle calculator takes a curve radius, the height at which the
curve is cut off and the straight-line distance across the top of a corner. From
these it derives the arc angle, the top radius and the corner angle. The bowl
calculator takes a radius, a corner angle, a number of fan sections, a rib spacing,
a maximum height and two material thicknesses. From these it derives the corner's
layout and the list of ribs to cut, each with its position, length and saw angles.
Both calculators show lengths to the nearest sixteenth of an inch.

The model covers:

- the unit conversion (feet to inches), shared by both calculators (`Units`);
- the argument both calculators give to `acos`, and its domain (`Arc`);
- JavaScript's `Math.round` and integer `%` over exact numbers (`JsMath`);
- the corner-angle calculation: conversion, then the height check, then the chord
  check, then the ratio given to `asin` (`CornerAngle`);
- the rib calculation: conversion, the height check, the layout values, the
  per-rib support deduction and the rib loop (`SkateBowl`);
- the two sixteenths formatters (`SkateBowlFormat`, `CornerAngleFormat`), the
  halving loop they share (`Sixteenths`), and how the two formatters relate
  (`Formatters`).

`acos`, `asin`, `atan`, `sin`, `cos` and `tan` are fields of a `Trig` record that
every operation using them takes as a parameter. Nothing is assumed about them, so
every property holds whatever these functions are. Numbers are exact `real`s and
`int`s. `Math.PI` is the constant `3.141592653589793`.

The formatters return the parts they print, as a `Printed` value:
`Whole(w)`, `Frac(n, d)` or `Mixed(w, n, d)`. The bowl calculator prints these as
`W`, `N/D` and `W-N/D`. The corner calculator prints them as `W"` and `W N/D"`.
The halving loops are methods. Each formatter is a method proved against a
predicate (`FormatsFraction`, `FormatsInches`). Lemmas show what the predicate
means: the form is unique, and the printed value is the rounded length.

The model follows the code where it does more than a plain reading suggests:

- `formatFraction` takes the whole part as the floor of the sixteenths count over
  16, but the remainder as JavaScript's truncating `%` of the same count. For a
  negative length the two disagree, so the printed parts add up to one inch less
  than the rounded length (-0.5 is -8 sixteenths and prints as `-1--1/2`). The model keeps this and proves it
  (`FormatFractionNegative`).
- `formatFraction` never needs to carry 16/16 into the whole part: the remainder
  of a division by 16 is always below 16. 3.9999 rounds to 64 sixteenths and
  prints as `4`.
- `formatFraction` leaves out the whole part exactly when it is zero, not when it
  is non-positive.
- Neither calculator rejects a negative height. The `acos` argument is then
  above 1. The model states that the argument is at most 1 exactly when the
  height is not negative. What the source then computes is not modelled (see
  "Left out").

## Model

| member | source | states |
|---|---|---|
| `Units.ToInches` | skate-bowl-calculator/script.js:19-20 | a length in `'ft'` is multiplied by 12; any other unit string leaves it unchanged; conversion keeps the sign |
| `Arc.CosOfArcAngle` | corner-angle-calculator/script.js:48-49 | for a positive radius, the `acos` argument `1 - h/R` is at least 0 exactly when `h <= R`, at most 1 exactly when `h >= 0`, and in [-1, 1] exactly when `0 <= h <= 2R`; it is 1 exactly at `h = 0` and 0 exactly at `h = R` |
| `JsMath.Round` | skate-bowl-calculator/script.js:166 | `Math.round` gives the integer within half of its argument, halves going up |
| `JsMath.Remainder` | skate-bowl-calculator/script.js:168 | JavaScript's `%` satisfies the division identity with the truncated quotient and takes the dividend's sign: in [0, b) for a dividend that is not negative, in (-b, 0] otherwise |
| `Sixteenths.Reduce` | skate-bowl-calculator/script.js:174-181 | halving while both are even turns `n/16` (n non-zero, below 16 in size) into the equal fraction with an odd numerator and a denominator in {2, 4, 8, 16} |
| `Sixteenths.LowestSixteenthsUnique` | skate-bowl-calculator/script.js:174-181 | that lowest-terms form of `n/16` is unique |
| `Sixteenths.LowestSixteenthsValue` | skate-bowl-calculator/script.js:174-181 | the reduced fraction has the value of `n` sixteenths |
| `SkateBowlFormat.Split` | skate-bowl-calculator/script.js:166-168 | the whole part is the floor of sixteenths/16, the remainder is JavaScript's `% 16`; for a count that is not negative `sixteenths == 16*whole + remainder` with the remainder in [0, 16); for a negative count that is not a multiple of 16 the parts add up to 16 less |
| `SkateBowlFormat.FormatFraction` | skate-bowl-calculator/script.js:164-186 | the result is the whole part alone when the remainder is 0; otherwise the remainder in lowest terms, after the whole part unless the whole part is 0 |
| `SkateBowlFormat.FormatsFractionUnique` | skate-bowl-calculator/script.js:164-186 | one length has exactly one printed form |
| `SkateBowlFormat.FormatFractionValue` | skate-bowl-calculator/script.js:164-186 | for a length that is not negative, the printed parts add up to the length rounded to sixteenths, within 1/32" of the length |
| `SkateBowlFormat.FormatFractionNegative` | skate-bowl-calculator/script.js:166-185 | for a negative length whose sixteenths are not a whole number of inches, the form is mixed with negative whole part and numerator, and its parts add up to one inch less than the rounded length |
| `SkateBowlFormat.FormatFractionExamples` | skate-bowl-calculator/script.js:164-186 | 3 prints "3", 3.5 prints "3-1/2", 0.125 prints "1/8", 3.9999 prints "4", -0.5 prints "-1--1/2" |
| `CornerAngleFormat.FractionSixteenths` | corner-angle-calculator/script.js:81-85 | the fractional part `inches - floor(inches)` is in [0, 1), and it rounds to between 0 and 16 sixteenths |
| `CornerAngleFormat.FormatInches` | corner-angle-calculator/script.js:80-101 | 0 sixteenths prints the floor alone; 16 sixteenths prints the floor plus one alone; otherwise the floor (even 0) and the fraction in lowest terms |
| `CornerAngleFormat.FormatsInchesUnique` | corner-angle-calculator/script.js:80-101 | one length has exactly one printed form |
| `CornerAngleFormat.FormatInchesValue` | corner-angle-calculator/script.js:80-101 | for every length, the parts read as `w + n/d` add up to the length rounded to sixteenths, within 1/32" of it; for a negative length this is not how the text reads (-0.5 prints `-1 1/2"`, which reads as -1.5) |
| `CornerAngleFormat.FormatInchesExamples` | corner-angle-calculator/script.js:80-101 | 3 prints `3"`, 3.5 prints `3 1/2"`, 0.125 prints `0 1/8"`, 3.9999 carries into `4"`, -0.5 prints `-1 1/2"` |
| `Formatters.FormattersAgree` | corner-angle-calculator/script.js:80-101 | for a length that is not negative both formatters round to the same value, show a fraction in the same cases and the same fraction; they differ only in printing a zero whole part |
| `CornerAngle.TopRadius` | corner-angle-calculator/script.js:48-53 | the top radius `R * sin(acos(1 - h/R))` is zero, positive, at most `R` or equal to `R` exactly when the sine of the arc angle is zero, positive, at most 1 or equal to 1 |
| `CornerAngle.CalculateCornerAngle` | corner-angle-calculator/script.js:25-68 | after conversion: rejected for height exceeding radius exactly when `h > R`, whatever the chord; rejected for the chord exactly when `h <= R` and `chord > 2*topRadius`; the `acos` argument is in [0, 1] when `h >= 0`; when accepted, the result holds the `acos` argument `1 - h/R`, its `acos`, the top radius `R * sin(alpha)`, the corner angle `2 * asin(sinHalfTheta)` and that angle times `180 / PI`, with `sinHalfTheta * 2 * topRadius == chord`, and with a positive top radius `sinHalfTheta <= 1`, and it is non-negative exactly when the chord is; a zero top radius gives no angle |
| `CornerAngle.HalfChordRatio` | corner-angle-calculator/script.js:55-67 | once the chord check passes with a positive top radius, `chord / (2*topRadius)` is at most 1, and it is at least 0 exactly when the chord is |
| `SkateBowl.ThicknessPerRib` | skate-bowl-calculator/script.js:46-49 | `n * deduction == (n - 1) * supportThickness`; no deduction for one section; for a thickness `w >= 0` the deduction lies in [0, w], and below `w` when `w > 0` |
| `JsMath.Degrees` | skate-bowl-calculator/script.js:85-86 | turning radians into degrees with `x * 180 / PI` is undone by dividing by 180 and multiplying by `PI` |
| `SkateBowl.MakeRib` | skate-bowl-calculator/script.js:59-96 | a rib keeps its number and `distanceFromTop`; its `arcFromBottom` and `distanceFromTop` add up to the arc length, so it is positive exactly when the rib is above the toe; with `alpha` the angle whose arc is `arcFromBottom`, the height is 0 exactly when `cos(alpha) == 1` and not negative exactly when `cos(alpha) <= 1`; the length plus the deduction is `2 * R * sin(alpha) * tan(fan/2)`; miter and bevel, turned back into radians, are `asin(sin(fan/2) * sin(alpha))` and `atan(tan(fan/2) * cos(alpha))` |
| `SkateBowl.RibCount` | skate-bowl-calculator/script.js:55-57 | every position before the count is above the toe, the position at the count is not, and the count is 0 exactly when the rib thickness reaches the arc length |
| `SkateBowl.PositionIncreases` | skate-bowl-calculator/script.js:98 | each later rib sits at least one spacing further down than an earlier one |
| `SkateBowl.GenerateRibs` | skate-bowl-calculator/script.js:54-99 | the loop ends with `RibCount` ribs; rib k is numbered k and sits at `ribThickness + (k-1)*ribSpacing`, above the toe, with `arcFromBottom == totalArcLength - distanceFromTop > 0`; the next position is not above the toe; the list is empty exactly when `ribThickness >= totalArcLength`; `arcFromBottom` strictly decreases down the list; each rib is the closed form `RibAt` of its index, whose length is the raw length less the per-rib deduction |
| `SkateBowl.RibListFacts` | skate-bowl-calculator/script.js:54-99 | a list of `RibCount` ribs, each the closed form of its index, is numbered from 1, sits above the toe at `ribThickness + (k-1)*ribSpacing`, ends where the next position is not above the toe, is empty exactly when the first rib does not fit, and has strictly decreasing `arcFromBottom` |
| `SkateBowl.RibAngleBounds` | skate-bowl-calculator/script.js:44-62 | with `totalArcLength == radius * alphaMax` and `ribThickness >= 0`, every rib's angle `arcFromBottom / radius` is positive and at most `alphaMax` |
| `SkateBowl.CalculateRibs` | skate-bowl-calculator/script.js:18-111 | after conversion, rejected exactly when the maximum height exceeds the radius, before any rib; otherwise the `acos` argument is at least 0 and at most 1 exactly when the height is not negative, the fan angle times the section count is the corner angle, the arc length is `radius * alphaMax`, the deduction is `ThicknessPerRib`, and the ribs are those of the rib loop |
| `SkateBowl.WorkedLayout` | skate-bowl-calculator/script.js:44-57 | a 30" radius, 24" high corner with 6" spacing and 3/4" material gets exactly 7 ribs for any arc length in (36.75, 42.75], and a 1/2" deduction per rib with three sections |

## Left out

- The page: reading form fields (`parseFloat`, `parseInt`), `alert`, the results
  table, `toFixed(1)` for angles, the SVG side, top and isometric views (including
  the top view's support-line loop), and the hover highlighting. Inputs are plain
  numbers and strings; outputs are values.
- The "no ribs fit" message: the rib list is returned, and its emptiness is
  characterised (`GenerateRibs`), but showing the message is page logic.
- Turning numbers into text: formatters return the parts they print (`Printed`),
  not the string with its separators and inch mark.
- Transcendental functions: abstract, so nothing is proved about angle ranges, the
  round trip `R(1 - cos(acos(1 - h/R))) = h`, or the ribs' heights increasing
  down the list (that needs `cos` to be decreasing).
- Floating point: every value is an exact real. In particular `distanceFromTop`
  is the exact `ribThickness + k * ribSpacing`, while the source sums in doubles
  and can drift near the last rib.
- `SkateBowl.CalculateRibs`: requires a positive radius, at least one section and
  a positive spacing. With a zero radius or zero sections the source divides by
  zero and computes with NaN or Infinity. With a spacing of zero or less its loop
  never ends once the first rib fits (`ribThickness < totalArcLength`).
- `CornerAngle.CalculateCornerAngle`: requires a positive radius; with a zero
  radius the source computes `0/0`. Where the top radius is zero the source
  divides by zero and shows NaN for the angle; the model returns `AngleUndefined`
  instead of a NaN value.
- `CornerAngle.CalculateCornerAngle`, `SkateBowl.CalculateRibs`: a negative height
  is not modelled as the source computes it. There `Math.acos` of an argument
  above 1 is NaN, and every comparison with NaN is false. The corner calculator
  then never rejects the chord (`chordInches > 2 * NaN` is false) and shows a NaN
  angle. The bowl calculator produces no ribs (`distanceFromTop < NaN` is false).
  The model's `acos` is an arbitrary real function, so for a negative height it
  can return `ChordTooWide`, or any number of ribs.
