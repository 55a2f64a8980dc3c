/** The unit normaliser shared by both calculators: every length entered in feet is
    turned into inches before anything else happens. */
module Units {

  /** The value of a unit `<select>` that means feet; every other value means inches. */
  const Feet: string := "ft"

  /** Twelve inches to the foot; any unit other than feet is taken as inches. */
  function ToInches(value: real, unit: string): (inches: real)
    ensures unit == Feet ==> inches == 12.0 * value
    ensures unit != Feet ==> inches == value
    ensures (inches > 0.0 <==> value > 0.0) && (inches == 0.0 <==> value == 0.0)
  {
    if unit == Feet then value * 12.0 else value
  }
}
