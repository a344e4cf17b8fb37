/**
 * The text fields of the fixed-factor converters. A field holds either the
 * user's own text or a converted number, rendered unrounded (`toString`)
 * or to two decimals (`toFixed(2)`); the rendering itself is not modelled,
 * only which of the two it is and the exact value rendered.
 */
module UnitFields {
  import opened Common

  datatype Field =
    | Typed(text: string)     // kept exactly as the user typed it
    | Plain(value: real)      // `value.toString()`
    | Fixed2(value: real)     // `value.toFixed(2)`

  /** Converting through a base unit: divide by the source factor, multiply by the target's. */
  lemma ThroughBase(base: real, x: real, from: real, to: real)
    requires from > 0.0 && base * from == x
    ensures base * to == x * to / from
  {
    assert base == x / from;
  }

  /** Scaling by a non-zero factor and dividing by it again gives back the value. */
  lemma ScaleBack(x: real, f: real)
    requires f > 0.0
    ensures (x * f) / f == x
  {
  }
}
