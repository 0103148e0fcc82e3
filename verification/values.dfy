/**
  Cell values of the feature row. The form hands the encoder Python ints
  (integer-valued number inputs, one-hot indicators, the zero-fill) and
  Python floats (real-valued number inputs); the classifier reads both as
  numbers. Floats are modelled as exact reals: they are only copied, never
  computed with.
 */
module Values {

  datatype Value = Int(i: int) | Float(x: real)

  /** The value written for a column the current form does not produce. */
  const Zero: Value := Int(0)

  /** The indicator written for a selected category. */
  const One: Value := Int(1)

  /** `1 if cond else 0`, the one-hot indicator. */
  function Flag(cond: bool): (v: Value)
    ensures v == One <==> cond
    ensures v == Zero <==> !cond
  {
    if cond then One else Zero
  }

  /** True when the value is a number no smaller than zero. */
  predicate NonNegative(v: Value) {
    match v
    case Int(i) => 0 <= i
    case Float(x) => 0.0 <= x
  }
}
