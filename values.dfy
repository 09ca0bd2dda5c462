/** The runtime value type and the constant pool (value.rs). */
module Values {

  /** A runtime value: an f64 in the source. Its bits and IEEE semantics are not modelled. */
  type Value

  /**
   * The float literal 0.0 and the five f64 operators the VM applies, as uninterpreted
   * parameters: the hardware's IEEE arithmetic is not part of this model.
   */
  datatype FloatOps = FloatOps(
    zero: Value,
    add: (Value, Value) -> Value,
    sub: (Value, Value) -> Value,
    mul: (Value, Value) -> Value,
    div: (Value, Value) -> Value,
    neg: Value -> Value)

  /** An append-only pool of values (a Vec in the source). */
  class ValueArray {
    var values: seq<Value>

    /** `ValueArray::new`: the pool starts empty. */
    constructor ()
      ensures values == []
    {
      values := [];
    }

    /** `write_value_array`: the value goes at the end; nothing before it moves. */
    method WriteValueArray(value: Value)
      modifies this
      ensures values == old(values) + [value]
      ensures |values| == |old(values)| + 1 && values[|values| - 1] == value
      ensures forall i :: 0 <= i < |old(values)| ==> values[i] == old(values)[i]
    {
      values := values + [value];
    }

    /** `len`: the number of values written since construction. */
    function Len(): (n: nat)
      reads this
      ensures n == |values|
    {
      |values|
    }
  }
}
