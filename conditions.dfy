/** The condition operand of src/main/java/jnr/a64asm/Conditions.java: an operand of
    kind `OP_COND` and size 0 wrapping a final `int`. */
module ConditionOperand {
  import opened Operands

  /** An `OP` operand kind (the enum is not part of this model): `OP_COND`, or some other. */
  datatype OperandKind = OpCond | OtherKind(id: nat)

  /** The fields of an `Operand` that wraps an `int`: its kind, its size and the value. */
  datatype OperandFields = OperandFields(kind: OperandKind, size: Int32, value: Int32)

  /** A `Conditions` object: `super(OP.OP_COND, 0)` fixes its kind and size, so every
      `Conditions` has kind `OP_COND` and size 0. */
  type Conditions = c: OperandFields | c.kind == OpCond && c.size == 0
    witness OperandFields(OpCond, 0, 0)

  /** The constructor: accepts any `int`; the value is not checked against 0..15. */
  function NewConditions(value: Int32): (c: Conditions)
    ensures c.kind == OpCond && c.size == 0
    ensures c.value == value
  {
    OperandFields(OpCond, 0, value)
  }

  /** `value()`: the wrapped `int` widened to `long`. */
  function Value(c: Conditions): (v: Int64)
    ensures -0x8000_0000 <= v < 0x8000_0000
    ensures v == c.value
  {
    c.value
  }

  /** Whatever it wraps, a `Conditions` is an `OP_COND` operand of size 0. */
  lemma AlwaysConditionOperand(c: Conditions)
    ensures c.kind == OpCond && c.size == 0
  {
  }

  /** `value()` returns exactly what was passed to the constructor, for every `int`,
      including values that are not condition codes. */
  lemma ValueRoundTrip(v: Int32)
    ensures Value(NewConditions(v)) == v
    ensures NewConditions(v).kind == OpCond && NewConditions(v).size == 0
  {
  }

  /** Values below 0 and above 15 are accepted and kept. */
  lemma OutOfRangeAccepted()
    ensures Value(NewConditions(-1)) == -1
    ensures Value(NewConditions(16)) == 16
    ensures Value(NewConditions(0x7fff_ffff)) == 0x7fff_ffff
  {
  }

  /** Two conditions built from different values are different and answer differently.
      That one built object always answers the same is not a lemma: `Conditions` is an
      immutable value and `Value` a function of it, as the Java field is `final`. */
  lemma ValueDeterminesCondition(a: Int32, b: Int32)
    ensures NewConditions(a) == NewConditions(b) <==> a == b
    ensures Value(NewConditions(a)) == Value(NewConditions(b)) <==> a == b
  {
  }
}
