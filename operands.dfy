/** The operand values the builders of src/main/java/jnr/a64asm/Asm.java pass around.

    `Register`, `Label`, `Mem`, `Immediate` and the `REG` and `SIZE` constants are Java
    classes whose source is not part of this model. They appear here only as values
    carrying the fields the builders hand them; nothing is assumed about their own
    validation or about the numbers behind the constants. */
module Operands {

  /** A Java `int`. */
  type Int32 = x: int | -0x8000_0000 <= x < 0x8000_0000

  /** A Java `long`. */
  type Int64 = x: int | -0x8000_0000_0000_0000 <= x < 0x8000_0000_0000_0000

  /** A `REG` constant: `NO_REG`, `REG_Xn` or `REG_Wn`. */
  datatype RegCode = NoRegCode | RegX(x: nat) | RegW(w: nat)

  /** A `Register`: one built directly from a code and a size, or one obtained from
      the factory `Register.gpr(code)`. */
  datatype Register = Register(code: RegCode, size: Int32) | Gpr(code: RegCode)

  /** A `Label`, known only by its identity. */
  datatype Label = Label(id: nat)

  /** An `Immediate`, as `Immediate.imm(value)` builds it. */
  datatype Immediate = Immediate(value: Int64)

  /** The pointer size a builder passes: `0` (unspecified), `SIZE_WORD` or `SIZE_DWORD`. */
  datatype PtrSize = Unspecified | SizeWord | SizeDword

  /** What an address is relative to: a label, an absolute target, or a base register. */
  datatype Anchor = AtLabel(lbl: Label) | AtAbsolute(target: Int64) | AtBase(base: Register)

  /** The optional scaled index `index << shift`. */
  datatype IndexPart = NoIndex | Indexed(index: Register, shift: Int32)

  /** A `Mem` operand, one variant per kind of anchor. */
  datatype Mem =
    | LabelMem(lbl: Label, indexing: IndexPart, disp: Int64, size: PtrSize)
    | AbsMem(target: Int64, indexing: IndexPart, disp: Int64, size: PtrSize)
    | BaseMem(base: Register, indexing: IndexPart, disp: Int64, size: PtrSize)

  /** The parts of a memory operand. */
  datatype MemParts = MemParts(anchor: Anchor, indexing: IndexPart, disp: Int64, size: PtrSize)

  /** The parts `m` was built from. */
  function Parts(m: Mem): (p: MemParts)
    ensures p.anchor.AtLabel? <==> m.LabelMem?
    ensures p.anchor.AtAbsolute? <==> m.AbsMem?
    ensures p.anchor.AtBase? <==> m.BaseMem?
  {
    match m
    case LabelMem(lbl, indexing, disp, size) => MemParts(AtLabel(lbl), indexing, disp, size)
    case AbsMem(target, indexing, disp, size) => MemParts(AtAbsolute(target), indexing, disp, size)
    case BaseMem(base, indexing, disp, size) => MemParts(AtBase(base), indexing, disp, size)
  }

  /** The memory operand with the given parts. */
  function Assemble(p: MemParts): (m: Mem)
  {
    match p.anchor
    case AtLabel(lbl) => LabelMem(lbl, p.indexing, p.disp, p.size)
    case AtAbsolute(target) => AbsMem(target, p.indexing, p.disp, p.size)
    case AtBase(base) => BaseMem(base, p.indexing, p.disp, p.size)
  }

  /** `m` with its size tag replaced by `size`, everything else kept. */
  function WithSize(m: Mem, size: PtrSize): (r: Mem)
    ensures Parts(r) == MemParts(Parts(m).anchor, Parts(m).indexing, Parts(m).disp, size)
  {
    match m
    case LabelMem(lbl, indexing, disp, _) => LabelMem(lbl, indexing, disp, size)
    case AbsMem(target, indexing, disp, _) => AbsMem(target, indexing, disp, size)
    case BaseMem(base, indexing, disp, _) => BaseMem(base, indexing, disp, size)
  }

  /** A memory operand is determined by its parts, and any parts make a memory operand. */
  lemma PartsRoundTrip(m: Mem, p: MemParts)
    ensures Assemble(Parts(m)) == m
    ensures Parts(Assemble(p)) == p
  {
  }
}
