/** The static operand factory of src/main/java/jnr/a64asm/Asm.java: the register
    constants, the `_ptr_build` family that builds memory operands, the public
    `ptr`/`word_ptr`/`dword_ptr` builders that fix the size tag, and `imm`/`uimm`.

    Java overloads by parameter types; here each overload has its own name, of the form
    `<family><anchor>[Indexed]`, where the family is `Ptr`, `WordPtr` or `DwordPtr`. */
module Asm {
  import opened Operands

  /** `no_reg`: no register, only meaningful inside a memory operand. */
  const NoReg: Register := Register(NoRegCode, 0)

  const X0: Register := Gpr(RegX(0))
  const X1: Register := Gpr(RegX(1))
  const X2: Register := Gpr(RegX(2))
  const X3: Register := Gpr(RegX(3))
  const X4: Register := Gpr(RegX(4))
  const X5: Register := Gpr(RegX(5))
  const X6: Register := Gpr(RegX(6))
  const X7: Register := Gpr(RegX(7))

  /** `fp`, the frame pointer. */
  const Fp: Register := Gpr(RegX(29))
  /** `lr`, the link register. */
  const Lr: Register := Gpr(RegX(30))
  /** `sp`, the stack pointer. */
  const Sp: Register := Gpr(RegX(31))

  const W0: Register := Gpr(RegW(0))
  const W1: Register := Gpr(RegW(1))
  const W2: Register := Gpr(RegW(2))
  const W3: Register := Gpr(RegW(3))
  const W4: Register := Gpr(RegW(4))
  const W5: Register := Gpr(RegW(5))
  const W6: Register := Gpr(RegW(6))
  const W7: Register := Gpr(RegW(7))
  const W8: Register := Gpr(RegW(8))
  const W9: Register := Gpr(RegW(9))
  const W10: Register := Gpr(RegW(10))
  const W11: Register := Gpr(RegW(11))
  const W12: Register := Gpr(RegW(12))
  const W13: Register := Gpr(RegW(13))
  const W14: Register := Gpr(RegW(14))
  const W15: Register := Gpr(RegW(15))

  /** `no_reg` is the register built from `NO_REG` with size 0, not one from the
      general-purpose factory; `fp`, `lr` and `sp` are the factory's registers for X29,
      X30 and X31. They are three different registers because the model takes the `REG`
      constants `REG_X29`, `REG_X30` and `REG_X31` to be distinct codes (`RegX(29)`,
      `RegX(30)`, `RegX(31)`). */
  lemma SpecialRegisters()
    ensures NoReg.Register? && NoReg.code == NoRegCode && NoReg.size == 0
    ensures Fp == Gpr(RegX(29)) && Lr == Gpr(RegX(30)) && Sp == Gpr(RegX(31))
    ensures Fp != Lr && Lr != Sp && Fp != Sp
    ensures NoReg !in {Fp, Lr, Sp}
  {
  }

  // The `_ptr_build` family: one memory operand per anchor, with or without an index.

  function PtrBuildLabel(lbl: Label, disp: Int64, ptrSize: PtrSize): (m: Mem)
    ensures Parts(m) == MemParts(AtLabel(lbl), NoIndex, disp, ptrSize)
  {
    LabelMem(lbl, NoIndex, disp, ptrSize)
  }

  function PtrBuildLabelIndexed(lbl: Label, index: Register, shift: Int32, disp: Int64, ptrSize: PtrSize): (m: Mem)
    ensures Parts(m) == MemParts(AtLabel(lbl), Indexed(index, shift), disp, ptrSize)
  {
    LabelMem(lbl, Indexed(index, shift), disp, ptrSize)
  }

  function PtrBuildAbs(target: Int64, disp: Int64, ptrSize: PtrSize): (m: Mem)
    ensures Parts(m) == MemParts(AtAbsolute(target), NoIndex, disp, ptrSize)
  {
    AbsMem(target, NoIndex, disp, ptrSize)
  }

  function PtrBuildAbsIndexed(target: Int64, index: Register, shift: Int32, disp: Int64, ptrSize: PtrSize): (m: Mem)
    ensures Parts(m) == MemParts(AtAbsolute(target), Indexed(index, shift), disp, ptrSize)
  {
    AbsMem(target, Indexed(index, shift), disp, ptrSize)
  }

  function PtrBuildBase(base: Register, disp: Int64, ptrSize: PtrSize): (m: Mem)
    ensures Parts(m) == MemParts(AtBase(base), NoIndex, disp, ptrSize)
  {
    BaseMem(base, NoIndex, disp, ptrSize)
  }

  function PtrBuildBaseIndexed(base: Register, index: Register, shift: Int32, disp: Int64, ptrSize: PtrSize): (m: Mem)
    ensures Parts(m) == MemParts(AtBase(base), Indexed(index, shift), disp, ptrSize)
  {
    BaseMem(base, Indexed(index, shift), disp, ptrSize)
  }

  // ptr[label + displacement]

  function PtrLabel(lbl: Label, disp: Int64): (m: Mem)
    ensures Parts(m) == MemParts(AtLabel(lbl), NoIndex, disp, Unspecified)
  {
    PtrBuildLabel(lbl, disp, Unspecified)
  }

  function PtrLabelOnly(lbl: Label): (m: Mem)
    ensures Parts(m) == MemParts(AtLabel(lbl), NoIndex, 0, Unspecified)
  {
    PtrBuildLabel(lbl, 0, Unspecified)
  }

  function WordPtrLabel(lbl: Label, disp: Int64): (m: Mem)
    ensures Parts(m) == MemParts(AtLabel(lbl), NoIndex, disp, SizeWord)
  {
    PtrBuildLabel(lbl, disp, SizeWord)
  }

  function WordPtrLabelOnly(lbl: Label): (m: Mem)
    ensures Parts(m) == MemParts(AtLabel(lbl), NoIndex, 0, SizeWord)
  {
    PtrBuildLabel(lbl, 0, SizeWord)
  }

  function DwordPtrLabel(lbl: Label, disp: Int64): (m: Mem)
    ensures Parts(m) == MemParts(AtLabel(lbl), NoIndex, disp, SizeDword)
  {
    PtrBuildLabel(lbl, disp, SizeDword)
  }

  function DwordPtrLabelOnly(lbl: Label): (m: Mem)
    ensures Parts(m) == MemParts(AtLabel(lbl), NoIndex, 0, SizeDword)
  {
    PtrBuildLabel(lbl, 0, SizeDword)
  }

  // ptr[label + (index << shift) + displacement]

  function PtrLabelIndexed(lbl: Label, index: Register, shift: Int32, disp: Int64): (m: Mem)
    ensures Parts(m) == MemParts(AtLabel(lbl), Indexed(index, shift), disp, Unspecified)
  {
    PtrBuildLabelIndexed(lbl, index, shift, disp, Unspecified)
  }

  function WordPtrLabelIndexed(lbl: Label, index: Register, shift: Int32, disp: Int64): (m: Mem)
    ensures Parts(m) == MemParts(AtLabel(lbl), Indexed(index, shift), disp, SizeWord)
  {
    PtrBuildLabelIndexed(lbl, index, shift, disp, SizeWord)
  }

  function DwordPtrLabelIndexed(lbl: Label, index: Register, shift: Int32, disp: Int64): (m: Mem)
    ensures Parts(m) == MemParts(AtLabel(lbl), Indexed(index, shift), disp, SizeDword)
  {
    PtrBuildLabelIndexed(lbl, index, shift, disp, SizeDword)
  }

  // ptr[target + (index << shift) + displacement], absolute addressing

  function WordPtrAbs(target: Int64, index: Register, shift: Int32, disp: Int64): (m: Mem)
    ensures Parts(m) == MemParts(AtAbsolute(target), Indexed(index, shift), disp, SizeWord)
  {
    PtrBuildAbsIndexed(target, index, shift, disp, SizeWord)
  }

  function DwordPtrAbs(target: Int64, index: Register, shift: Int32, disp: Int64): (m: Mem)
    ensures Parts(m) == MemParts(AtAbsolute(target), Indexed(index, shift), disp, SizeDword)
  {
    PtrBuildAbsIndexed(target, index, shift, disp, SizeDword)
  }

  // ptr[base + displacement]

  function PtrBase(base: Register, disp: Int64): (m: Mem)
    ensures Parts(m) == MemParts(AtBase(base), NoIndex, disp, Unspecified)
  {
    PtrBuildBase(base, disp, Unspecified)
  }

  function WordPtrBase(base: Register, disp: Int64): (m: Mem)
    ensures Parts(m) == MemParts(AtBase(base), NoIndex, disp, SizeWord)
  {
    PtrBuildBase(base, disp, SizeWord)
  }

  function DwordPtrBase(base: Register, disp: Int64): (m: Mem)
    ensures Parts(m) == MemParts(AtBase(base), NoIndex, disp, SizeDword)
  {
    PtrBuildBase(base, disp, SizeDword)
  }

  // ptr[base + (index << shift) + displacement]

  function PtrBaseIndexed(base: Register, index: Register, shift: Int32, disp: Int64): (m: Mem)
    ensures Parts(m) == MemParts(AtBase(base), Indexed(index, shift), disp, Unspecified)
  {
    PtrBuildBaseIndexed(base, index, shift, disp, Unspecified)
  }

  function WordPtrBaseIndexed(base: Register, index: Register, shift: Int32, disp: Int64): (m: Mem)
    ensures Parts(m) == MemParts(AtBase(base), Indexed(index, shift), disp, SizeWord)
  {
    PtrBuildBaseIndexed(base, index, shift, disp, SizeWord)
  }

  function DwordPtrBaseIndexed(base: Register, index: Register, shift: Int32, disp: Int64): (m: Mem)
    ensures Parts(m) == MemParts(AtBase(base), Indexed(index, shift), disp, SizeDword)
  {
    PtrBuildBaseIndexed(base, index, shift, disp, SizeDword)
  }

  // Immediates

  function Imm(value: Int64): (i: Immediate)
    ensures i.value == value
  {
    Immediate(value)
  }

  function Uimm(value: Int64): (i: Immediate)
    ensures i.value == value
  {
    Immediate(value)
  }

  /** `ptr(lbl)`, `word_ptr(lbl)` and `dword_ptr(lbl)` are their displacement
      overloads with displacement 0. */
  lemma NoDisplacementOverloads(lbl: Label)
    ensures PtrLabelOnly(lbl) == PtrLabel(lbl, 0)
    ensures WordPtrLabelOnly(lbl) == WordPtrLabel(lbl, 0)
    ensures DwordPtrLabelOnly(lbl) == DwordPtrLabel(lbl, 0)
  {
  }

  /** For label and base-register anchors, with or without an index, the three families
      build the same operand up to the size tag: the `word_ptr` and `dword_ptr` builders
      are `ptr` with `SIZE_WORD` or `SIZE_DWORD` in place of the unspecified size. An
      absolute anchor has no `ptr` builder, so there `dword_ptr_abs` is `word_ptr_abs`
      with `SIZE_DWORD`. */
  lemma FamiliesDifferOnlyInSize(lbl: Label, target: Int64, base: Register, index: Register, shift: Int32, disp: Int64)
    ensures PtrLabel(lbl, disp).size == Unspecified
    ensures WordPtrLabel(lbl, disp) == WithSize(PtrLabel(lbl, disp), SizeWord)
    ensures DwordPtrLabel(lbl, disp) == WithSize(PtrLabel(lbl, disp), SizeDword)
    ensures PtrLabelIndexed(lbl, index, shift, disp).size == Unspecified
    ensures WordPtrLabelIndexed(lbl, index, shift, disp) == WithSize(PtrLabelIndexed(lbl, index, shift, disp), SizeWord)
    ensures DwordPtrLabelIndexed(lbl, index, shift, disp) == WithSize(PtrLabelIndexed(lbl, index, shift, disp), SizeDword)
    ensures DwordPtrAbs(target, index, shift, disp) == WithSize(WordPtrAbs(target, index, shift, disp), SizeDword)
    ensures PtrBase(base, disp).size == Unspecified
    ensures WordPtrBase(base, disp) == WithSize(PtrBase(base, disp), SizeWord)
    ensures DwordPtrBase(base, disp) == WithSize(PtrBase(base, disp), SizeDword)
    ensures PtrBaseIndexed(base, index, shift, disp).size == Unspecified
    ensures WordPtrBaseIndexed(base, index, shift, disp) == WithSize(PtrBaseIndexed(base, index, shift, disp), SizeWord)
    ensures DwordPtrBaseIndexed(base, index, shift, disp) == WithSize(PtrBaseIndexed(base, index, shift, disp), SizeDword)
  {
  }

  /** The label builders are one-to-one in their arguments: two calls of the same
      builder give equal operands exactly when they were given equal arguments, since no
      argument is checked, clamped or dropped on the way to `Mem`. */
  lemma LabelBuildersKeepArguments(lbl1: Label, index1: Register, shift1: Int32, disp1: Int64,
                                   lbl2: Label, index2: Register, shift2: Int32, disp2: Int64)
    ensures PtrLabel(lbl1, disp1) == PtrLabel(lbl2, disp2) <==> lbl1 == lbl2 && disp1 == disp2
    ensures WordPtrLabel(lbl1, disp1) == WordPtrLabel(lbl2, disp2) <==> lbl1 == lbl2 && disp1 == disp2
    ensures DwordPtrLabel(lbl1, disp1) == DwordPtrLabel(lbl2, disp2) <==> lbl1 == lbl2 && disp1 == disp2
    ensures PtrLabelOnly(lbl1) == PtrLabelOnly(lbl2) <==> lbl1 == lbl2
    ensures WordPtrLabelOnly(lbl1) == WordPtrLabelOnly(lbl2) <==> lbl1 == lbl2
    ensures DwordPtrLabelOnly(lbl1) == DwordPtrLabelOnly(lbl2) <==> lbl1 == lbl2
    ensures PtrLabelIndexed(lbl1, index1, shift1, disp1) == PtrLabelIndexed(lbl2, index2, shift2, disp2)
            <==> lbl1 == lbl2 && index1 == index2 && shift1 == shift2 && disp1 == disp2
    ensures WordPtrLabelIndexed(lbl1, index1, shift1, disp1) == WordPtrLabelIndexed(lbl2, index2, shift2, disp2)
            <==> lbl1 == lbl2 && index1 == index2 && shift1 == shift2 && disp1 == disp2
    ensures DwordPtrLabelIndexed(lbl1, index1, shift1, disp1) == DwordPtrLabelIndexed(lbl2, index2, shift2, disp2)
            <==> lbl1 == lbl2 && index1 == index2 && shift1 == shift2 && disp1 == disp2
  {
  }

  /** The absolute builders are one-to-one in their arguments. */
  lemma AbsBuildersKeepArguments(target1: Int64, index1: Register, shift1: Int32, disp1: Int64,
                                 target2: Int64, index2: Register, shift2: Int32, disp2: Int64)
    ensures WordPtrAbs(target1, index1, shift1, disp1) == WordPtrAbs(target2, index2, shift2, disp2)
            <==> target1 == target2 && index1 == index2 && shift1 == shift2 && disp1 == disp2
    ensures DwordPtrAbs(target1, index1, shift1, disp1) == DwordPtrAbs(target2, index2, shift2, disp2)
            <==> target1 == target2 && index1 == index2 && shift1 == shift2 && disp1 == disp2
  {
  }

  /** The base-register builders are one-to-one in their arguments. */
  lemma BaseBuildersKeepArguments(base1: Register, index1: Register, shift1: Int32, disp1: Int64,
                                  base2: Register, index2: Register, shift2: Int32, disp2: Int64)
    ensures PtrBase(base1, disp1) == PtrBase(base2, disp2) <==> base1 == base2 && disp1 == disp2
    ensures WordPtrBase(base1, disp1) == WordPtrBase(base2, disp2) <==> base1 == base2 && disp1 == disp2
    ensures DwordPtrBase(base1, disp1) == DwordPtrBase(base2, disp2) <==> base1 == base2 && disp1 == disp2
    ensures PtrBaseIndexed(base1, index1, shift1, disp1) == PtrBaseIndexed(base2, index2, shift2, disp2)
            <==> base1 == base2 && index1 == index2 && shift1 == shift2 && disp1 == disp2
    ensures WordPtrBaseIndexed(base1, index1, shift1, disp1) == WordPtrBaseIndexed(base2, index2, shift2, disp2)
            <==> base1 == base2 && index1 == index2 && shift1 == shift2 && disp1 == disp2
    ensures DwordPtrBaseIndexed(base1, index1, shift1, disp1) == DwordPtrBaseIndexed(base2, index2, shift2, disp2)
            <==> base1 == base2 && index1 == index2 && shift1 == shift2 && disp1 == disp2
  {
  }

  /** `imm` and `uimm` build the same immediate: there is no unsigned variant. */
  lemma ImmIsUimm(value: Int64)
    ensures Imm(value) == Uimm(value)
  {
  }
}
