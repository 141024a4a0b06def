/** What the built descriptor table answers: the alias rows, the conditional branches,
    the fully fixed encodings, the rows whose opcode leaves bits outside the mask, and
    the group tags kept exactly as the row list writes them. */
module TableFacts {
  import opened Codes
  import opened Results
  import opened Descriptors
  import opened ArmConditions
  import opened DescriptorRows
  import opened InstructionDescription

  /** Both codes are found and their rows share opcode, mask and group. */
  predicate Aliases(t: DescriptorTable, a: InstCode, b: InstCode)
    reads t
  {
    t.Find(a).Ok? && t.Find(b).Ok? && SameEncoding(t.Find(a).value, t.Find(b).value)
  }

  /** `find` returns a row with these fields for `c`. */
  predicate FoundAs(t: DescriptorTable, c: InstCode, opcode: bv32, mask: bv32, group: InstructionGroup)
    reads t
  {
    t.Find(c) == Ok(Descriptor(c, opcode, mask, group))
  }

  /** ASR is ASRV, and BFI and BFXIL are BFM, in the table. */
  lemma {:induction false} ShiftAndBitfieldAliases(t: DescriptorTable)
    requires t.table == BuiltTable()
    ensures Aliases(t, INST_ASR_DP_2SRC, INST_ASRV_DP_2SRC)
    ensures Aliases(t, INST_BFI_BITFIELD, INST_BFM_BITFIELD)
    ensures Aliases(t, INST_BFXIL_BITFIELD, INST_BFM_BITFIELD)
  {
    FindCode(t, INST_ASR_DP_2SRC);
    FindCode(t, INST_ASRV_DP_2SRC);
    FindCode(t, INST_BFI_BITFIELD);
    FindCode(t, INST_BFM_BITFIELD);
    FindCode(t, INST_BFXIL_BITFIELD);
  }

  /** BLO is BCC and BHS is BCS. */
  lemma {:induction false} BranchAliases(t: DescriptorTable)
    requires t.table == BuiltTable()
    ensures Aliases(t, INST_BLO_CONDBRANCH, INST_BCC_CONDBRANCH)
    ensures Aliases(t, INST_BHS_CONDBRANCH, INST_BCS_CONDBRANCH)
  {
    FindCode(t, INST_BLO_CONDBRANCH);
    FindCode(t, INST_BCC_CONDBRANCH);
    FindCode(t, INST_BHS_CONDBRANCH);
    FindCode(t, INST_BCS_CONDBRANCH);
  }

  /** The immediate forms of AND and BIC share a row, and CINC is CSINC. */
  lemma {:induction false} LogicalAndSelectAliases(t: DescriptorTable)
    requires t.table == BuiltTable()
    ensures Aliases(t, INST_AND_LOG_IMM, INST_BIC_LOG_IMM)
    ensures Aliases(t, INST_CINC_CONDSEL, INST_CSINC_CONDSEL)
  {
    FindCode(t, INST_AND_LOG_IMM);
    FindCode(t, INST_BIC_LOG_IMM);
    FindCode(t, INST_CINC_CONDSEL);
    FindCode(t, INST_CSINC_CONDSEL);
  }

  /** The wide-move MOV rows are MOVN (`MOV_MOVEWIDE`) and MOVZ (`MOV_MOVEWIDE_X`). */
  lemma {:induction false} MoveWideAliases(t: DescriptorTable)
    requires t.table == BuiltTable()
    ensures Aliases(t, INST_MOV_MOVEWIDE, INST_MOVN_MOVEWIDE)
    ensures Aliases(t, INST_MOV_MOVEWIDE_X, INST_MOVZ_MOVEWIDE)
  {
    FindCode(t, INST_MOV_MOVEWIDE);
    FindCode(t, INST_MOVN_MOVEWIDE);
    FindCode(t, INST_MOV_MOVEWIDE_X);
    FindCode(t, INST_MOVZ_MOVEWIDE);
  }

  /** AT, DC, IC and TLBI are all the SYS row. */
  lemma {:induction false} SystemAliases(t: DescriptorTable)
    requires t.table == BuiltTable()
    ensures Aliases(t, INST_AT_IC_SYSTEM, INST_SYS_IC_SYSTEM)
    ensures Aliases(t, INST_DC_IC_SYSTEM, INST_SYS_IC_SYSTEM)
    ensures Aliases(t, INST_IC_IC_SYSTEM, INST_SYS_IC_SYSTEM)
    ensures Aliases(t, INST_TLBI_IC_SYSTEM, INST_SYS_IC_SYSTEM)
  {
    FindCode(t, INST_AT_IC_SYSTEM);
    FindCode(t, INST_DC_IC_SYSTEM);
    FindCode(t, INST_IC_IC_SYSTEM);
    FindCode(t, INST_TLBI_IC_SYSTEM);
    FindCode(t, INST_SYS_IC_SYSTEM);
  }

  /** CINV is CSINV and CNEG is CSNEG. */
  lemma {:induction false} SelectAliases(t: DescriptorTable)
    requires t.table == BuiltTable()
    ensures Aliases(t, INST_CINV_CONDSEL, INST_CSINV_CONDSEL)
    ensures Aliases(t, INST_CNEG_CONDSEL, INST_CSNEG_CONDSEL)
  {
    FindCode(t, INST_CINV_CONDSEL);
    FindCode(t, INST_CSINV_CONDSEL);
    FindCode(t, INST_CNEG_CONDSEL);
    FindCode(t, INST_CSNEG_CONDSEL);
  }

  /** The register-register LSL, LSR and ROR are LSLV, LSRV and RORV, and ROR by
      immediate is EXTR. */
  lemma {:induction false} ShiftAliases(t: DescriptorTable)
    requires t.table == BuiltTable()
    ensures Aliases(t, INST_LSL_DP_2SRC, INST_LSLV_DP_2SRC)
    ensures Aliases(t, INST_LSR_DP_2SRC, INST_LSRV_DP_2SRC)
    ensures Aliases(t, INST_ROR_DP_2SRC, INST_RORV_DP_2SRC)
    ensures Aliases(t, INST_ROR_EXTRACT, INST_EXTR_EXTRACT)
  {
    FindCode(t, INST_LSL_DP_2SRC);
    FindCode(t, INST_LSLV_DP_2SRC);
    FindCode(t, INST_LSR_DP_2SRC);
    FindCode(t, INST_LSRV_DP_2SRC);
    FindCode(t, INST_ROR_DP_2SRC);
    FindCode(t, INST_RORV_DP_2SRC);
    FindCode(t, INST_ROR_EXTRACT);
    FindCode(t, INST_EXTR_EXTRACT);
  }

  /** The signed bitfield moves ASR (immediate), SBFIZ and SBFX are SBFM, and the
      unsigned ones LSL and LSR (immediate), UBFIZ and UBFX are UBFM. */
  lemma {:induction false} BitfieldMoveAliases(t: DescriptorTable)
    requires t.table == BuiltTable()
    ensures Aliases(t, INST_ASR_BITFIELD, INST_SBFM_BITFIELD)
    ensures Aliases(t, INST_SBFIZ_BITFIELD, INST_SBFM_BITFIELD)
    ensures Aliases(t, INST_SBFX_BITFIELD, INST_SBFM_BITFIELD)
    ensures Aliases(t, INST_LSL_BITFIELD, INST_UBFM_BITFIELD)
    ensures Aliases(t, INST_LSR_BITFIELD, INST_UBFM_BITFIELD)
    ensures Aliases(t, INST_UBFIZ_BITFIELD, INST_UBFM_BITFIELD)
    ensures Aliases(t, INST_UBFX_BITFIELD, INST_UBFM_BITFIELD)
  {
    FindCode(t, INST_ASR_BITFIELD);
    FindCode(t, INST_SBFIZ_BITFIELD);
    FindCode(t, INST_SBFX_BITFIELD);
    FindCode(t, INST_SBFM_BITFIELD);
    FindCode(t, INST_LSL_BITFIELD);
    FindCode(t, INST_LSR_BITFIELD);
    FindCode(t, INST_UBFIZ_BITFIELD);
    FindCode(t, INST_UBFX_BITFIELD);
    FindCode(t, INST_UBFM_BITFIELD);
  }

  /** A conditional branch is found with mask `0xff00001f`, upper bits `0x54000000`,
      bits 3:0 equal to the architectural encoding of its condition, and group
      `condbranch`. */
  lemma {:induction false} ConditionalBranchEncoding(t: DescriptorTable, c: InstCode)
    requires t.table == BuiltTable()
    requires BranchCondition(c).Some?
    ensures t.Find(c).Ok?
    ensures t.Find(c).value.mask == 0xff00001f
    ensures t.Find(c).value.opcode == 0x54000000 | Encoding(BranchCondition(c).value)
    ensures t.Find(c).value.group == condbranch
  {
    FindCode(t, c);
    RowFactsHold(c);
  }

  /** Two conditional branches share an opcode exactly when they name the same
      condition: bits 3:0 tell the conditions apart, so among the B<cond> rows only the
      HS/LO aliases repeat an opcode. */
  lemma {:induction false} ConditionalBranchesDistinct(t: DescriptorTable, a: InstCode, b: InstCode)
    requires t.table == BuiltTable()
    requires BranchCondition(a).Some? && BranchCondition(b).Some?
    ensures t.Find(a).Ok? && t.Find(b).Ok?
    ensures t.Find(a).value.opcode == t.Find(b).value.opcode <==> BranchCondition(a) == BranchCondition(b)
  {
    ConditionalBranchEncoding(t, a);
    ConditionalBranchEncoding(t, b);
    var ca, cb := BranchCondition(a).value, BranchCondition(b).value;
    EncodingRoundTrip(ca, 0);
    EncodingRoundTrip(cb, 0);
    if t.Find(a).value.opcode == t.Find(b).value.opcode {
      assert (0x54000000 | Encoding(ca)) & 0xf == Encoding(ca);
      assert (0x54000000 | Encoding(cb)) & 0xf == Encoding(cb);
      assert Decoding(Encoding(ca)) == Decoding(Encoding(cb));
    }
  }

  /** Of all the rows, exactly the conditional branches have mask `0xff00001f`. */
  lemma {:induction false} ConditionalBranchMasks(t: DescriptorTable, c: InstCode)
    requires t.table == BuiltTable()
    requires t.Find(c).Ok?
    ensures t.Find(c).value.mask == 0xff00001f <==> BranchCondition(c).Some?
  {
    FoundHasRow(t, c);
    FindCode(t, c);
    RowFactsHold(c);
  }

  /** Of all the rows, exactly DRPS, ERET, NOP, SEV, SEVL, WFE, WFI and YIELD fix all
      32 bits. */
  lemma {:induction false} FullyFixedRows(t: DescriptorTable, c: InstCode)
    requires t.table == BuiltTable()
    requires t.Find(c).Ok?
    ensures t.Find(c).value.mask == 0xffffffff <==> InFullyFixedList(c)
  {
    FoundHasRow(t, c);
    FindCode(t, c);
    RowFactsHold(c);
  }

  /** A fully fixed instruction has no operand bits: its opcode is the only word that
      fits it. */
  lemma {:induction false} FullyFixedHaveNoOperandBits(t: DescriptorTable, c: InstCode, w: bv32)
    requires t.table == BuiltTable()
    requires InFullyFixedList(c)
    ensures t.Find(c).Ok?
    ensures Fits(w, t.Find(c).value) <==> w == t.Find(c).value.opcode
  {
    FindCode(t, c);
    RowFactsHold(c);
    FitsFullMask(t.Find(c).value, w);
  }

  /** Of all the rows, exactly those on the stray-bit list set opcode bits outside their
      mask. */
  lemma {:induction false} StrayBitRows(t: DescriptorTable, c: InstCode)
    requires t.table == BuiltTable()
    requires t.Find(c).Ok?
    ensures OpcodeWithinMask(t.Find(c).value) <==> !InStrayBitList(c)
  {
    FoundHasRow(t, c);
    FindCode(t, c);
    RowFactsHold(c);
  }

  /** The bits left outside the mask for some rows: none for ADC, `0x001f7c00` for the
      load-acquire rows, `0x3e0` for the add-immediate MOV, `0x80000000` for the 64-bit
      REV and `0x80407c00` for UXTW. */
  lemma {:induction false} StrayBitExamples(t: DescriptorTable)
    requires t.table == BuiltTable()
    ensures t.Find(INST_ADC_ADDSUB_CARRY).Ok? && StrayBits(t.Find(INST_ADC_ADDSUB_CARRY).value) == 0
    ensures t.Find(INST_LDAR_LDSTEXCL).Ok? && StrayBits(t.Find(INST_LDAR_LDSTEXCL).value) == 0x001f7c00
    ensures t.Find(INST_LDAXRH_LDSTEXCL).Ok? && StrayBits(t.Find(INST_LDAXRH_LDSTEXCL).value) == 0x001f7c00
    ensures t.Find(INST_MOV_ADDSUB_IMM).Ok? && StrayBits(t.Find(INST_MOV_ADDSUB_IMM).value) == 0x3e0
    ensures t.Find(INST_REV_DP_1SRC_X).Ok? && StrayBits(t.Find(INST_REV_DP_1SRC_X).value) == 0x80000000
    ensures t.Find(INST_UXTW_LOG_SHIFT).Ok? && StrayBits(t.Find(INST_UXTW_LOG_SHIFT).value) == 0x80407c00
  {
    FindCode(t, INST_ADC_ADDSUB_CARRY);
    FindCode(t, INST_LDAR_LDSTEXCL);
    FindCode(t, INST_LDAXRH_LDSTEXCL);
    FindCode(t, INST_MOV_ADDSUB_IMM);
    FindCode(t, INST_REV_DP_1SRC_X);
    FindCode(t, INST_UXTW_LOG_SHIFT);
  }

  /** HINT and NOP share the opcode `0xd503201f` but not the mask; every word that fits
      NOP also fits HINT. */
  lemma {:induction false} HintAndNop(t: DescriptorTable, w: bv32)
    requires t.table == BuiltTable()
    ensures FoundAs(t, INST_HINT_IC_SYSTEM, 0xd503201f, 0xfffff01f, ic_system)
    ensures FoundAs(t, INST_NOP_IC_SYSTEM, 0xd503201f, 0xffffffff, ic_system)
    ensures Fits(w, t.Find(INST_NOP_IC_SYSTEM).value) ==> Fits(w, t.Find(INST_HINT_IC_SYSTEM).value)
  {
    FindCode(t, INST_HINT_IC_SYSTEM);
    FindCode(t, INST_NOP_IC_SYSTEM);
    FitsWiderMask(t.Find(INST_HINT_IC_SYSTEM).value, t.Find(INST_NOP_IC_SYSTEM).value, w);
  }

  /** The group tags that do not match the encoding are kept as written: the plain
      branch opcode is tagged `condbranch` and the conditional one `branch_imm`, the two
      register MOV rows carry each other's tag, and UXTW is tagged `bitfield`. */
  lemma {:induction false} OddGroupTags(t: DescriptorTable)
    requires t.table == BuiltTable()
    ensures FoundAs(t, INST_B_C_CONDBRANCH, 0x14000000, 0xfc000000, condbranch)
    ensures FoundAs(t, INST_B_BRANCH_IMM, 0x54000000, 0xff000010, branch_imm)
    ensures FoundAs(t, INST_MOV_ADDSUB_IMM, 0x2a0003e0, 0x7ffffc00, addsub_imm)
    ensures FoundAs(t, INST_MOV_LOG_SHIFT, 0x110003e0, 0x7f2003e0, log_shift)
    ensures FoundAs(t, INST_UXTW_LOG_SHIFT, 0xd3407c00, 0x7f2003e0, bitfield)
  {
    FindCode(t, INST_B_C_CONDBRANCH);
    FindCode(t, INST_B_BRANCH_IMM);
    FindCode(t, INST_MOV_ADDSUB_IMM);
    FindCode(t, INST_MOV_LOG_SHIFT);
    FindCode(t, INST_UXTW_LOG_SHIFT);
  }
}
