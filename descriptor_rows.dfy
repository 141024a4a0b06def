/** The row list of the descriptor table: the `all` array initialiser of
    src/main/java/jnr/a64asm/InstructionDescription.java, lines 67-335, one
    `Descriptor(code, opcode, mask, group)` per `MAKE_INST` row and in the same order.

    The rows are written out in blocks of a dozen or so, each a function from a position
    inside the block to its row; `RowAt` picks the block and `Rows` is the whole list.
    `RowFacts` collects what is proved of every row, block by block. */
module DescriptorRows {
  import opened Codes
  import opened Descriptors
  import opened ArmConditions

  /** The codes whose rows keep opcode bits outside their mask. */
  predicate InStrayBitList(c: InstCode) {
    c in {INST_LDAR_LDSTEXCL, INST_LDARB_LDSTEXCL, INST_LDARH_LDSTEXCL,
          INST_LDAXP_LDSTEXCL, INST_LDAXR_LDSTEXCL, INST_LDAXRB_LDSTEXCL,
          INST_LDAXRH_LDSTEXCL, INST_LDP_PRE_INDEXED_IDST_IMM9, INST_LDP_LDSTPAIR_OFF_LDST_POS,
          INST_LDXP_LDSTEXCL, INST_LDXR_LDSTEXCL, INST_LDXRB_LDSTEXCL,
          INST_LDXRH_LDSTEXCL, INST_MOV_ADDSUB_IMM, INST_REV_DP_1SRC_X,
          INST_SMULH_DP_3SRC, INST_STLR_LDSTEXCL, INST_STLRB_LDSTEXCL,
          INST_STLRH_LDSTEXCL, INST_STLXR_LDSTEXCL, INST_STLXRB_LDSTEXCL,
          INST_STLXRH_LDSTEXCL, INST_STXR_LDSTEXCL, INST_STXRB_LDSTEXCL,
          INST_STXRH_LDSTEXCL, INST_UMULH_DP_3SRC, INST_UXTW_LOG_SHIFT}
  }

  /** The codes whose rows fix all 32 bits. */
  predicate InFullyFixedList(c: InstCode) {
    c in {INST_DRPS_BRANCH_REG, INST_ERET_BRANCH_REG, INST_NOP_IC_SYSTEM,
          INST_SEV_IC_SYSTEM, INST_SEVL_IC_SYSTEM, INST_WFE_IC_SYSTEM,
          INST_WFI_IC_SYSTEM, INST_YIELD_IC_SYSTEM}
  }

  /** The opcode of `d` stays inside its mask exactly when its code is not on the
      stray-bit list. */
  predicate StrayBitsListed(d: Descriptor) {
    OpcodeWithinMask(d) <==> !InStrayBitList(d.code)
  }

  /** The mask of `d` fixes all 32 bits exactly when its code is on the fully fixed list. */
  predicate FullMaskListed(d: Descriptor) {
    d.mask == 0xffffffff <==> InFullyFixedList(d.code)
  }

  /** The mask of `d` is the conditional-branch mask `0xff00001f` exactly when its code
      names a conditional branch, and then the opcode is `0x54000000` with the condition's
      encoding in bits 3:0, in group `condbranch`. */
  predicate CondMaskListed(d: Descriptor) {
    && (d.mask == 0xff00001f <==> BranchCondition(d.code).Some?)
    && (BranchCondition(d.code).Some? ==>
          d.opcode == 0x54000000 | Encoding(BranchCondition(d.code).value) && d.group == condbranch)
  }

  /** What holds of the row at position `k`: its code is the `k`-th code (so no code
      appears twice) and the three lists above are exact for it. */
  predicate RowFacts(d: Descriptor, k: nat) {
    d.code == k && StrayBitsListed(d) && FullMaskListed(d) && CondMaskListed(d)
  }

  /** Rows of lines 67-76. */
  function RowsAdcToAdrp(i: nat): (d: Descriptor)
    requires i < 10
  {
    match i
    case 0 => Descriptor(INST_ADC_ADDSUB_CARRY, 0x1a000000, 0x7fe0fc00, addsub_carry)
    case 1 => Descriptor(INST_ADCS_ADDSUB_CARRY, 0x3a000000, 0x7fe0fc00, addsub_carry)
    case 2 => Descriptor(INST_ADD_ADDSUB_IMM, 0x11000000, 0x7f000000, addsub_imm)
    case 3 => Descriptor(INST_ADD_ADDSUB_SHIFT, 0x0b000000, 0x7f200000, addsub_shift)
    case 4 => Descriptor(INST_ADDS_ADDSUB_IMM, 0x31000000, 0x7f000000, addsub_imm)
    case 5 => Descriptor(INST_ADD_EXT_ADDSUB_EXT, 0x0b200000, 0x7fe00000, addsub_ext)
    case 6 => Descriptor(INST_ADDS_ADDSUB_EXT, 0x2b200000, 0x7fe00000, addsub_ext)
    case 7 => Descriptor(INST_ADDS_ADDSUB_SHIFT, 0x2b000000, 0x7f200000, addsub_shift)
    case 8 => Descriptor(INST_ADR_PCRELADDR, 0x10000000, 0x9f000000, pcreladdr)
    case _ => Descriptor(INST_ADRP_PCRELADDR, 0x90000000, 0x9f000000, pcreladdr)
  }

  lemma {:induction false} RowsAdcToAdrpCodes(i: nat)
    requires i < 10
    ensures RowsAdcToAdrp(i).code == 0 + i
  {
    match i
    case 0 => case 1 => case 2 => case 3 => case 4 => case 5 =>
    case 6 => case 7 => case 8 => case _ =>
  }

  lemma {:induction false} RowsAdcToAdrpStrayBits(i: nat)
    requires i < 10
    ensures StrayBitsListed(RowsAdcToAdrp(i))
  {
    match i
    case 0 => case 1 => case 2 => case 3 => case 4 => case 5 =>
    case 6 => case 7 => case 8 => case _ =>
  }

  lemma {:induction false} RowsAdcToAdrpFullMasks(i: nat)
    requires i < 10
    ensures FullMaskListed(RowsAdcToAdrp(i))
  {
    match i
    case 0 => case 1 => case 2 => case 3 => case 4 => case 5 =>
    case 6 => case 7 => case 8 => case _ =>
  }

  lemma {:induction false} RowsAdcToAdrpCondMasks(i: nat)
    requires i < 10
    ensures CondMaskListed(RowsAdcToAdrp(i))
  {
    match i
    case 0 => case 1 => case 2 => case 3 => case 4 => case 5 =>
    case 6 => case 7 => case 8 => case _ =>
  }

  /** Rows of lines 77-86. */
  function RowsAndToB(i: nat): (d: Descriptor)
    requires i < 10
  {
    match i
    case 0 => Descriptor(INST_AND_LOG_IMM, 0x12000000, 0x7f800000, log_imm)
    case 1 => Descriptor(INST_AND_LOG_SHIFT, 0x0a000000, 0x7f200000, log_shift)
    case 2 => Descriptor(INST_ANDS_LOG_IMM, 0x72000000, 0x7f800000, log_imm)
    case 3 => Descriptor(INST_ANDS_LOG_SHIFT, 0x6a000000, 0x7f200000, log_shift)
    case 4 => Descriptor(INST_ASR_BITFIELD, 0x13000000, 0x7f800000, bitfield)
    case 5 => Descriptor(INST_ASR_DP_2SRC, 0x1ac02800, 0x7fe0fc00, dp_2src)
    case 6 => Descriptor(INST_ASRV_DP_2SRC, 0x1ac02800, 0x7fe0fc00, dp_2src)
    case 7 => Descriptor(INST_AT_IC_SYSTEM, 0xd5080000, 0xfff80000, ic_system)
    case 8 => Descriptor(INST_B_C_CONDBRANCH, 0x14000000, 0xfc000000, condbranch)
    case _ => Descriptor(INST_B_BRANCH_IMM, 0x54000000, 0xff000010, branch_imm)
  }

  lemma {:induction false} RowsAndToBCodes(i: nat)
    requires i < 10
    ensures RowsAndToB(i).code == 10 + i
  {
    match i
    case 0 => case 1 => case 2 => case 3 => case 4 => case 5 =>
    case 6 => case 7 => case 8 => case _ =>
  }

  lemma {:induction false} RowsAndToBStrayBits(i: nat)
    requires i < 10
    ensures StrayBitsListed(RowsAndToB(i))
  {
    match i
    case 0 => case 1 => case 2 => case 3 => case 4 => case 5 =>
    case 6 => case 7 => case 8 => case _ =>
  }

  lemma {:induction false} RowsAndToBFullMasks(i: nat)
    requires i < 10
    ensures FullMaskListed(RowsAndToB(i))
  {
    match i
    case 0 => case 1 => case 2 => case 3 => case 4 => case 5 =>
    case 6 => case 7 => case 8 => case _ =>
  }

  lemma {:induction false} RowsAndToBCondMasks(i: nat)
    requires i < 10
    ensures CondMaskListed(RowsAndToB(i))
  {
    match i
    case 0 => case 1 => case 2 => case 3 => case 4 => case 5 =>
    case 6 => case 7 => case 8 => case _ =>
  }

  /** Rows of lines 87-99. */
  function RowsBccToBics(i: nat): (d: Descriptor)
    requires i < 13
  {
    match i
    case 0 => Descriptor(INST_BCC_CONDBRANCH, 0x54000003, 0xff00001f, condbranch)
    case 1 => Descriptor(INST_BCS_CONDBRANCH, 0x54000002, 0xff00001f, condbranch)
    case 2 => Descriptor(INST_BEQ_CONDBRANCH, 0x54000000, 0xff00001f, condbranch)
    case 3 => Descriptor(INST_BFI_BITFIELD, 0x33000000, 0x7f800000, bitfield)
    case 4 => Descriptor(INST_BFM_BITFIELD, 0x33000000, 0x7f800000, bitfield)
    case 5 => Descriptor(INST_BFXIL_BITFIELD, 0x33000000, 0x7f800000, bitfield)
    case 6 => Descriptor(INST_BGE_CONDBRANCH, 0x5400000a, 0xff00001f, condbranch)
    case 7 => Descriptor(INST_BGT_CONDBRANCH, 0x5400000c, 0xff00001f, condbranch)
    case 8 => Descriptor(INST_BHI_CONDBRANCH, 0x54000008, 0xff00001f, condbranch)
    case 9 => Descriptor(INST_BHS_CONDBRANCH, 0x54000002, 0xff00001f, condbranch)
    case 10 => Descriptor(INST_BIC_LOG_IMM, 0x12000000, 0x7f800000, log_imm)
    case 11 => Descriptor(INST_BIC_LOG_SHIFT, 0x0a200000, 0x7f200000, log_shift)
    case _ => Descriptor(INST_BICS_LOG_SHIFT, 0x6a200000, 0x7f200000, log_shift)
  }

  lemma {:induction false} RowsBccToBicsCodes(i: nat)
    requires i < 13
    ensures RowsBccToBics(i).code == 20 + i
  {
    match i
    case 0 => case 1 => case 2 => case 3 => case 4 => case 5 =>
    case 6 => case 7 => case 8 => case 9 => case 10 => case 11 =>
    case _ =>
  }

  lemma {:induction false} RowsBccToBicsStrayBits(i: nat)
    requires i < 13
    ensures StrayBitsListed(RowsBccToBics(i))
  {
    match i
    case 0 => case 1 => case 2 => case 3 => case 4 => case 5 =>
    case 6 => case 7 => case 8 => case 9 => case 10 => case 11 =>
    case _ =>
  }

  lemma {:induction false} RowsBccToBicsFullMasks(i: nat)
    requires i < 13
    ensures FullMaskListed(RowsBccToBics(i))
  {
    match i
    case 0 => case 1 => case 2 => case 3 => case 4 => case 5 =>
    case 6 => case 7 => case 8 => case 9 => case 10 => case 11 =>
    case _ =>
  }

  lemma {:induction false} RowsBccToBicsCondMasks(i: nat)
    requires i < 13
    ensures CondMaskListed(RowsBccToBics(i))
  {
    match i
    case 0 => case 1 => case 2 => case 3 => case 4 => case 5 =>
    case 6 => case 7 => case 8 => case 9 => case 10 => case 11 =>
    case _ =>
  }

  /** Rows of lines 100-112. */
  function RowsBlToBvs(i: nat): (d: Descriptor)
    requires i < 13
  {
    match i
    case 0 => Descriptor(INST_BL_BRANCH_IMM, 0x94000000, 0xfc000000, branch_imm)
    case 1 => Descriptor(INST_BLE_CONDBRANCH, 0x5400000d, 0xff00001f, condbranch)
    case 2 => Descriptor(INST_BLO_CONDBRANCH, 0x54000003, 0xff00001f, condbranch)
    case 3 => Descriptor(INST_BLR_BRANCH_REG, 0xd63f0000, 0xfffffc1f, branch_reg)
    case 4 => Descriptor(INST_BLS_CONDBRANCH, 0x54000009, 0xff00001f, condbranch)
    case 5 => Descriptor(INST_BLT_CONDBRANCH, 0x5400000b, 0xff00001f, condbranch)
    case 6 => Descriptor(INST_BMI_CONDBRANCH, 0x54000004, 0xff00001f, condbranch)
    case 7 => Descriptor(INST_BNE_CONDBRANCH, 0x54000001, 0xff00001f, condbranch)
    case 8 => Descriptor(INST_BPL_CONDBRANCH, 0x54000005, 0xff00001f, condbranch)
    case 9 => Descriptor(INST_BR_BRANCH_REG, 0xd61f0000, 0xfffffc1f, branch_reg)
    case 10 => Descriptor(INST_BRK_EXCEPTION, 0xd4200000, 0xffe0001f, exception)
    case 11 => Descriptor(INST_BVC_CONDBRANCH, 0x54000007, 0xff00001f, condbranch)
    case _ => Descriptor(INST_BVS_CONDBRANCH, 0x54000006, 0xff00001f, condbranch)
  }

  lemma {:induction false} RowsBlToBvsCodes(i: nat)
    requires i < 13
    ensures RowsBlToBvs(i).code == 33 + i
  {
    match i
    case 0 => case 1 => case 2 => case 3 => case 4 => case 5 =>
    case 6 => case 7 => case 8 => case 9 => case 10 => case 11 =>
    case _ =>
  }

  lemma {:induction false} RowsBlToBvsStrayBits(i: nat)
    requires i < 13
    ensures StrayBitsListed(RowsBlToBvs(i))
  {
    match i
    case 0 => case 1 => case 2 => case 3 => case 4 => case 5 =>
    case 6 => case 7 => case 8 => case 9 => case 10 => case 11 =>
    case _ =>
  }

  lemma {:induction false} RowsBlToBvsFullMasks(i: nat)
    requires i < 13
    ensures FullMaskListed(RowsBlToBvs(i))
  {
    match i
    case 0 => case 1 => case 2 => case 3 => case 4 => case 5 =>
    case 6 => case 7 => case 8 => case 9 => case 10 => case 11 =>
    case _ =>
  }

  lemma {:induction false} RowsBlToBvsCondMasks(i: nat)
    requires i < 13
    ensures CondMaskListed(RowsBlToBvs(i))
  {
    match i
    case 0 => case 1 => case 2 => case 3 => case 4 => case 5 =>
    case 6 => case 7 => case 8 => case 9 => case 10 => case 11 =>
    case _ =>
  }

  /** Rows of lines 113-123. */
  function RowsCbnzToClz(i: nat): (d: Descriptor)
    requires i < 11
  {
    match i
    case 0 => Descriptor(INST_CBNZ_COMPBRANCH, 0x35000000, 0x7f000000, compbranch)
    case 1 => Descriptor(INST_CBZ_COMPBRANCH, 0x34000000, 0x7f000000, compbranch)
    case 2 => Descriptor(INST_CCMN_CONDCMP_IMM, 0x3a400800, 0x7fe00c10, condcmp_imm)
    case 3 => Descriptor(INST_CCMN_CONDCMP_REG, 0x3a400000, 0x7fe00c10, condcmp_reg)
    case 4 => Descriptor(INST_CCMP_CONDCMP_IMM, 0x7a400800, 0x7fe00c10, condcmp_imm)
    case 5 => Descriptor(INST_CCMP_CONDCMP_REG, 0x7a400000, 0x7fe00c10, condcmp_reg)
    case 6 => Descriptor(INST_CINC_CONDSEL, 0x1a800400, 0x7fe00c00, condsel)
    case 7 => Descriptor(INST_CINV_CONDSEL, 0x5a800000, 0x7fe00c00, condsel)
    case 8 => Descriptor(INST_CLREX_IC_SYSTEM, 0xd503305f, 0xfffff0ff, ic_system)
    case 9 => Descriptor(INST_CLS_DP_1SRC, 0x5ac01400, 0x7ffffc00, dp_1src)
    case _ => Descriptor(INST_CLZ_DP_1SRC, 0x5ac01000, 0x7ffffc00, dp_1src)
  }

  lemma {:induction false} RowsCbnzToClzCodes(i: nat)
    requires i < 11
    ensures RowsCbnzToClz(i).code == 46 + i
  {
    match i
    case 0 => case 1 => case 2 => case 3 => case 4 => case 5 =>
    case 6 => case 7 => case 8 => case 9 => case _ =>
  }

  lemma {:induction false} RowsCbnzToClzStrayBits(i: nat)
    requires i < 11
    ensures StrayBitsListed(RowsCbnzToClz(i))
  {
    match i
    case 0 => case 1 => case 2 => case 3 => case 4 => case 5 =>
    case 6 => case 7 => case 8 => case 9 => case _ =>
  }

  lemma {:induction false} RowsCbnzToClzFullMasks(i: nat)
    requires i < 11
    ensures FullMaskListed(RowsCbnzToClz(i))
  {
    match i
    case 0 => case 1 => case 2 => case 3 => case 4 => case 5 =>
    case 6 => case 7 => case 8 => case 9 => case _ =>
  }

  lemma {:induction false} RowsCbnzToClzCondMasks(i: nat)
    requires i < 11
    ensures CondMaskListed(RowsCbnzToClz(i))
  {
    match i
    case 0 => case 1 => case 2 => case 3 => case 4 => case 5 =>
    case 6 => case 7 => case 8 => case 9 => case _ =>
  }

  /** Rows of lines 124-136. */
  function RowsCmnToCsneg(i: nat): (d: Descriptor)
    requires i < 13
  {
    match i
    case 0 => Descriptor(INST_CMN_ADDSUB_EXT, 0x2b20001f, 0x7fe0001f, addsub_ext)
    case 1 => Descriptor(INST_CMN_ADDSUB_IMM, 0x3100001f, 0x7f00001f, addsub_imm)
    case 2 => Descriptor(INST_CMN_ADDSUB_SHIFT, 0x2b00001f, 0x7f20001f, addsub_shift)
    case 3 => Descriptor(INST_CMP_ADDSUB_EXT, 0x6b20001f, 0x7fe0001f, addsub_ext)
    case 4 => Descriptor(INST_CMP_ADDSUB_IMM, 0x7100001f, 0x7f00001f, addsub_imm)
    case 5 => Descriptor(INST_CMP_ADDSUB_SHIFT, 0x6b00001f, 0x7f20001f, addsub_shift)
    case 6 => Descriptor(INST_CNEG_CONDSEL, 0x5a800400, 0x7fe00c00, condsel)
    case 7 => Descriptor(INST_CSEL_CONDSEL, 0x1a800000, 0x7fe00c00, condsel)
    case 8 => Descriptor(INST_CSET_CONDSEL, 0x1a9f07e0, 0x7fff0fe0, condsel)
    case 9 => Descriptor(INST_CSETM_CONDSEL, 0x5a9f03e0, 0x7fff0fe0, condsel)
    case 10 => Descriptor(INST_CSINC_CONDSEL, 0x1a800400, 0x7fe00c00, condsel)
    case 11 => Descriptor(INST_CSINV_CONDSEL, 0x5a800000, 0x7fe00c00, condsel)
    case _ => Descriptor(INST_CSNEG_CONDSEL, 0x5a800400, 0x7fe00c00, condsel)
  }

  lemma {:induction false} RowsCmnToCsnegCodes(i: nat)
    requires i < 13
    ensures RowsCmnToCsneg(i).code == 57 + i
  {
    match i
    case 0 => case 1 => case 2 => case 3 => case 4 => case 5 =>
    case 6 => case 7 => case 8 => case 9 => case 10 => case 11 =>
    case _ =>
  }

  lemma {:induction false} RowsCmnToCsnegStrayBits(i: nat)
    requires i < 13
    ensures StrayBitsListed(RowsCmnToCsneg(i))
  {
    match i
    case 0 => case 1 => case 2 => case 3 => case 4 => case 5 =>
    case 6 => case 7 => case 8 => case 9 => case 10 => case 11 =>
    case _ =>
  }

  lemma {:induction false} RowsCmnToCsnegFullMasks(i: nat)
    requires i < 13
    ensures FullMaskListed(RowsCmnToCsneg(i))
  {
    match i
    case 0 => case 1 => case 2 => case 3 => case 4 => case 5 =>
    case 6 => case 7 => case 8 => case 9 => case 10 => case 11 =>
    case _ =>
  }

  lemma {:induction false} RowsCmnToCsnegCondMasks(i: nat)
    requires i < 13
    ensures CondMaskListed(RowsCmnToCsneg(i))
  {
    match i
    case 0 => case 1 => case 2 => case 3 => case 4 => case 5 =>
    case 6 => case 7 => case 8 => case 9 => case 10 => case 11 =>
    case _ =>
  }

  /** Rows of lines 137-147. */
  function RowsDcToEret(i: nat): (d: Descriptor)
    requires i < 11
  {
    match i
    case 0 => Descriptor(INST_DC_IC_SYSTEM, 0xd5080000, 0xfff80000, ic_system)
    case 1 => Descriptor(INST_DCPS1_EXCEPTION, 0xd4a00001, 0xffe0001f, exception)
    case 2 => Descriptor(INST_DCPS2_EXCEPTION, 0xd4a00002, 0xffe0001f, exception)
    case 3 => Descriptor(INST_DCPS3_EXCEPTION, 0xd4a00003, 0xffe0001f, exception)
    case 4 => Descriptor(INST_DMB_IC_SYSTEM, 0xd50330bf, 0xfffff0ff, ic_system)
    case 5 => Descriptor(INST_DRPS_BRANCH_REG, 0xd6bf03e0, 0xffffffff, branch_reg)
    case 6 => Descriptor(INST_DSB_IC_SYSTEM, 0xd503309f, 0xfffff0ff, ic_system)
    case 7 => Descriptor(INST_EON_LOG_SHIFT, 0x4a200000, 0x7f200000, log_shift)
    case 8 => Descriptor(INST_EOR_LOG_IMM, 0x52000000, 0x7f800000, log_imm)
    case 9 => Descriptor(INST_EOR_LOG_SHIFT, 0x4a000000, 0x7f200000, log_shift)
    case _ => Descriptor(INST_ERET_BRANCH_REG, 0xd69f03e0, 0xffffffff, branch_reg)
  }

  lemma {:induction false} RowsDcToEretCodes(i: nat)
    requires i < 11
    ensures RowsDcToEret(i).code == 70 + i
  {
    match i
    case 0 => case 1 => case 2 => case 3 => case 4 => case 5 =>
    case 6 => case 7 => case 8 => case 9 => case _ =>
  }

  lemma {:induction false} RowsDcToEretStrayBits(i: nat)
    requires i < 11
    ensures StrayBitsListed(RowsDcToEret(i))
  {
    match i
    case 0 => case 1 => case 2 => case 3 => case 4 => case 5 =>
    case 6 => case 7 => case 8 => case 9 => case _ =>
  }

  lemma {:induction false} RowsDcToEretFullMasks(i: nat)
    requires i < 11
    ensures FullMaskListed(RowsDcToEret(i))
  {
    match i
    case 0 => case 1 => case 2 => case 3 => case 4 => case 5 =>
    case 6 => case 7 => case 8 => case 9 => case _ =>
  }

  lemma {:induction false} RowsDcToEretCondMasks(i: nat)
    requires i < 11
    ensures CondMaskListed(RowsDcToEret(i))
  {
    match i
    case 0 => case 1 => case 2 => case 3 => case 4 => case 5 =>
    case 6 => case 7 => case 8 => case 9 => case _ =>
  }

  /** Rows of lines 148-160. */
  function RowsExtrToLdaxrh(i: nat): (d: Descriptor)
    requires i < 13
  {
    match i
    case 0 => Descriptor(INST_EXTR_EXTRACT, 0x13800000, 0x7fa00000, extract)
    case 1 => Descriptor(INST_HINT_IC_SYSTEM, 0xd503201f, 0xfffff01f, ic_system)
    case 2 => Descriptor(INST_HLT_EXCEPTION, 0xd4400000, 0xffe0001f, exception)
    case 3 => Descriptor(INST_HVC_EXCEPTION, 0xd4000002, 0xffe0001f, exception)
    case 4 => Descriptor(INST_IC_IC_SYSTEM, 0xd5080000, 0xfff80000, ic_system)
    case 5 => Descriptor(INST_ISB_IC_SYSTEM, 0xd50330df, 0xfffff0ff, ic_system)
    case 6 => Descriptor(INST_LDAR_LDSTEXCL, 0x88dffc00, 0xbfe08000, ldstexcl)
    case 7 => Descriptor(INST_LDARB_LDSTEXCL, 0x08dffc00, 0xffe08000, ldstexcl)
    case 8 => Descriptor(INST_LDARH_LDSTEXCL, 0x48dffc00, 0xffe08000, ldstexcl)
    case 9 => Descriptor(INST_LDAXP_LDSTEXCL, 0x887f8000, 0xbfe08000, ldstexcl_op3)
    case 10 => Descriptor(INST_LDAXR_LDSTEXCL, 0x885ffc00, 0xbfe08000, ldstexcl)
    case 11 => Descriptor(INST_LDAXRB_LDSTEXCL, 0x085ffc00, 0xffe08000, ldstexcl)
    case _ => Descriptor(INST_LDAXRH_LDSTEXCL, 0x485ffc00, 0xffe08000, ldstexcl)
  }

  lemma {:induction false} RowsExtrToLdaxrhCodes(i: nat)
    requires i < 13
    ensures RowsExtrToLdaxrh(i).code == 81 + i
  {
    match i
    case 0 => case 1 => case 2 => case 3 => case 4 => case 5 =>
    case 6 => case 7 => case 8 => case 9 => case 10 => case 11 =>
    case _ =>
  }

  lemma {:induction false} RowsExtrToLdaxrhStrayBits(i: nat)
    requires i < 13
    ensures StrayBitsListed(RowsExtrToLdaxrh(i))
  {
    match i
    case 0 => case 1 => case 2 => case 3 => case 4 => case 5 =>
    case 6 => case 7 => case 8 => case 9 => case 10 => case 11 =>
    case _ =>
  }

  lemma {:induction false} RowsExtrToLdaxrhFullMasks(i: nat)
    requires i < 13
    ensures FullMaskListed(RowsExtrToLdaxrh(i))
  {
    match i
    case 0 => case 1 => case 2 => case 3 => case 4 => case 5 =>
    case 6 => case 7 => case 8 => case 9 => case 10 => case 11 =>
    case _ =>
  }

  lemma {:induction false} RowsExtrToLdaxrhCondMasks(i: nat)
    requires i < 13
    ensures CondMaskListed(RowsExtrToLdaxrh(i))
  {
    match i
    case 0 => case 1 => case 2 => case 3 => case 4 => case 5 =>
    case 6 => case 7 => case 8 => case 9 => case 10 => case 11 =>
    case _ =>
  }

  /** Rows of lines 161-173. */
  function RowsLdnpToLdr(i: nat): (d: Descriptor)
    requires i < 13
  {
    match i
    case 0 => Descriptor(INST_LDNP_LDSTNAPAIR_OFFS, 0x28400000, 0x7fc00000, ldstnapair_offs)
    case 1 => Descriptor(INST_LDNP_LDSTNAPAIR_OFFS_V, 0x2c400000, 0x3fc00000, ldstnapair_offs)
    case 2 => Descriptor(INST_LDP_POST_INDEXED_IDST_IMM9, 0x28c00000, 0x7ec00000, ldst_imm9_2reg)
    case 3 => Descriptor(INST_LDP_PRE_INDEXED_IDST_IMM9, 0x29c00000, 0x7ec00000, ldst_imm9_2reg)
    case 4 => Descriptor(INST_LDP_LDSTPAIR_OFF_LDST_POS, 0x29400000, 0x7ec00000, ldst_pos_2reg)
    case 5 => Descriptor(INST_LDPSW_POST_INDEXED, 0x68c00000, 0xffc00000, ldstpair_indexed)
    case 6 => Descriptor(INST_LDPSW_PRE_INDEXED, 0x69c00000, 0xffc00000, ldstpair_indexed)
    case 7 => Descriptor(INST_LDPSW_OFF, 0x69400000, 0xffc00000, ldstpair_off)
    case 8 => Descriptor(INST_LDR_IMM_POST, 0xb8400400, 0xbfe00400, ldst_imm9)
    case 9 => Descriptor(INST_LDR_IMM_PRE, 0xb8400c00, 0xbfe00c00, ldst_imm9)
    case 10 => Descriptor(INST_LDR_IMM_OFF, 0xb9400000, 0xbfc00000, ldst_pos)
    case 11 => Descriptor(INST_LDR_REG, 0xb8600800, 0xbfe00c00, ldst_regoff)
    case _ => Descriptor(INST_LDR_LOADLIT, 0x18000000, 0xbf000000, loadlit)
  }

  lemma {:induction false} RowsLdnpToLdrCodes(i: nat)
    requires i < 13
    ensures RowsLdnpToLdr(i).code == 94 + i
  {
    match i
    case 0 => case 1 => case 2 => case 3 => case 4 => case 5 =>
    case 6 => case 7 => case 8 => case 9 => case 10 => case 11 =>
    case _ =>
  }

  lemma {:induction false} RowsLdnpToLdrStrayBits(i: nat)
    requires i < 13
    ensures StrayBitsListed(RowsLdnpToLdr(i))
  {
    match i
    case 0 => case 1 => case 2 => case 3 => case 4 => case 5 =>
    case 6 => case 7 => case 8 => case 9 => case 10 => case 11 =>
    case _ =>
  }

  lemma {:induction false} RowsLdnpToLdrFullMasks(i: nat)
    requires i < 13
    ensures FullMaskListed(RowsLdnpToLdr(i))
  {
    match i
    case 0 => case 1 => case 2 => case 3 => case 4 => case 5 =>
    case 6 => case 7 => case 8 => case 9 => case 10 => case 11 =>
    case _ =>
  }

  lemma {:induction false} RowsLdnpToLdrCondMasks(i: nat)
    requires i < 13
    ensures CondMaskListed(RowsLdnpToLdr(i))
  {
    match i
    case 0 => case 1 => case 2 => case 3 => case 4 => case 5 =>
    case 6 => case 7 => case 8 => case 9 => case 10 => case 11 =>
    case _ =>
  }

  /** Rows of lines 174-185. */
  function RowsLdrbToLdrsb(i: nat): (d: Descriptor)
    requires i < 12
  {
    match i
    case 0 => Descriptor(INST_LDRB_IMM_POST, 0x38400400, 0xffe00c00, ldst_imm9)
    case 1 => Descriptor(INST_LDRB_IMM_PRE, 0x38400c00, 0xffe00c00, ldst_imm9)
    case 2 => Descriptor(INST_LDRB_IMM_OFF, 0x39400000, 0xffc00000, ldst_pos)
    case 3 => Descriptor(INST_LDRB_REG, 0x38600800, 0xffe00c00, ldst_regoff)
    case 4 => Descriptor(INST_LDRH_IMM_POST, 0x78400400, 0xffe00c00, ldst_imm9)
    case 5 => Descriptor(INST_LDRH_IMM_PRE, 0x78400c00, 0xffe00c00, ldst_imm9)
    case 6 => Descriptor(INST_LDRH_IMM_OFF, 0x79400000, 0xffc00000, ldst_pos)
    case 7 => Descriptor(INST_LDRH_REG, 0x78600800, 0xffe00c00, ldst_regoff)
    case 8 => Descriptor(INST_LDRSB_IMM_POST, 0x38800400, 0xffa00c00, ldst_imm9)
    case 9 => Descriptor(INST_LDRSB_IMM_PRE, 0x38800c00, 0xffa00c00, ldst_imm9)
    case 10 => Descriptor(INST_LDRSB_IMM_OFF, 0x39800000, 0xff800000, ldst_pos)
    case _ => Descriptor(INST_LDRSB_REG, 0x38a00800, 0xffa00c00, ldst_regoff)
  }

  lemma {:induction false} RowsLdrbToLdrsbCodes(i: nat)
    requires i < 12
    ensures RowsLdrbToLdrsb(i).code == 107 + i
  {
    match i
    case 0 => case 1 => case 2 => case 3 => case 4 => case 5 =>
    case 6 => case 7 => case 8 => case 9 => case 10 => case _ =>
  }

  lemma {:induction false} RowsLdrbToLdrsbStrayBits(i: nat)
    requires i < 12
    ensures StrayBitsListed(RowsLdrbToLdrsb(i))
  {
    match i
    case 0 => case 1 => case 2 => case 3 => case 4 => case 5 =>
    case 6 => case 7 => case 8 => case 9 => case 10 => case _ =>
  }

  lemma {:induction false} RowsLdrbToLdrsbFullMasks(i: nat)
    requires i < 12
    ensures FullMaskListed(RowsLdrbToLdrsb(i))
  {
    match i
    case 0 => case 1 => case 2 => case 3 => case 4 => case 5 =>
    case 6 => case 7 => case 8 => case 9 => case 10 => case _ =>
  }

  lemma {:induction false} RowsLdrbToLdrsbCondMasks(i: nat)
    requires i < 12
    ensures CondMaskListed(RowsLdrbToLdrsb(i))
  {
    match i
    case 0 => case 1 => case 2 => case 3 => case 4 => case 5 =>
    case 6 => case 7 => case 8 => case 9 => case 10 => case _ =>
  }

  /** Rows of lines 186-194. */
  function RowsLdrshToLdrsw(i: nat): (d: Descriptor)
    requires i < 9
  {
    match i
    case 0 => Descriptor(INST_LDRSH_IMM_POST, 0x78800400, 0xffa00c00, ldst_imm9)
    case 1 => Descriptor(INST_LDRSH_IMM_PRE, 0x78800c00, 0xffa00c00, ldst_imm9)
    case 2 => Descriptor(INST_LDRSH_IMM_OFF, 0x79800000, 0xff800000, ldst_pos)
    case 3 => Descriptor(INST_LDRSH_REG, 0x78a00800, 0xffa00c00, ldst_regoff)
    case 4 => Descriptor(INST_LDRSW_IMM_POST, 0xb8800400, 0xffe00c00, ldst_imm9)
    case 5 => Descriptor(INST_LDRSW_IMM_PRE, 0xb8800c00, 0xffe00c00, ldst_imm9)
    case 6 => Descriptor(INST_LDRSW_IMM_OFF, 0xb9800000, 0xffc00000, ldst_pos)
    case 7 => Descriptor(INST_LDRSW_REG, 0xb8a00800, 0xffe00c00, ldst_regoff)
    case _ => Descriptor(INST_LDRSW_LOADLIT, 0x98000000, 0xff000000, loadlit)
  }

  lemma {:induction false} RowsLdrshToLdrswCodes(i: nat)
    requires i < 9
    ensures RowsLdrshToLdrsw(i).code == 119 + i
  {
    match i
    case 0 => case 1 => case 2 => case 3 => case 4 => case 5 =>
    case 6 => case 7 => case _ =>
  }

  lemma {:induction false} RowsLdrshToLdrswStrayBits(i: nat)
    requires i < 9
    ensures StrayBitsListed(RowsLdrshToLdrsw(i))
  {
    match i
    case 0 => case 1 => case 2 => case 3 => case 4 => case 5 =>
    case 6 => case 7 => case _ =>
  }

  lemma {:induction false} RowsLdrshToLdrswFullMasks(i: nat)
    requires i < 9
    ensures FullMaskListed(RowsLdrshToLdrsw(i))
  {
    match i
    case 0 => case 1 => case 2 => case 3 => case 4 => case 5 =>
    case 6 => case 7 => case _ =>
  }

  lemma {:induction false} RowsLdrshToLdrswCondMasks(i: nat)
    requires i < 9
    ensures CondMaskListed(RowsLdrshToLdrsw(i))
  {
    match i
    case 0 => case 1 => case 2 => case 3 => case 4 => case 5 =>
    case 6 => case 7 => case _ =>
  }

  /** Rows of lines 195-207. */
  function RowsLdtrToLdursw(i: nat): (d: Descriptor)
    requires i < 13
  {
    match i
    case 0 => Descriptor(INST_LDTR_LDST_UNPRIV, 0xb8400800, 0xbfe00c00, ldst_unpriv)
    case 1 => Descriptor(INST_LDTRB_LDST_UNPRIV, 0x38400800, 0xffe00c00, ldst_unpriv)
    case 2 => Descriptor(INST_LDTRH_LDST_UNPRIV, 0x78400800, 0xffe00c00, ldst_unpriv)
    case 3 => Descriptor(INST_LDTRSB_LDST_UNPRIV, 0x38800800, 0xffa00c00, ldst_unpriv)
    case 4 => Descriptor(INST_LDTRSH_LDST_UNPRIV, 0x78800800, 0xffa00c00, ldst_unpriv)
    case 5 => Descriptor(INST_LDTRSW_LDST_UNPRIV, 0xb8800800, 0xffe00c00, ldst_unpriv)
    case 6 => Descriptor(INST_LDUR_LDST_UNSCALED, 0x3c400000, 0x3f600c00, ldst_unscaled)
    case 7 => Descriptor(INST_LDUR_LDST_UNSCALED_X, 0xb8400000, 0xbfe00c00, ldst_unscaled)
    case 8 => Descriptor(INST_LDURB_LDST_UNSCALED, 0x38400000, 0xffe00c00, ldst_unscaled)
    case 9 => Descriptor(INST_LDURH_LDST_UNSCALED, 0x78400000, 0xffe00c00, ldst_unscaled)
    case 10 => Descriptor(INST_LDURSB_LDST_UNSCALED, 0x38800000, 0xffa00c00, ldst_unscaled)
    case 11 => Descriptor(INST_LDURSH_LDST_UNSCALED, 0x78800000, 0xffa00c00, ldst_unscaled)
    case _ => Descriptor(INST_LDURSW_LDST_UNSCALED, 0xb8800000, 0xffe00c00, ldst_unscaled)
  }

  lemma {:induction false} RowsLdtrToLdurswCodes(i: nat)
    requires i < 13
    ensures RowsLdtrToLdursw(i).code == 128 + i
  {
    match i
    case 0 => case 1 => case 2 => case 3 => case 4 => case 5 =>
    case 6 => case 7 => case 8 => case 9 => case 10 => case 11 =>
    case _ =>
  }

  lemma {:induction false} RowsLdtrToLdurswStrayBits(i: nat)
    requires i < 13
    ensures StrayBitsListed(RowsLdtrToLdursw(i))
  {
    match i
    case 0 => case 1 => case 2 => case 3 => case 4 => case 5 =>
    case 6 => case 7 => case 8 => case 9 => case 10 => case 11 =>
    case _ =>
  }

  lemma {:induction false} RowsLdtrToLdurswFullMasks(i: nat)
    requires i < 13
    ensures FullMaskListed(RowsLdtrToLdursw(i))
  {
    match i
    case 0 => case 1 => case 2 => case 3 => case 4 => case 5 =>
    case 6 => case 7 => case 8 => case 9 => case 10 => case 11 =>
    case _ =>
  }

  lemma {:induction false} RowsLdtrToLdurswCondMasks(i: nat)
    requires i < 13
    ensures CondMaskListed(RowsLdtrToLdursw(i))
  {
    match i
    case 0 => case 1 => case 2 => case 3 => case 4 => case 5 =>
    case 6 => case 7 => case 8 => case 9 => case 10 => case 11 =>
    case _ =>
  }

  /** Rows of lines 208-217. */
  function RowsLdxpToLsrv(i: nat): (d: Descriptor)
    requires i < 10
  {
    match i
    case 0 => Descriptor(INST_LDXP_LDSTEXCL, 0x887f0000, 0xbfe08000, ldstexcl_op3)
    case 1 => Descriptor(INST_LDXR_LDSTEXCL, 0x885f7c00, 0xbfe08000, ldstexcl)
    case 2 => Descriptor(INST_LDXRB_LDSTEXCL, 0x085f7c00, 0xffe08000, ldstexcl)
    case 3 => Descriptor(INST_LDXRH_LDSTEXCL, 0x485f7c00, 0xffe08000, ldstexcl)
    case 4 => Descriptor(INST_LSL_BITFIELD, 0x53000000, 0x7f800000, bitfield)
    case 5 => Descriptor(INST_LSL_DP_2SRC, 0x1ac02000, 0x7fe0fc00, dp_2src)
    case 6 => Descriptor(INST_LSLV_DP_2SRC, 0x1ac02000, 0x7fe0fc00, dp_2src)
    case 7 => Descriptor(INST_LSR_BITFIELD, 0x53000000, 0x7f800000, bitfield)
    case 8 => Descriptor(INST_LSR_DP_2SRC, 0x1ac02400, 0x7fe0fc00, dp_2src)
    case _ => Descriptor(INST_LSRV_DP_2SRC, 0x1ac02400, 0x7fe0fc00, dp_2src)
  }

  lemma {:induction false} RowsLdxpToLsrvCodes(i: nat)
    requires i < 10
    ensures RowsLdxpToLsrv(i).code == 141 + i
  {
    match i
    case 0 => case 1 => case 2 => case 3 => case 4 => case 5 =>
    case 6 => case 7 => case 8 => case _ =>
  }

  lemma {:induction false} RowsLdxpToLsrvStrayBits(i: nat)
    requires i < 10
    ensures StrayBitsListed(RowsLdxpToLsrv(i))
  {
    match i
    case 0 => case 1 => case 2 => case 3 => case 4 => case 5 =>
    case 6 => case 7 => case 8 => case _ =>
  }

  lemma {:induction false} RowsLdxpToLsrvFullMasks(i: nat)
    requires i < 10
    ensures FullMaskListed(RowsLdxpToLsrv(i))
  {
    match i
    case 0 => case 1 => case 2 => case 3 => case 4 => case 5 =>
    case 6 => case 7 => case 8 => case _ =>
  }

  lemma {:induction false} RowsLdxpToLsrvCondMasks(i: nat)
    requires i < 10
    ensures CondMaskListed(RowsLdxpToLsrv(i))
  {
    match i
    case 0 => case 1 => case 2 => case 3 => case 4 => case 5 =>
    case 6 => case 7 => case 8 => case _ =>
  }

  /** Rows of lines 218-230. */
  function RowsMaddToMsr(i: nat): (d: Descriptor)
    requires i < 13
  {
    match i
    case 0 => Descriptor(INST_MADD_DP_3SRC, 0x1b000000, 0x7fe08000, dp_3src)
    case 1 => Descriptor(INST_MNEG_DP_3SRC, 0x1b00fc00, 0x7fe0fc00, dp_3src)
    case 2 => Descriptor(INST_MOV_ADDSUB_IMM, 0x2a0003e0, 0x7ffffc00, addsub_imm)
    case 3 => Descriptor(INST_MOV_LOG_IMM, 0x320003e0, 0x7f8003e0, log_imm)
    case 4 => Descriptor(INST_MOV_LOG_SHIFT, 0x110003e0, 0x7f2003e0, log_shift)
    case 5 => Descriptor(INST_MOV_MOVEWIDE, 0x12800000, 0x7f800000, movewide)
    case 6 => Descriptor(INST_MOV_MOVEWIDE_X, 0x52800000, 0x7f800000, movewide)
    case 7 => Descriptor(INST_MOVK_MOVEWIDE, 0x72800000, 0x7f800000, movewide)
    case 8 => Descriptor(INST_MOVN_MOVEWIDE, 0x12800000, 0x7f800000, movewide)
    case 9 => Descriptor(INST_MOVZ_MOVEWIDE, 0x52800000, 0x7f800000, movewide)
    case 10 => Descriptor(INST_MRS_IC_SYSTEM, 0xd5300000, 0xfff00000, ic_system)
    case 11 => Descriptor(INST_MSR_IC_SYSTEM, 0xd500401f, 0xfff8f01f, ic_system)
    case _ => Descriptor(INST_MSR_IC_SYSTEM_X, 0xd5100000, 0xfff00000, ic_system)
  }

  lemma {:induction false} RowsMaddToMsrCodes(i: nat)
    requires i < 13
    ensures RowsMaddToMsr(i).code == 151 + i
  {
    match i
    case 0 => case 1 => case 2 => case 3 => case 4 => case 5 =>
    case 6 => case 7 => case 8 => case 9 => case 10 => case 11 =>
    case _ =>
  }

  lemma {:induction false} RowsMaddToMsrStrayBits(i: nat)
    requires i < 13
    ensures StrayBitsListed(RowsMaddToMsr(i))
  {
    match i
    case 0 => case 1 => case 2 => case 3 => case 4 => case 5 =>
    case 6 => case 7 => case 8 => case 9 => case 10 => case 11 =>
    case _ =>
  }

  lemma {:induction false} RowsMaddToMsrFullMasks(i: nat)
    requires i < 13
    ensures FullMaskListed(RowsMaddToMsr(i))
  {
    match i
    case 0 => case 1 => case 2 => case 3 => case 4 => case 5 =>
    case 6 => case 7 => case 8 => case 9 => case 10 => case 11 =>
    case _ =>
  }

  lemma {:induction false} RowsMaddToMsrCondMasks(i: nat)
    requires i < 13
    ensures CondMaskListed(RowsMaddToMsr(i))
  {
    match i
    case 0 => case 1 => case 2 => case 3 => case 4 => case 5 =>
    case 6 => case 7 => case 8 => case 9 => case 10 => case 11 =>
    case _ =>
  }

  /** Rows of lines 231-241. */
  function RowsMsubToOrr(i: nat): (d: Descriptor)
    requires i < 11
  {
    match i
    case 0 => Descriptor(INST_MSUB_DP_3SRC, 0x1b008000, 0x7fe08000, dp_3src)
    case 1 => Descriptor(INST_MUL_DP_3SRC, 0x1b007c00, 0x7fe0fc00, dp_3src)
    case 2 => Descriptor(INST_MVN_LOG_SHIFT, 0x2a2003e0, 0x7f2003e0, log_shift)
    case 3 => Descriptor(INST_NEG_ADDSUB_SHIFT, 0x4b0003e0, 0x7f2003e0, addsub_shift)
    case 4 => Descriptor(INST_NEGS_ADDSUB_SHIFT, 0x6b0003e0, 0x7f2003e0, addsub_shift)
    case 5 => Descriptor(INST_NGC_ADDSUB_CARRY, 0x5a0003e0, 0x7fe0ffe0, addsub_carry)
    case 6 => Descriptor(INST_NGCS_ADDSUB_CARRY, 0x7a0003e0, 0x7fe0ffe0, addsub_carry)
    case 7 => Descriptor(INST_NOP_IC_SYSTEM, 0xd503201f, 0xffffffff, ic_system)
    case 8 => Descriptor(INST_ORN_LOG_SHIFT, 0x2a200000, 0x7f200000, log_shift)
    case 9 => Descriptor(INST_ORR_LOG_IMM, 0x32000000, 0x7f800000, log_imm)
    case _ => Descriptor(INST_ORR_LOG_SHIFT, 0x2a000000, 0x7f200000, log_shift)
  }

  lemma {:induction false} RowsMsubToOrrCodes(i: nat)
    requires i < 11
    ensures RowsMsubToOrr(i).code == 164 + i
  {
    match i
    case 0 => case 1 => case 2 => case 3 => case 4 => case 5 =>
    case 6 => case 7 => case 8 => case 9 => case _ =>
  }

  lemma {:induction false} RowsMsubToOrrStrayBits(i: nat)
    requires i < 11
    ensures StrayBitsListed(RowsMsubToOrr(i))
  {
    match i
    case 0 => case 1 => case 2 => case 3 => case 4 => case 5 =>
    case 6 => case 7 => case 8 => case 9 => case _ =>
  }

  lemma {:induction false} RowsMsubToOrrFullMasks(i: nat)
    requires i < 11
    ensures FullMaskListed(RowsMsubToOrr(i))
  {
    match i
    case 0 => case 1 => case 2 => case 3 => case 4 => case 5 =>
    case 6 => case 7 => case 8 => case 9 => case _ =>
  }

  lemma {:induction false} RowsMsubToOrrCondMasks(i: nat)
    requires i < 11
    ensures CondMaskListed(RowsMsubToOrr(i))
  {
    match i
    case 0 => case 1 => case 2 => case 3 => case 4 => case 5 =>
    case 6 => case 7 => case 8 => case 9 => case _ =>
  }

  /** Rows of lines 242-254. */
  function RowsPrfmToRorv(i: nat): (d: Descriptor)
    requires i < 13
  {
    match i
    case 0 => Descriptor(INST_PRFM_LDST_POS__IMMEDIATE, 0xf9800000, 0xffc00000, ldst_pos)
    case 1 => Descriptor(INST_PRFM_LDST_REGOFF__REGISTER, 0xf8a00800, 0xffe00c00, ldst_regoff)
    case 2 => Descriptor(INST_PRFM_LOADLIT__LITERAL, 0xd8000000, 0xff000000, loadlit)
    case 3 => Descriptor(INST_PRFUM_LDST_UNSCALED, 0xf8800000, 0xffe00c00, ldst_unscaled)
    case 4 => Descriptor(INST_RBIT_DP_1SRC, 0x5ac00000, 0x7ffffc00, dp_1src)
    case 5 => Descriptor(INST_RET_BRANCH_REG, 0xd65f0000, 0xfffffc1f, branch_reg)
    case 6 => Descriptor(INST_REV_DP_1SRC, 0x5ac00800, 0xfffffc00, dp_1src)
    case 7 => Descriptor(INST_REV_DP_1SRC_X, 0xdac00c00, 0x7ffffc00, dp_1src)
    case 8 => Descriptor(INST_REV16_DP_1SRC, 0x5ac00400, 0x7ffffc00, dp_1src)
    case 9 => Descriptor(INST_REV32_DP_1SRC, 0xdac00800, 0xfffffc00, dp_1src)
    case 10 => Descriptor(INST_ROR_DP_2SRC, 0x1ac02c00, 0x7fe0fc00, dp_2src)
    case 11 => Descriptor(INST_ROR_EXTRACT, 0x13800000, 0x7fa00000, extract)
    case _ => Descriptor(INST_RORV_DP_2SRC, 0x1ac02c00, 0x7fe0fc00, dp_2src)
  }

  lemma {:induction false} RowsPrfmToRorvCodes(i: nat)
    requires i < 13
    ensures RowsPrfmToRorv(i).code == 175 + i
  {
    match i
    case 0 => case 1 => case 2 => case 3 => case 4 => case 5 =>
    case 6 => case 7 => case 8 => case 9 => case 10 => case 11 =>
    case _ =>
  }

  lemma {:induction false} RowsPrfmToRorvStrayBits(i: nat)
    requires i < 13
    ensures StrayBitsListed(RowsPrfmToRorv(i))
  {
    match i
    case 0 => case 1 => case 2 => case 3 => case 4 => case 5 =>
    case 6 => case 7 => case 8 => case 9 => case 10 => case 11 =>
    case _ =>
  }

  lemma {:induction false} RowsPrfmToRorvFullMasks(i: nat)
    requires i < 13
    ensures FullMaskListed(RowsPrfmToRorv(i))
  {
    match i
    case 0 => case 1 => case 2 => case 3 => case 4 => case 5 =>
    case 6 => case 7 => case 8 => case 9 => case 10 => case 11 =>
    case _ =>
  }

  lemma {:induction false} RowsPrfmToRorvCondMasks(i: nat)
    requires i < 13
    ensures CondMaskListed(RowsPrfmToRorv(i))
  {
    match i
    case 0 => case 1 => case 2 => case 3 => case 4 => case 5 =>
    case 6 => case 7 => case 8 => case 9 => case 10 => case 11 =>
    case _ =>
  }

  /** Rows of lines 255-262. */
  function RowsSbcToSevl(i: nat): (d: Descriptor)
    requires i < 8
  {
    match i
    case 0 => Descriptor(INST_SBC_ADDSUB_CARRY, 0x5a000000, 0x7fe0fc00, addsub_carry)
    case 1 => Descriptor(INST_SBCS_ADDSUB_CARRY, 0x7a000000, 0x7fe0fc00, addsub_carry)
    case 2 => Descriptor(INST_SBFIZ_BITFIELD, 0x13000000, 0x7f800000, bitfield)
    case 3 => Descriptor(INST_SBFM_BITFIELD, 0x13000000, 0x7f800000, bitfield)
    case 4 => Descriptor(INST_SBFX_BITFIELD, 0x13000000, 0x7f800000, bitfield)
    case 5 => Descriptor(INST_SDIV_DP_2SRC, 0x1ac00c00, 0x7fe0fc00, dp_2src)
    case 6 => Descriptor(INST_SEV_IC_SYSTEM, 0xd503209f, 0xffffffff, ic_system)
    case _ => Descriptor(INST_SEVL_IC_SYSTEM, 0xd50320bf, 0xffffffff, ic_system)
  }

  lemma {:induction false} RowsSbcToSevlCodes(i: nat)
    requires i < 8
    ensures RowsSbcToSevl(i).code == 188 + i
  {
    match i
    case 0 => case 1 => case 2 => case 3 => case 4 => case 5 =>
    case 6 => case _ =>
  }

  lemma {:induction false} RowsSbcToSevlStrayBits(i: nat)
    requires i < 8
    ensures StrayBitsListed(RowsSbcToSevl(i))
  {
    match i
    case 0 => case 1 => case 2 => case 3 => case 4 => case 5 =>
    case 6 => case _ =>
  }

  lemma {:induction false} RowsSbcToSevlFullMasks(i: nat)
    requires i < 8
    ensures FullMaskListed(RowsSbcToSevl(i))
  {
    match i
    case 0 => case 1 => case 2 => case 3 => case 4 => case 5 =>
    case 6 => case _ =>
  }

  lemma {:induction false} RowsSbcToSevlCondMasks(i: nat)
    requires i < 8
    ensures CondMaskListed(RowsSbcToSevl(i))
  {
    match i
    case 0 => case 1 => case 2 => case 3 => case 4 => case 5 =>
    case 6 => case _ =>
  }

  /** Rows of lines 263-275. */
  function RowsSmaddlToStlxrh(i: nat): (d: Descriptor)
    requires i < 13
  {
    match i
    case 0 => Descriptor(INST_SMADDL_DP_3SRC, 0x9b200000, 0xffe08000, dp_3src)
    case 1 => Descriptor(INST_SMC_EXCEPTION, 0xd4000003, 0xffe0001f, exception)
    case 2 => Descriptor(INST_SMNEGL_DP_3SRC, 0x9b20fc00, 0xffe0fc00, dp_3src)
    case 3 => Descriptor(INST_SMSUBL_DP_3SRC, 0x9b208000, 0xffe08000, dp_3src)
    case 4 => Descriptor(INST_SMULH_DP_3SRC, 0x9b407c00, 0xffe08000, dp_3src)
    case 5 => Descriptor(INST_SMULL_DP_3SRC, 0x9b207c00, 0xffe0fc00, dp_3src)
    case 6 => Descriptor(INST_STLR_LDSTEXCL, 0x889ffc00, 0xbfe08000, ldstexcl)
    case 7 => Descriptor(INST_STLRB_LDSTEXCL, 0x089ffc00, 0xffe08000, ldstexcl)
    case 8 => Descriptor(INST_STLRH_LDSTEXCL, 0x489ffc00, 0xffe08000, ldstexcl)
    case 9 => Descriptor(INST_STLXP_LDSTEXCL, 0x88208000, 0xbfe08000, ldstexcl_op4)
    case 10 => Descriptor(INST_STLXR_LDSTEXCL, 0x8800fc00, 0xbfe08000, ldstexcl_op3)
    case 11 => Descriptor(INST_STLXRB_LDSTEXCL, 0x0800fc00, 0xffe08000, ldstexcl_op3)
    case _ => Descriptor(INST_STLXRH_LDSTEXCL, 0x4800fc00, 0xffe08000, ldstexcl_op3)
  }

  lemma {:induction false} RowsSmaddlToStlxrhCodes(i: nat)
    requires i < 13
    ensures RowsSmaddlToStlxrh(i).code == 196 + i
  {
    match i
    case 0 => case 1 => case 2 => case 3 => case 4 => case 5 =>
    case 6 => case 7 => case 8 => case 9 => case 10 => case 11 =>
    case _ =>
  }

  lemma {:induction false} RowsSmaddlToStlxrhStrayBits(i: nat)
    requires i < 13
    ensures StrayBitsListed(RowsSmaddlToStlxrh(i))
  {
    match i
    case 0 => case 1 => case 2 => case 3 => case 4 => case 5 =>
    case 6 => case 7 => case 8 => case 9 => case 10 => case 11 =>
    case _ =>
  }

  lemma {:induction false} RowsSmaddlToStlxrhFullMasks(i: nat)
    requires i < 13
    ensures FullMaskListed(RowsSmaddlToStlxrh(i))
  {
    match i
    case 0 => case 1 => case 2 => case 3 => case 4 => case 5 =>
    case 6 => case 7 => case 8 => case 9 => case 10 => case 11 =>
    case _ =>
  }

  lemma {:induction false} RowsSmaddlToStlxrhCondMasks(i: nat)
    requires i < 13
    ensures CondMaskListed(RowsSmaddlToStlxrh(i))
  {
    match i
    case 0 => case 1 => case 2 => case 3 => case 4 => case 5 =>
    case 6 => case 7 => case 8 => case 9 => case 10 => case 11 =>
    case _ =>
  }

  /** Rows of lines 276-288. */
  function RowsStnpToStrb(i: nat): (d: Descriptor)
    requires i < 13
  {
    match i
    case 0 => Descriptor(INST_STNP_LDSTNAPAIR_OFFS, 0x28000000, 0x7fc00000, ldstnapair_offs)
    case 1 => Descriptor(INST_STNP_LDSTNAPAIR_OFFS_X, 0x2c000000, 0x3fc00000, ldstnapair_offs)
    case 2 => Descriptor(INST_STP_LDSTPAIR_INDEXED_POST, 0x28800000, 0x7fc00000, ldstpair_indexed)
    case 3 => Descriptor(INST_STP_LDSTPAIR_INDEXED_PRE, 0x29800000, 0x7fc00000, ldstpair_indexed)
    case 4 => Descriptor(INST_STP_LDSTPAIR_OFF, 0x29000000, 0x7fc00000, ldstpair_off)
    case 5 => Descriptor(INST_STR_LDST_IMM9_PRE, 0xb8000c00, 0xbf600c00, ldst_imm9)
    case 6 => Descriptor(INST_STR_LDST_IMM9_POST, 0xb8000400, 0xbfe00c00, ldst_imm9)
    case 7 => Descriptor(INST_STR_LDST_POS, 0xb9000000, 0xbfc00000, ldst_pos)
    case 8 => Descriptor(INST_STR_LDST_REGOFF, 0xb8200800, 0xbfe00c00, ldst_regoff)
    case 9 => Descriptor(INST_STRB_LDST_IMM9_POST, 0x38000400, 0xffe00c00, ldst_imm9)
    case 10 => Descriptor(INST_STRB_LDST_OFFSET, 0x39000000, 0xffc00000, ldst_pos)
    case 11 => Descriptor(INST_STRB_LDST_REGOFF, 0x38200800, 0xffe00c00, ldst_regoff)
    case _ => Descriptor(INST_STRB_LDST_PRE, 0x38000c00, 0xffe00c00, ldst_imm9)
  }

  lemma {:induction false} RowsStnpToStrbCodes(i: nat)
    requires i < 13
    ensures RowsStnpToStrb(i).code == 209 + i
  {
    match i
    case 0 => case 1 => case 2 => case 3 => case 4 => case 5 =>
    case 6 => case 7 => case 8 => case 9 => case 10 => case 11 =>
    case _ =>
  }

  lemma {:induction false} RowsStnpToStrbStrayBits(i: nat)
    requires i < 13
    ensures StrayBitsListed(RowsStnpToStrb(i))
  {
    match i
    case 0 => case 1 => case 2 => case 3 => case 4 => case 5 =>
    case 6 => case 7 => case 8 => case 9 => case 10 => case 11 =>
    case _ =>
  }

  lemma {:induction false} RowsStnpToStrbFullMasks(i: nat)
    requires i < 13
    ensures FullMaskListed(RowsStnpToStrb(i))
  {
    match i
    case 0 => case 1 => case 2 => case 3 => case 4 => case 5 =>
    case 6 => case 7 => case 8 => case 9 => case 10 => case 11 =>
    case _ =>
  }

  lemma {:induction false} RowsStnpToStrbCondMasks(i: nat)
    requires i < 13
    ensures CondMaskListed(RowsStnpToStrb(i))
  {
    match i
    case 0 => case 1 => case 2 => case 3 => case 4 => case 5 =>
    case 6 => case 7 => case 8 => case 9 => case 10 => case 11 =>
    case _ =>
  }

  /** Rows of lines 289-299. */
  function RowsStrhToSturh(i: nat): (d: Descriptor)
    requires i < 11
  {
    match i
    case 0 => Descriptor(INST_STRH_LDST_IMM_PRE, 0x78000c00, 0xffe00c00, ldst_imm9)
    case 1 => Descriptor(INST_STRH_LDST_IMM_POST, 0x78000400, 0xffe00c00, ldst_imm9)
    case 2 => Descriptor(INST_STRH_LDST_IMM_OFF, 0x79000000, 0xffc00000, ldst_pos)
    case 3 => Descriptor(INST_STRH_LDST_REGOFF, 0x78200800, 0xffe00c00, ldst_regoff)
    case 4 => Descriptor(INST_STTR_LDST_UNPRIV, 0xb8000800, 0xbfe00c00, ldst_unpriv)
    case 5 => Descriptor(INST_STTRB_LDST_UNPRIV, 0x38000800, 0xffe00c00, ldst_unpriv)
    case 6 => Descriptor(INST_STTRH_LDST_UNPRIV, 0x78000800, 0xffe00c00, ldst_unpriv)
    case 7 => Descriptor(INST_STUR_LDST_UNSCALED, 0x3c000000, 0x3f600c00, ldst_unscaled)
    case 8 => Descriptor(INST_STUR_LDST_UNSCALED_X, 0xb8000000, 0xbfe00c00, ldst_unscaled)
    case 9 => Descriptor(INST_STURB_LDST_UNSCALED, 0x38000000, 0xffe00c00, ldst_unscaled)
    case _ => Descriptor(INST_STURH_LDST_UNSCALED, 0x78000000, 0xffe00c00, ldst_unscaled)
  }

  lemma {:induction false} RowsStrhToSturhCodes(i: nat)
    requires i < 11
    ensures RowsStrhToSturh(i).code == 222 + i
  {
    match i
    case 0 => case 1 => case 2 => case 3 => case 4 => case 5 =>
    case 6 => case 7 => case 8 => case 9 => case _ =>
  }

  lemma {:induction false} RowsStrhToSturhStrayBits(i: nat)
    requires i < 11
    ensures StrayBitsListed(RowsStrhToSturh(i))
  {
    match i
    case 0 => case 1 => case 2 => case 3 => case 4 => case 5 =>
    case 6 => case 7 => case 8 => case 9 => case _ =>
  }

  lemma {:induction false} RowsStrhToSturhFullMasks(i: nat)
    requires i < 11
    ensures FullMaskListed(RowsStrhToSturh(i))
  {
    match i
    case 0 => case 1 => case 2 => case 3 => case 4 => case 5 =>
    case 6 => case 7 => case 8 => case 9 => case _ =>
  }

  lemma {:induction false} RowsStrhToSturhCondMasks(i: nat)
    requires i < 11
    ensures CondMaskListed(RowsStrhToSturh(i))
  {
    match i
    case 0 => case 1 => case 2 => case 3 => case 4 => case 5 =>
    case 6 => case 7 => case 8 => case 9 => case _ =>
  }

  /** Rows of lines 300-309. */
  function RowsStxpToSubs(i: nat): (d: Descriptor)
    requires i < 10
  {
    match i
    case 0 => Descriptor(INST_STXP_LDSTEXCL, 0x88200000, 0xbfe08000, ldstexcl_op4)
    case 1 => Descriptor(INST_STXR_LDSTEXCL, 0x88007c00, 0xbfe08000, ldstexcl_op3)
    case 2 => Descriptor(INST_STXRB_LDSTEXCL, 0x08007c00, 0xffe08000, ldstexcl_op3)
    case 3 => Descriptor(INST_STXRH_LDSTEXCL, 0x48007c00, 0xffe08000, ldstexcl_op3)
    case 4 => Descriptor(INST_SUB_ADDSUB_EXT, 0x4b200000, 0x7fe00000, addsub_ext)
    case 5 => Descriptor(INST_SUB_ADDSUB_IMM, 0x51000000, 0x7f000000, addsub_imm)
    case 6 => Descriptor(INST_SUB_ADDSUB_SHIFT, 0x4b000000, 0x7f200000, addsub_shift)
    case 7 => Descriptor(INST_SUBS_ADDSUB_EXT, 0x6b200000, 0x7fe00000, addsub_ext)
    case 8 => Descriptor(INST_SUBS_ADDSUB_IMM, 0x71000000, 0x7f000000, addsub_imm)
    case _ => Descriptor(INST_SUBS_ADDSUB_SHIFT, 0x6b000000, 0x7f200000, addsub_shift)
  }

  lemma {:induction false} RowsStxpToSubsCodes(i: nat)
    requires i < 10
    ensures RowsStxpToSubs(i).code == 233 + i
  {
    match i
    case 0 => case 1 => case 2 => case 3 => case 4 => case 5 =>
    case 6 => case 7 => case 8 => case _ =>
  }

  lemma {:induction false} RowsStxpToSubsStrayBits(i: nat)
    requires i < 10
    ensures StrayBitsListed(RowsStxpToSubs(i))
  {
    match i
    case 0 => case 1 => case 2 => case 3 => case 4 => case 5 =>
    case 6 => case 7 => case 8 => case _ =>
  }

  lemma {:induction false} RowsStxpToSubsFullMasks(i: nat)
    requires i < 10
    ensures FullMaskListed(RowsStxpToSubs(i))
  {
    match i
    case 0 => case 1 => case 2 => case 3 => case 4 => case 5 =>
    case 6 => case 7 => case 8 => case _ =>
  }

  lemma {:induction false} RowsStxpToSubsCondMasks(i: nat)
    requires i < 10
    ensures CondMaskListed(RowsStxpToSubs(i))
  {
    match i
    case 0 => case 1 => case 2 => case 3 => case 4 => case 5 =>
    case 6 => case 7 => case 8 => case _ =>
  }

  /** Rows of lines 310-320. */
  function RowsSvcToTst(i: nat): (d: Descriptor)
    requires i < 11
  {
    match i
    case 0 => Descriptor(INST_SVC_EXCEPTION, 0xd4000001, 0xffe0001f, exception)
    case 1 => Descriptor(INST_SXTB_BITFIELD, 0x13001c00, 0x7fbffc00, bitfield)
    case 2 => Descriptor(INST_SXTH_BITFIELD, 0x13003c00, 0x7fbffc00, bitfield)
    case 3 => Descriptor(INST_SXTW_BITFIELD, 0x93407c00, 0xfffffc00, bitfield)
    case 4 => Descriptor(INST_SYS_IC_SYSTEM, 0xd5080000, 0xfff80000, ic_system)
    case 5 => Descriptor(INST_SYSL_IC_SYSTEM, 0xd5280000, 0xfff80000, ic_system)
    case 6 => Descriptor(INST_TBNZ_TESTBRANCH, 0x37000000, 0x7f000000, testbranch)
    case 7 => Descriptor(INST_TBZ_TESTBRANCH, 0x36000000, 0x7f000000, testbranch)
    case 8 => Descriptor(INST_TLBI_IC_SYSTEM, 0xd5080000, 0xfff80000, ic_system)
    case 9 => Descriptor(INST_TST_LOG_IMM, 0x7200001f, 0x7f80001f, log_imm)
    case _ => Descriptor(INST_TST_LOG_SHIFT, 0x6a00001f, 0x7f20001f, log_shift)
  }

  lemma {:induction false} RowsSvcToTstCodes(i: nat)
    requires i < 11
    ensures RowsSvcToTst(i).code == 243 + i
  {
    match i
    case 0 => case 1 => case 2 => case 3 => case 4 => case 5 =>
    case 6 => case 7 => case 8 => case 9 => case _ =>
  }

  lemma {:induction false} RowsSvcToTstStrayBits(i: nat)
    requires i < 11
    ensures StrayBitsListed(RowsSvcToTst(i))
  {
    match i
    case 0 => case 1 => case 2 => case 3 => case 4 => case 5 =>
    case 6 => case 7 => case 8 => case 9 => case _ =>
  }

  lemma {:induction false} RowsSvcToTstFullMasks(i: nat)
    requires i < 11
    ensures FullMaskListed(RowsSvcToTst(i))
  {
    match i
    case 0 => case 1 => case 2 => case 3 => case 4 => case 5 =>
    case 6 => case 7 => case 8 => case 9 => case _ =>
  }

  lemma {:induction false} RowsSvcToTstCondMasks(i: nat)
    requires i < 11
    ensures CondMaskListed(RowsSvcToTst(i))
  {
    match i
    case 0 => case 1 => case 2 => case 3 => case 4 => case 5 =>
    case 6 => case 7 => case 8 => case 9 => case _ =>
  }

  /** Rows of lines 321-335. */
  function RowsUbfizToYield(i: nat): (d: Descriptor)
    requires i < 15
  {
    match i
    case 0 => Descriptor(INST_UBFIZ_BITFIELD, 0x53000000, 0x7f800000, bitfield)
    case 1 => Descriptor(INST_UBFM_BITFIELD, 0x53000000, 0x7f800000, bitfield)
    case 2 => Descriptor(INST_UBFX_BITFIELD, 0x53000000, 0x7f800000, bitfield)
    case 3 => Descriptor(INST_UDIV_DP_2SRC, 0x1ac00800, 0x7fe0fc00, dp_2src)
    case 4 => Descriptor(INST_UMADDL_DP_3SRC, 0x9ba00000, 0xffe08000, dp_3src)
    case 5 => Descriptor(INST_UMNEGL_DP_3SRC, 0x9ba0fc00, 0xffe0fc00, dp_3src)
    case 6 => Descriptor(INST_UMSUBL_DP_3SRC, 0x9ba08000, 0xffe08000, dp_3src)
    case 7 => Descriptor(INST_UMULH_DP_3SRC, 0x9bc07c00, 0xffe08000, dp_3src)
    case 8 => Descriptor(INST_UMULL_DP_3SRC, 0x9ba07c00, 0xffe0fc00, dp_3src)
    case 9 => Descriptor(INST_UXTB_BITFIELD, 0x53001c00, 0xfffffc00, bitfield)
    case 10 => Descriptor(INST_UXTH_BITFIELD, 0x53003c00, 0xfffffc00, bitfield)
    case 11 => Descriptor(INST_UXTW_LOG_SHIFT, 0xd3407c00, 0x7f2003e0, bitfield)
    case 12 => Descriptor(INST_WFE_IC_SYSTEM, 0xd503205f, 0xffffffff, ic_system)
    case 13 => Descriptor(INST_WFI_IC_SYSTEM, 0xd503207f, 0xffffffff, ic_system)
    case _ => Descriptor(INST_YIELD_IC_SYSTEM, 0xd503203f, 0xffffffff, ic_system)
  }

  lemma {:induction false} RowsUbfizToYieldCodes(i: nat)
    requires i < 15
    ensures RowsUbfizToYield(i).code == 254 + i
  {
    match i
    case 0 => case 1 => case 2 => case 3 => case 4 => case 5 =>
    case 6 => case 7 => case 8 => case 9 => case 10 => case 11 =>
    case 12 => case 13 => case _ =>
  }

  lemma {:induction false} RowsUbfizToYieldStrayBits(i: nat)
    requires i < 15
    ensures StrayBitsListed(RowsUbfizToYield(i))
  {
    match i
    case 0 => case 1 => case 2 => case 3 => case 4 => case 5 =>
    case 6 => case 7 => case 8 => case 9 => case 10 => case 11 =>
    case 12 => case 13 => case _ =>
  }

  lemma {:induction false} RowsUbfizToYieldFullMasks(i: nat)
    requires i < 15
    ensures FullMaskListed(RowsUbfizToYield(i))
  {
    match i
    case 0 => case 1 => case 2 => case 3 => case 4 => case 5 =>
    case 6 => case 7 => case 8 => case 9 => case 10 => case 11 =>
    case 12 => case 13 => case _ =>
  }

  lemma {:induction false} RowsUbfizToYieldCondMasks(i: nat)
    requires i < 15
    ensures CondMaskListed(RowsUbfizToYield(i))
  {
    match i
    case 0 => case 1 => case 2 => case 3 => case 4 => case 5 =>
    case 6 => case 7 => case 8 => case 9 => case 10 => case 11 =>
    case 12 => case 13 => case _ =>
  }

  /** The row at position `k` of the whole list. */
  function RowAt(k: nat): (d: Descriptor)
    requires k < 269
  {
    if k < 10 then RowsAdcToAdrp(k)
    else if k < 20 then RowsAndToB(k - 10)
    else if k < 33 then RowsBccToBics(k - 20)
    else if k < 46 then RowsBlToBvs(k - 33)
    else if k < 57 then RowsCbnzToClz(k - 46)
    else if k < 70 then RowsCmnToCsneg(k - 57)
    else if k < 81 then RowsDcToEret(k - 70)
    else if k < 94 then RowsExtrToLdaxrh(k - 81)
    else if k < 107 then RowsLdnpToLdr(k - 94)
    else if k < 119 then RowsLdrbToLdrsb(k - 107)
    else if k < 128 then RowsLdrshToLdrsw(k - 119)
    else if k < 141 then RowsLdtrToLdursw(k - 128)
    else if k < 151 then RowsLdxpToLsrv(k - 141)
    else if k < 164 then RowsMaddToMsr(k - 151)
    else if k < 175 then RowsMsubToOrr(k - 164)
    else if k < 188 then RowsPrfmToRorv(k - 175)
    else if k < 196 then RowsSbcToSevl(k - 188)
    else if k < 209 then RowsSmaddlToStlxrh(k - 196)
    else if k < 222 then RowsStnpToStrb(k - 209)
    else if k < 233 then RowsStrhToSturh(k - 222)
    else if k < 243 then RowsStxpToSubs(k - 233)
    else if k < 254 then RowsSvcToTst(k - 243)
    else RowsUbfizToYield(k - 254)
  }

  /** The whole row list, in source order: 269 rows, the row at position `k` carrying
      the `k`-th code, so that no code appears twice. */
  function Rows(): (rows: seq<Descriptor>)
    ensures |rows| == 269
    ensures forall k | 0 <= k < |rows| :: rows[k].code == k
  {
    RowAtCodes();
    seq(269, k requires 0 <= k < 269 => RowAt(k))
  }

  lemma {:induction false} RowsAdcToAdrpAt(k: nat)
    requires 0 <= k < 10
    ensures RowFacts(RowAt(k), k)
  {
    RowsAdcToAdrpCodes(k - 0); RowsAdcToAdrpStrayBits(k - 0);
    RowsAdcToAdrpFullMasks(k - 0); RowsAdcToAdrpCondMasks(k - 0);
  }

  lemma {:induction false} RowsAndToBAt(k: nat)
    requires 10 <= k < 20
    ensures RowFacts(RowAt(k), k)
  {
    RowsAndToBCodes(k - 10); RowsAndToBStrayBits(k - 10);
    RowsAndToBFullMasks(k - 10); RowsAndToBCondMasks(k - 10);
  }

  lemma {:induction false} RowsBccToBicsAt(k: nat)
    requires 20 <= k < 33
    ensures RowFacts(RowAt(k), k)
  {
    RowsBccToBicsCodes(k - 20); RowsBccToBicsStrayBits(k - 20);
    RowsBccToBicsFullMasks(k - 20); RowsBccToBicsCondMasks(k - 20);
  }

  lemma {:induction false} RowsBlToBvsAt(k: nat)
    requires 33 <= k < 46
    ensures RowFacts(RowAt(k), k)
  {
    RowsBlToBvsCodes(k - 33); RowsBlToBvsStrayBits(k - 33);
    RowsBlToBvsFullMasks(k - 33); RowsBlToBvsCondMasks(k - 33);
  }

  lemma {:induction false} RowsCbnzToClzAt(k: nat)
    requires 46 <= k < 57
    ensures RowFacts(RowAt(k), k)
  {
    RowsCbnzToClzCodes(k - 46); RowsCbnzToClzStrayBits(k - 46);
    RowsCbnzToClzFullMasks(k - 46); RowsCbnzToClzCondMasks(k - 46);
  }

  lemma {:induction false} RowsCmnToCsnegAt(k: nat)
    requires 57 <= k < 70
    ensures RowFacts(RowAt(k), k)
  {
    RowsCmnToCsnegCodes(k - 57); RowsCmnToCsnegStrayBits(k - 57);
    RowsCmnToCsnegFullMasks(k - 57); RowsCmnToCsnegCondMasks(k - 57);
  }

  lemma {:induction false} RowsDcToEretAt(k: nat)
    requires 70 <= k < 81
    ensures RowFacts(RowAt(k), k)
  {
    RowsDcToEretCodes(k - 70); RowsDcToEretStrayBits(k - 70);
    RowsDcToEretFullMasks(k - 70); RowsDcToEretCondMasks(k - 70);
  }

  lemma {:induction false} RowsExtrToLdaxrhAt(k: nat)
    requires 81 <= k < 94
    ensures RowFacts(RowAt(k), k)
  {
    RowsExtrToLdaxrhCodes(k - 81); RowsExtrToLdaxrhStrayBits(k - 81);
    RowsExtrToLdaxrhFullMasks(k - 81); RowsExtrToLdaxrhCondMasks(k - 81);
  }

  lemma {:induction false} RowsLdnpToLdrAt(k: nat)
    requires 94 <= k < 107
    ensures RowFacts(RowAt(k), k)
  {
    RowsLdnpToLdrCodes(k - 94); RowsLdnpToLdrStrayBits(k - 94);
    RowsLdnpToLdrFullMasks(k - 94); RowsLdnpToLdrCondMasks(k - 94);
  }

  lemma {:induction false} RowsLdrbToLdrsbAt(k: nat)
    requires 107 <= k < 119
    ensures RowFacts(RowAt(k), k)
  {
    RowsLdrbToLdrsbCodes(k - 107); RowsLdrbToLdrsbStrayBits(k - 107);
    RowsLdrbToLdrsbFullMasks(k - 107); RowsLdrbToLdrsbCondMasks(k - 107);
  }

  lemma {:induction false} RowsLdrshToLdrswAt(k: nat)
    requires 119 <= k < 128
    ensures RowFacts(RowAt(k), k)
  {
    RowsLdrshToLdrswCodes(k - 119); RowsLdrshToLdrswStrayBits(k - 119);
    RowsLdrshToLdrswFullMasks(k - 119); RowsLdrshToLdrswCondMasks(k - 119);
  }

  lemma {:induction false} RowsLdtrToLdurswAt(k: nat)
    requires 128 <= k < 141
    ensures RowFacts(RowAt(k), k)
  {
    RowsLdtrToLdurswCodes(k - 128); RowsLdtrToLdurswStrayBits(k - 128);
    RowsLdtrToLdurswFullMasks(k - 128); RowsLdtrToLdurswCondMasks(k - 128);
  }

  lemma {:induction false} RowsLdxpToLsrvAt(k: nat)
    requires 141 <= k < 151
    ensures RowFacts(RowAt(k), k)
  {
    RowsLdxpToLsrvCodes(k - 141); RowsLdxpToLsrvStrayBits(k - 141);
    RowsLdxpToLsrvFullMasks(k - 141); RowsLdxpToLsrvCondMasks(k - 141);
  }

  lemma {:induction false} RowsMaddToMsrAt(k: nat)
    requires 151 <= k < 164
    ensures RowFacts(RowAt(k), k)
  {
    RowsMaddToMsrCodes(k - 151); RowsMaddToMsrStrayBits(k - 151);
    RowsMaddToMsrFullMasks(k - 151); RowsMaddToMsrCondMasks(k - 151);
  }

  lemma {:induction false} RowsMsubToOrrAt(k: nat)
    requires 164 <= k < 175
    ensures RowFacts(RowAt(k), k)
  {
    RowsMsubToOrrCodes(k - 164); RowsMsubToOrrStrayBits(k - 164);
    RowsMsubToOrrFullMasks(k - 164); RowsMsubToOrrCondMasks(k - 164);
  }

  lemma {:induction false} RowsPrfmToRorvAt(k: nat)
    requires 175 <= k < 188
    ensures RowFacts(RowAt(k), k)
  {
    RowsPrfmToRorvCodes(k - 175); RowsPrfmToRorvStrayBits(k - 175);
    RowsPrfmToRorvFullMasks(k - 175); RowsPrfmToRorvCondMasks(k - 175);
  }

  lemma {:induction false} RowsSbcToSevlAt(k: nat)
    requires 188 <= k < 196
    ensures RowFacts(RowAt(k), k)
  {
    RowsSbcToSevlCodes(k - 188); RowsSbcToSevlStrayBits(k - 188);
    RowsSbcToSevlFullMasks(k - 188); RowsSbcToSevlCondMasks(k - 188);
  }

  lemma {:induction false} RowsSmaddlToStlxrhAt(k: nat)
    requires 196 <= k < 209
    ensures RowFacts(RowAt(k), k)
  {
    RowsSmaddlToStlxrhCodes(k - 196); RowsSmaddlToStlxrhStrayBits(k - 196);
    RowsSmaddlToStlxrhFullMasks(k - 196); RowsSmaddlToStlxrhCondMasks(k - 196);
  }

  lemma {:induction false} RowsStnpToStrbAt(k: nat)
    requires 209 <= k < 222
    ensures RowFacts(RowAt(k), k)
  {
    RowsStnpToStrbCodes(k - 209); RowsStnpToStrbStrayBits(k - 209);
    RowsStnpToStrbFullMasks(k - 209); RowsStnpToStrbCondMasks(k - 209);
  }

  lemma {:induction false} RowsStrhToSturhAt(k: nat)
    requires 222 <= k < 233
    ensures RowFacts(RowAt(k), k)
  {
    RowsStrhToSturhCodes(k - 222); RowsStrhToSturhStrayBits(k - 222);
    RowsStrhToSturhFullMasks(k - 222); RowsStrhToSturhCondMasks(k - 222);
  }

  lemma {:induction false} RowsStxpToSubsAt(k: nat)
    requires 233 <= k < 243
    ensures RowFacts(RowAt(k), k)
  {
    RowsStxpToSubsCodes(k - 233); RowsStxpToSubsStrayBits(k - 233);
    RowsStxpToSubsFullMasks(k - 233); RowsStxpToSubsCondMasks(k - 233);
  }

  lemma {:induction false} RowsSvcToTstAt(k: nat)
    requires 243 <= k < 254
    ensures RowFacts(RowAt(k), k)
  {
    RowsSvcToTstCodes(k - 243); RowsSvcToTstStrayBits(k - 243);
    RowsSvcToTstFullMasks(k - 243); RowsSvcToTstCondMasks(k - 243);
  }

  lemma {:induction false} RowsUbfizToYieldAt(k: nat)
    requires 254 <= k < 269
    ensures RowFacts(RowAt(k), k)
  {
    RowsUbfizToYieldCodes(k - 254); RowsUbfizToYieldStrayBits(k - 254);
    RowsUbfizToYieldFullMasks(k - 254); RowsUbfizToYieldCondMasks(k - 254);
  }

  /** The row at position `k` satisfies `RowFacts`. */
  lemma {:induction false} RowAtFacts(k: nat)
    requires k < 269
    ensures RowFacts(RowAt(k), k)
  {
    if k < 10 {
      RowsAdcToAdrpAt(k);
    } else if k < 20 {
      RowsAndToBAt(k);
    } else if k < 33 {
      RowsBccToBicsAt(k);
    } else if k < 46 {
      RowsBlToBvsAt(k);
    } else if k < 57 {
      RowsCbnzToClzAt(k);
    } else if k < 70 {
      RowsCmnToCsnegAt(k);
    } else if k < 81 {
      RowsDcToEretAt(k);
    } else if k < 94 {
      RowsExtrToLdaxrhAt(k);
    } else if k < 107 {
      RowsLdnpToLdrAt(k);
    } else if k < 119 {
      RowsLdrbToLdrsbAt(k);
    } else if k < 128 {
      RowsLdrshToLdrswAt(k);
    } else if k < 141 {
      RowsLdtrToLdurswAt(k);
    } else if k < 151 {
      RowsLdxpToLsrvAt(k);
    } else if k < 164 {
      RowsMaddToMsrAt(k);
    } else if k < 175 {
      RowsMsubToOrrAt(k);
    } else if k < 188 {
      RowsPrfmToRorvAt(k);
    } else if k < 196 {
      RowsSbcToSevlAt(k);
    } else if k < 209 {
      RowsSmaddlToStlxrhAt(k);
    } else if k < 222 {
      RowsStnpToStrbAt(k);
    } else if k < 233 {
      RowsStrhToSturhAt(k);
    } else if k < 243 {
      RowsStxpToSubsAt(k);
    } else if k < 254 {
      RowsSvcToTstAt(k);
    } else {
      RowsUbfizToYieldAt(k);
    }
  }

  /** Every position carries the code numbered by that position. */
  lemma {:induction false} RowAtCodes()
    ensures forall k | 0 <= k < 269 :: RowAt(k).code == k
  {
    forall k | 0 <= k < 269
      ensures RowAt(k).code == k
    {
      RowAtFacts(k);
    }
  }

  /** Every row satisfies `RowFacts` at its own position. */
  lemma {:induction false} RowFactsHold(k: nat)
    requires k < |Rows()|
    ensures RowFacts(Rows()[k], k)
  {
    RowAtFacts(k);
  }
}
