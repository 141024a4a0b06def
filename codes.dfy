/** Instruction codes and encoding-group tags named by the descriptor table.

    `INST_CODE` and `InstructionGroup` are Java enums whose declarations are not part of
    this model. Only the identity of their constants matters to the table: an instruction
    code is modelled as a number, each named code below gets its own number (the position
    of its row in the row list, not the enum's ordinal). The row list states that row `k`
    carries code `k`, and a few lookup lemmas use that numbering to name a code's row by
    its position; the facts about the table itself need only that the numbers are
    distinct. Numbers without a name stand for codes that have no row. */
module Codes {

  /** An `INST_CODE` constant. */
  type InstCode = nat

  const INST_ADC_ADDSUB_CARRY: InstCode := 0
  const INST_ADCS_ADDSUB_CARRY: InstCode := 1
  const INST_ADD_ADDSUB_IMM: InstCode := 2
  const INST_ADD_ADDSUB_SHIFT: InstCode := 3
  const INST_ADDS_ADDSUB_IMM: InstCode := 4
  const INST_ADD_EXT_ADDSUB_EXT: InstCode := 5
  const INST_ADDS_ADDSUB_EXT: InstCode := 6
  const INST_ADDS_ADDSUB_SHIFT: InstCode := 7
  const INST_ADR_PCRELADDR: InstCode := 8
  const INST_ADRP_PCRELADDR: InstCode := 9
  const INST_AND_LOG_IMM: InstCode := 10
  const INST_AND_LOG_SHIFT: InstCode := 11
  const INST_ANDS_LOG_IMM: InstCode := 12
  const INST_ANDS_LOG_SHIFT: InstCode := 13
  const INST_ASR_BITFIELD: InstCode := 14
  const INST_ASR_DP_2SRC: InstCode := 15
  const INST_ASRV_DP_2SRC: InstCode := 16
  const INST_AT_IC_SYSTEM: InstCode := 17
  const INST_B_C_CONDBRANCH: InstCode := 18
  const INST_B_BRANCH_IMM: InstCode := 19
  const INST_BCC_CONDBRANCH: InstCode := 20
  const INST_BCS_CONDBRANCH: InstCode := 21
  const INST_BEQ_CONDBRANCH: InstCode := 22
  const INST_BFI_BITFIELD: InstCode := 23
  const INST_BFM_BITFIELD: InstCode := 24
  const INST_BFXIL_BITFIELD: InstCode := 25
  const INST_BGE_CONDBRANCH: InstCode := 26
  const INST_BGT_CONDBRANCH: InstCode := 27
  const INST_BHI_CONDBRANCH: InstCode := 28
  const INST_BHS_CONDBRANCH: InstCode := 29
  const INST_BIC_LOG_IMM: InstCode := 30
  const INST_BIC_LOG_SHIFT: InstCode := 31
  const INST_BICS_LOG_SHIFT: InstCode := 32
  const INST_BL_BRANCH_IMM: InstCode := 33
  const INST_BLE_CONDBRANCH: InstCode := 34
  const INST_BLO_CONDBRANCH: InstCode := 35
  const INST_BLR_BRANCH_REG: InstCode := 36
  const INST_BLS_CONDBRANCH: InstCode := 37
  const INST_BLT_CONDBRANCH: InstCode := 38
  const INST_BMI_CONDBRANCH: InstCode := 39
  const INST_BNE_CONDBRANCH: InstCode := 40
  const INST_BPL_CONDBRANCH: InstCode := 41
  const INST_BR_BRANCH_REG: InstCode := 42
  const INST_BRK_EXCEPTION: InstCode := 43
  const INST_BVC_CONDBRANCH: InstCode := 44
  const INST_BVS_CONDBRANCH: InstCode := 45
  const INST_CBNZ_COMPBRANCH: InstCode := 46
  const INST_CBZ_COMPBRANCH: InstCode := 47
  const INST_CCMN_CONDCMP_IMM: InstCode := 48
  const INST_CCMN_CONDCMP_REG: InstCode := 49
  const INST_CCMP_CONDCMP_IMM: InstCode := 50
  const INST_CCMP_CONDCMP_REG: InstCode := 51
  const INST_CINC_CONDSEL: InstCode := 52
  const INST_CINV_CONDSEL: InstCode := 53
  const INST_CLREX_IC_SYSTEM: InstCode := 54
  const INST_CLS_DP_1SRC: InstCode := 55
  const INST_CLZ_DP_1SRC: InstCode := 56
  const INST_CMN_ADDSUB_EXT: InstCode := 57
  const INST_CMN_ADDSUB_IMM: InstCode := 58
  const INST_CMN_ADDSUB_SHIFT: InstCode := 59
  const INST_CMP_ADDSUB_EXT: InstCode := 60
  const INST_CMP_ADDSUB_IMM: InstCode := 61
  const INST_CMP_ADDSUB_SHIFT: InstCode := 62
  const INST_CNEG_CONDSEL: InstCode := 63
  const INST_CSEL_CONDSEL: InstCode := 64
  const INST_CSET_CONDSEL: InstCode := 65
  const INST_CSETM_CONDSEL: InstCode := 66
  const INST_CSINC_CONDSEL: InstCode := 67
  const INST_CSINV_CONDSEL: InstCode := 68
  const INST_CSNEG_CONDSEL: InstCode := 69
  const INST_DC_IC_SYSTEM: InstCode := 70
  const INST_DCPS1_EXCEPTION: InstCode := 71
  const INST_DCPS2_EXCEPTION: InstCode := 72
  const INST_DCPS3_EXCEPTION: InstCode := 73
  const INST_DMB_IC_SYSTEM: InstCode := 74
  const INST_DRPS_BRANCH_REG: InstCode := 75
  const INST_DSB_IC_SYSTEM: InstCode := 76
  const INST_EON_LOG_SHIFT: InstCode := 77
  const INST_EOR_LOG_IMM: InstCode := 78
  const INST_EOR_LOG_SHIFT: InstCode := 79
  const INST_ERET_BRANCH_REG: InstCode := 80
  const INST_EXTR_EXTRACT: InstCode := 81
  const INST_HINT_IC_SYSTEM: InstCode := 82
  const INST_HLT_EXCEPTION: InstCode := 83
  const INST_HVC_EXCEPTION: InstCode := 84
  const INST_IC_IC_SYSTEM: InstCode := 85
  const INST_ISB_IC_SYSTEM: InstCode := 86
  const INST_LDAR_LDSTEXCL: InstCode := 87
  const INST_LDARB_LDSTEXCL: InstCode := 88
  const INST_LDARH_LDSTEXCL: InstCode := 89
  const INST_LDAXP_LDSTEXCL: InstCode := 90
  const INST_LDAXR_LDSTEXCL: InstCode := 91
  const INST_LDAXRB_LDSTEXCL: InstCode := 92
  const INST_LDAXRH_LDSTEXCL: InstCode := 93
  const INST_LDNP_LDSTNAPAIR_OFFS: InstCode := 94
  const INST_LDNP_LDSTNAPAIR_OFFS_V: InstCode := 95
  const INST_LDP_POST_INDEXED_IDST_IMM9: InstCode := 96
  const INST_LDP_PRE_INDEXED_IDST_IMM9: InstCode := 97
  const INST_LDP_LDSTPAIR_OFF_LDST_POS: InstCode := 98
  const INST_LDPSW_POST_INDEXED: InstCode := 99
  const INST_LDPSW_PRE_INDEXED: InstCode := 100
  const INST_LDPSW_OFF: InstCode := 101
  const INST_LDR_IMM_POST: InstCode := 102
  const INST_LDR_IMM_PRE: InstCode := 103
  const INST_LDR_IMM_OFF: InstCode := 104
  const INST_LDR_REG: InstCode := 105
  const INST_LDR_LOADLIT: InstCode := 106
  const INST_LDRB_IMM_POST: InstCode := 107
  const INST_LDRB_IMM_PRE: InstCode := 108
  const INST_LDRB_IMM_OFF: InstCode := 109
  const INST_LDRB_REG: InstCode := 110
  const INST_LDRH_IMM_POST: InstCode := 111
  const INST_LDRH_IMM_PRE: InstCode := 112
  const INST_LDRH_IMM_OFF: InstCode := 113
  const INST_LDRH_REG: InstCode := 114
  const INST_LDRSB_IMM_POST: InstCode := 115
  const INST_LDRSB_IMM_PRE: InstCode := 116
  const INST_LDRSB_IMM_OFF: InstCode := 117
  const INST_LDRSB_REG: InstCode := 118
  const INST_LDRSH_IMM_POST: InstCode := 119
  const INST_LDRSH_IMM_PRE: InstCode := 120
  const INST_LDRSH_IMM_OFF: InstCode := 121
  const INST_LDRSH_REG: InstCode := 122
  const INST_LDRSW_IMM_POST: InstCode := 123
  const INST_LDRSW_IMM_PRE: InstCode := 124
  const INST_LDRSW_IMM_OFF: InstCode := 125
  const INST_LDRSW_REG: InstCode := 126
  const INST_LDRSW_LOADLIT: InstCode := 127
  const INST_LDTR_LDST_UNPRIV: InstCode := 128
  const INST_LDTRB_LDST_UNPRIV: InstCode := 129
  const INST_LDTRH_LDST_UNPRIV: InstCode := 130
  const INST_LDTRSB_LDST_UNPRIV: InstCode := 131
  const INST_LDTRSH_LDST_UNPRIV: InstCode := 132
  const INST_LDTRSW_LDST_UNPRIV: InstCode := 133
  const INST_LDUR_LDST_UNSCALED: InstCode := 134
  const INST_LDUR_LDST_UNSCALED_X: InstCode := 135
  const INST_LDURB_LDST_UNSCALED: InstCode := 136
  const INST_LDURH_LDST_UNSCALED: InstCode := 137
  const INST_LDURSB_LDST_UNSCALED: InstCode := 138
  const INST_LDURSH_LDST_UNSCALED: InstCode := 139
  const INST_LDURSW_LDST_UNSCALED: InstCode := 140
  const INST_LDXP_LDSTEXCL: InstCode := 141
  const INST_LDXR_LDSTEXCL: InstCode := 142
  const INST_LDXRB_LDSTEXCL: InstCode := 143
  const INST_LDXRH_LDSTEXCL: InstCode := 144
  const INST_LSL_BITFIELD: InstCode := 145
  const INST_LSL_DP_2SRC: InstCode := 146
  const INST_LSLV_DP_2SRC: InstCode := 147
  const INST_LSR_BITFIELD: InstCode := 148
  const INST_LSR_DP_2SRC: InstCode := 149
  const INST_LSRV_DP_2SRC: InstCode := 150
  const INST_MADD_DP_3SRC: InstCode := 151
  const INST_MNEG_DP_3SRC: InstCode := 152
  const INST_MOV_ADDSUB_IMM: InstCode := 153
  const INST_MOV_LOG_IMM: InstCode := 154
  const INST_MOV_LOG_SHIFT: InstCode := 155
  const INST_MOV_MOVEWIDE: InstCode := 156
  const INST_MOV_MOVEWIDE_X: InstCode := 157
  const INST_MOVK_MOVEWIDE: InstCode := 158
  const INST_MOVN_MOVEWIDE: InstCode := 159
  const INST_MOVZ_MOVEWIDE: InstCode := 160
  const INST_MRS_IC_SYSTEM: InstCode := 161
  const INST_MSR_IC_SYSTEM: InstCode := 162
  const INST_MSR_IC_SYSTEM_X: InstCode := 163
  const INST_MSUB_DP_3SRC: InstCode := 164
  const INST_MUL_DP_3SRC: InstCode := 165
  const INST_MVN_LOG_SHIFT: InstCode := 166
  const INST_NEG_ADDSUB_SHIFT: InstCode := 167
  const INST_NEGS_ADDSUB_SHIFT: InstCode := 168
  const INST_NGC_ADDSUB_CARRY: InstCode := 169
  const INST_NGCS_ADDSUB_CARRY: InstCode := 170
  const INST_NOP_IC_SYSTEM: InstCode := 171
  const INST_ORN_LOG_SHIFT: InstCode := 172
  const INST_ORR_LOG_IMM: InstCode := 173
  const INST_ORR_LOG_SHIFT: InstCode := 174
  const INST_PRFM_LDST_POS__IMMEDIATE: InstCode := 175
  const INST_PRFM_LDST_REGOFF__REGISTER: InstCode := 176
  const INST_PRFM_LOADLIT__LITERAL: InstCode := 177
  const INST_PRFUM_LDST_UNSCALED: InstCode := 178
  const INST_RBIT_DP_1SRC: InstCode := 179
  const INST_RET_BRANCH_REG: InstCode := 180
  const INST_REV_DP_1SRC: InstCode := 181
  const INST_REV_DP_1SRC_X: InstCode := 182
  const INST_REV16_DP_1SRC: InstCode := 183
  const INST_REV32_DP_1SRC: InstCode := 184
  const INST_ROR_DP_2SRC: InstCode := 185
  const INST_ROR_EXTRACT: InstCode := 186
  const INST_RORV_DP_2SRC: InstCode := 187
  const INST_SBC_ADDSUB_CARRY: InstCode := 188
  const INST_SBCS_ADDSUB_CARRY: InstCode := 189
  const INST_SBFIZ_BITFIELD: InstCode := 190
  const INST_SBFM_BITFIELD: InstCode := 191
  const INST_SBFX_BITFIELD: InstCode := 192
  const INST_SDIV_DP_2SRC: InstCode := 193
  const INST_SEV_IC_SYSTEM: InstCode := 194
  const INST_SEVL_IC_SYSTEM: InstCode := 195
  const INST_SMADDL_DP_3SRC: InstCode := 196
  const INST_SMC_EXCEPTION: InstCode := 197
  const INST_SMNEGL_DP_3SRC: InstCode := 198
  const INST_SMSUBL_DP_3SRC: InstCode := 199
  const INST_SMULH_DP_3SRC: InstCode := 200
  const INST_SMULL_DP_3SRC: InstCode := 201
  const INST_STLR_LDSTEXCL: InstCode := 202
  const INST_STLRB_LDSTEXCL: InstCode := 203
  const INST_STLRH_LDSTEXCL: InstCode := 204
  const INST_STLXP_LDSTEXCL: InstCode := 205
  const INST_STLXR_LDSTEXCL: InstCode := 206
  const INST_STLXRB_LDSTEXCL: InstCode := 207
  const INST_STLXRH_LDSTEXCL: InstCode := 208
  const INST_STNP_LDSTNAPAIR_OFFS: InstCode := 209
  const INST_STNP_LDSTNAPAIR_OFFS_X: InstCode := 210
  const INST_STP_LDSTPAIR_INDEXED_POST: InstCode := 211
  const INST_STP_LDSTPAIR_INDEXED_PRE: InstCode := 212
  const INST_STP_LDSTPAIR_OFF: InstCode := 213
  const INST_STR_LDST_IMM9_PRE: InstCode := 214
  const INST_STR_LDST_IMM9_POST: InstCode := 215
  const INST_STR_LDST_POS: InstCode := 216
  const INST_STR_LDST_REGOFF: InstCode := 217
  const INST_STRB_LDST_IMM9_POST: InstCode := 218
  const INST_STRB_LDST_OFFSET: InstCode := 219
  const INST_STRB_LDST_REGOFF: InstCode := 220
  const INST_STRB_LDST_PRE: InstCode := 221
  const INST_STRH_LDST_IMM_PRE: InstCode := 222
  const INST_STRH_LDST_IMM_POST: InstCode := 223
  const INST_STRH_LDST_IMM_OFF: InstCode := 224
  const INST_STRH_LDST_REGOFF: InstCode := 225
  const INST_STTR_LDST_UNPRIV: InstCode := 226
  const INST_STTRB_LDST_UNPRIV: InstCode := 227
  const INST_STTRH_LDST_UNPRIV: InstCode := 228
  const INST_STUR_LDST_UNSCALED: InstCode := 229
  const INST_STUR_LDST_UNSCALED_X: InstCode := 230
  const INST_STURB_LDST_UNSCALED: InstCode := 231
  const INST_STURH_LDST_UNSCALED: InstCode := 232
  const INST_STXP_LDSTEXCL: InstCode := 233
  const INST_STXR_LDSTEXCL: InstCode := 234
  const INST_STXRB_LDSTEXCL: InstCode := 235
  const INST_STXRH_LDSTEXCL: InstCode := 236
  const INST_SUB_ADDSUB_EXT: InstCode := 237
  const INST_SUB_ADDSUB_IMM: InstCode := 238
  const INST_SUB_ADDSUB_SHIFT: InstCode := 239
  const INST_SUBS_ADDSUB_EXT: InstCode := 240
  const INST_SUBS_ADDSUB_IMM: InstCode := 241
  const INST_SUBS_ADDSUB_SHIFT: InstCode := 242
  const INST_SVC_EXCEPTION: InstCode := 243
  const INST_SXTB_BITFIELD: InstCode := 244
  const INST_SXTH_BITFIELD: InstCode := 245
  const INST_SXTW_BITFIELD: InstCode := 246
  const INST_SYS_IC_SYSTEM: InstCode := 247
  const INST_SYSL_IC_SYSTEM: InstCode := 248
  const INST_TBNZ_TESTBRANCH: InstCode := 249
  const INST_TBZ_TESTBRANCH: InstCode := 250
  const INST_TLBI_IC_SYSTEM: InstCode := 251
  const INST_TST_LOG_IMM: InstCode := 252
  const INST_TST_LOG_SHIFT: InstCode := 253
  const INST_UBFIZ_BITFIELD: InstCode := 254
  const INST_UBFM_BITFIELD: InstCode := 255
  const INST_UBFX_BITFIELD: InstCode := 256
  const INST_UDIV_DP_2SRC: InstCode := 257
  const INST_UMADDL_DP_3SRC: InstCode := 258
  const INST_UMNEGL_DP_3SRC: InstCode := 259
  const INST_UMSUBL_DP_3SRC: InstCode := 260
  const INST_UMULH_DP_3SRC: InstCode := 261
  const INST_UMULL_DP_3SRC: InstCode := 262
  const INST_UXTB_BITFIELD: InstCode := 263
  const INST_UXTH_BITFIELD: InstCode := 264
  const INST_UXTW_LOG_SHIFT: InstCode := 265
  const INST_WFE_IC_SYSTEM: InstCode := 266
  const INST_WFI_IC_SYSTEM: InstCode := 267
  const INST_YIELD_IC_SYSTEM: InstCode := 268

  /** An `InstructionGroup` constant: the encoding family a row is dispatched to.
      Only the tags that the row list uses are listed; they keep the source's names. */
  datatype InstructionGroup =
    | addsub_carry
    | addsub_imm
    | addsub_shift
    | addsub_ext
    | pcreladdr
    | log_imm
    | log_shift
    | bitfield
    | dp_2src
    | ic_system
    | condbranch
    | branch_imm
    | branch_reg
    | exception
    | compbranch
    | condcmp_imm
    | condcmp_reg
    | condsel
    | dp_1src
    | extract
    | ldstexcl
    | ldstexcl_op3
    | ldstnapair_offs
    | ldst_imm9_2reg
    | ldst_pos_2reg
    | ldstpair_indexed
    | ldstpair_off
    | ldst_imm9
    | ldst_pos
    | ldst_regoff
    | loadlit
    | ldst_unpriv
    | ldst_unscaled
    | dp_3src
    | movewide
    | ldstexcl_op4
    | testbranch
}
