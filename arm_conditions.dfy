/** Condition codes of the AArch64 conditional branch `B.cond`.

    The sixteen conditions and their 4-bit encodings are those of section C1.2.4
    ("Condition code") of the Arm Architecture Reference Manual for A-profile
    architecture. HS is another name for CS and LO another name for CC. */
module ArmConditions {
  import opened Codes
  import opened Results

  datatype Cond = EQ | NE | CS | CC | MI | PL | VS | VC | HI | LS | GE | LT | GT | LE | AL | NV

  /** The 4-bit field `cond` that selects `c`. */
  function Encoding(c: Cond): (r: bv32)
    ensures r < 16
  {
    match c
    case EQ => 0  case NE => 1  case CS => 2  case CC => 3
    case MI => 4  case PL => 5  case VS => 6  case VC => 7
    case HI => 8  case LS => 9  case GE => 10 case LT => 11
    case GT => 12 case LE => 13 case AL => 14 case NV => 15
  }

  /** The condition selected by a 4-bit field. */
  function Decoding(n: bv32): (c: Cond)
    requires n < 16
  {
    if n == 0 then EQ else if n == 1 then NE else if n == 2 then CS else if n == 3 then CC
    else if n == 4 then MI else if n == 5 then PL else if n == 6 then VS else if n == 7 then VC
    else if n == 8 then HI else if n == 9 then LS else if n == 10 then GE else if n == 11 then LT
    else if n == 12 then GT else if n == 13 then LE else if n == 14 then AL else NV
  }

  /** Encoding and decoding are inverse bijections between conditions and 4-bit fields. */
  lemma EncodingRoundTrip(c: Cond, n: bv32)
    ensures Decoding(Encoding(c)) == c
    ensures n < 16 ==> Encoding(Decoding(n)) == n
  {
  }

  /** The condition a conditional-branch instruction code names (`B<cond>` in the
      descriptor table), or `None` for every other code. */
  function BranchCondition(code: InstCode): (r: Option<Cond>)
  {
    if code == INST_BEQ_CONDBRANCH then Some(EQ)
    else if code == INST_BNE_CONDBRANCH then Some(NE)
    else if code == INST_BCS_CONDBRANCH || code == INST_BHS_CONDBRANCH then Some(CS)
    else if code == INST_BCC_CONDBRANCH || code == INST_BLO_CONDBRANCH then Some(CC)
    else if code == INST_BMI_CONDBRANCH then Some(MI)
    else if code == INST_BPL_CONDBRANCH then Some(PL)
    else if code == INST_BVS_CONDBRANCH then Some(VS)
    else if code == INST_BVC_CONDBRANCH then Some(VC)
    else if code == INST_BHI_CONDBRANCH then Some(HI)
    else if code == INST_BLS_CONDBRANCH then Some(LS)
    else if code == INST_BGE_CONDBRANCH then Some(GE)
    else if code == INST_BLT_CONDBRANCH then Some(LT)
    else if code == INST_BGT_CONDBRANCH then Some(GT)
    else if code == INST_BLE_CONDBRANCH then Some(LE)
    else None
  }
}
