# jnr-a64asm core in Dafny

This project models the declarative core of jnr-a64asm, a Java assembler for AArch64.
The core has three parts.

- **The instruction descriptor table** (`InstructionDescription`).
  - Each of 269 rows maps an instruction code to a 32-bit base opcode, a 32-bit operand mask and an encoding-group tag.
  - The table is filled by one `MAKE_INST` map insertion per row, in row order.
  - `find` looks a code up and fails with `IllegalArgumentException` when it has no row.
- **The operand factory** (`Asm`).
  - It holds register constants and the `_ptr_build` family, which builds memory operands anchored at a label, an absolute address or a base register, optionally with a scaled index.
  - The public `ptr`/`word_ptr`/`dword_ptr` builders fix the size tag.
  - `imm` and `uimm` build immediates.
- **The condition operand** (`Conditions`). It is an immutable wrapper around an `int`.

Modules:

- `Results`: Option and Result values.
- `Codes`: the instruction codes and group tags.
- `ArmConditions`: the sixteen A64 condition codes of section C1.2.4 of the Arm Architecture Reference Manual (DDI 0487), and which branch code names which condition.
- `Descriptors`: the descriptor value, the "a word fits a descriptor" relation, and `Inserted`, the map that a sequence of insertions builds.
- `DescriptorRows`: the row list, written out row by row, and the facts proved of every row.
- `InstructionDescription`: the table as a class.
  - A `map` field stands for the static `EnumMap`.
  - The constructor plays the static initialiser, calling `MakeInst` once per row.
  - `Find` is the partial lookup.
- `TableFacts`: what the built table answers:
  - alias rows;
  - conditional-branch encodings;
  - fully fixed encodings;
  - rows with opcode bits outside their mask;
  - group tags kept as written.
- `Operands`, `Asm`: the memory operand as a tagged union with one variant per anchor, and the builders.
- `ConditionOperand`: the `Conditions` operand.

Points about the code that the model keeps as written:

- **Opcode bits outside the mask.** The row list does not keep every opcode inside its mask: 27 rows set bits outside it. `DescriptorRows.InStrayBitList` lists their codes, and `TableFacts.StrayBitRows` proves that a row keeps its opcode inside its mask if and only if its code is not on that list.
- **Memory operand shapes.** The builders have three anchors, each with an optional index. Label and base-register operands come in three size families: `ptr` (no size), `word_ptr` (`SIZE_WORD`) and `dword_ptr` (`SIZE_DWORD`). Absolute operands come only as `word_ptr_abs` and `dword_ptr_abs`, both with an index.
- **Condition values.** The `Conditions` constructor accepts any `int`, not only the 16 condition codes.

## Model

| member | source | states |
|---|---|---|
| InstructionDescription.DescriptorTable.MakeInst | src/main/java/jnr/a64asm/InstructionDescription.java:42-53 | returns the descriptor with exactly the four given fields and stores it under its code; every other key keeps its presence and its entry; every entry stays under its own code |
| InstructionDescription.DescriptorTable.InsertAll | src/main/java/jnr/a64asm/InstructionDescription.java:65-336 | applying `MakeInst` to each row in order returns the rows and leaves the table equal to `Inserted(old table, rows)`; every entry stays under its own code |
| InstructionDescription.DescriptorTable.constructor | src/main/java/jnr/a64asm/InstructionDescription.java:39-40 | the static initialisation: from the empty map, inserting every row gives a table keyed by code, equal to `BuiltTable()`, with `all` equal to the row list |
| InstructionDescription.DescriptorTable.Find | src/main/java/jnr/a64asm/InstructionDescription.java:55-63 | succeeds exactly when the code has an entry and returns that entry, whose code field is the code asked for; otherwise fails with `NoDescription(code)` |
| InstructionDescription.BuiltTable | src/main/java/jnr/a64asm/InstructionDescription.java:39-46 | the map left by putting every row under its code is keyed by code: each entry's code field is its key |
| InstructionDescription.CodesDistinct | src/main/java/jnr/a64asm/InstructionDescription.java:67-335 | no code appears twice in the row list |
| InstructionDescription.BuiltTableKeys | src/main/java/jnr/a64asm/InstructionDescription.java:65-336 | the built table has an entry for exactly the codes of the rows |
| InstructionDescription.FindRow | src/main/java/jnr/a64asm/InstructionDescription.java:55-63 | after the build, `find` on a row's code returns exactly that row (opcode, mask and group) |
| InstructionDescription.FindUnknown | src/main/java/jnr/a64asm/InstructionDescription.java:57-60 | after the build, `find` on a code no row has fails with `NoDescription` |
| InstructionDescription.FindCode | src/main/java/jnr/a64asm/InstructionDescription.java:55-63 | after the build, `find` on the code of the row at position `c` returns that row |
| InstructionDescription.FoundHasRow | src/main/java/jnr/a64asm/InstructionDescription.java:55-63 | after the build, `find` succeeds if and only if the code is one of the row codes (equivalently, with codes numbered in row order, below 269) |
| Descriptors.InsertedKeys | src/main/java/jnr/a64asm/InstructionDescription.java:42-46 | repeated `table.put` adds exactly the inserted codes to the keys |
| Descriptors.InsertedLastWins | src/main/java/jnr/a64asm/InstructionDescription.java:42-46 | after repeated `table.put`, a key holds the row inserted for it when no later row reuses the key |
| Descriptors.InsertedUntouched | src/main/java/jnr/a64asm/InstructionDescription.java:42-46 | repeated `table.put` leaves a key that no row names as it was |
| Descriptors.InsertedKeyedByCode | src/main/java/jnr/a64asm/InstructionDescription.java:42-46 | when each descriptor is put under its own code, every entry's code field is its key |
| Descriptors.FitsFullMask | src/main/java/jnr/a64asm/InstructionDescription.java:34-37 | under the mask `0xffffffff` a word matches a descriptor if and only if it is the opcode |
| Descriptors.FitsWiderMask | src/main/java/jnr/a64asm/InstructionDescription.java:34-37 | with equal opcodes, a word that matches under a mask also matches under any mask with a subset of its bits |
| ArmConditions.EncodingRoundTrip | src/main/java/jnr/a64asm/InstructionDescription.java:87-111 | the four-bit condition encodings EQ=0 … NV=15 are a bijection with 0..15, in both directions |
| DescriptorRows.Rows | src/main/java/jnr/a64asm/InstructionDescription.java:65-336 | the 269 `MAKE_INST` rows with their code, opcode, mask and group, in source order; the row at position `k` carries the `k`-th code, so no code appears twice |
| DescriptorRows.RowAtFacts | src/main/java/jnr/a64asm/InstructionDescription.java:67-335 | the row at each position carries that position's code, and the stray-bit, fully-fixed and conditional-branch facts are exact for it |
| DescriptorRows.RowAtCodes | src/main/java/jnr/a64asm/InstructionDescription.java:67-335 | every position of the row list carries the code numbered by that position |
| DescriptorRows.RowFactsHold | src/main/java/jnr/a64asm/InstructionDescription.java:67-335 | every row's code is its own position, so codes are distinct. The stray-bit list, the fully-fixed list and the conditional-branch facts are exact for every row |
| DescriptorRows.RowsAdcToAdrpAt | src/main/java/jnr/a64asm/InstructionDescription.java:67-76 | the row facts hold for rows ADC … ADRP |
| DescriptorRows.RowsAndToBAt | src/main/java/jnr/a64asm/InstructionDescription.java:77-86 | the row facts hold for rows AND … B |
| DescriptorRows.RowsBccToBicsAt | src/main/java/jnr/a64asm/InstructionDescription.java:87-99 | the row facts hold for rows BCC … BICS |
| DescriptorRows.RowsBlToBvsAt | src/main/java/jnr/a64asm/InstructionDescription.java:100-112 | the row facts hold for rows BL … BVS |
| DescriptorRows.RowsCbnzToClzAt | src/main/java/jnr/a64asm/InstructionDescription.java:113-123 | the row facts hold for rows CBNZ … CLZ |
| DescriptorRows.RowsCmnToCsnegAt | src/main/java/jnr/a64asm/InstructionDescription.java:124-136 | the row facts hold for rows CMN … CSNEG |
| DescriptorRows.RowsDcToEretAt | src/main/java/jnr/a64asm/InstructionDescription.java:137-147 | the row facts hold for rows DC … ERET |
| DescriptorRows.RowsExtrToLdaxrhAt | src/main/java/jnr/a64asm/InstructionDescription.java:148-160 | the row facts hold for rows EXTR … LDAXRH |
| DescriptorRows.RowsLdnpToLdrAt | src/main/java/jnr/a64asm/InstructionDescription.java:161-173 | the row facts hold for rows LDNP … LDR |
| DescriptorRows.RowsLdrbToLdrsbAt | src/main/java/jnr/a64asm/InstructionDescription.java:174-185 | the row facts hold for rows LDRB … LDRSB |
| DescriptorRows.RowsLdrshToLdrswAt | src/main/java/jnr/a64asm/InstructionDescription.java:186-194 | the row facts hold for rows LDRSH … LDRSW |
| DescriptorRows.RowsLdtrToLdurswAt | src/main/java/jnr/a64asm/InstructionDescription.java:195-207 | the row facts hold for rows LDTR … LDURSW |
| DescriptorRows.RowsLdxpToLsrvAt | src/main/java/jnr/a64asm/InstructionDescription.java:208-217 | the row facts hold for rows LDXP … LSRV |
| DescriptorRows.RowsMaddToMsrAt | src/main/java/jnr/a64asm/InstructionDescription.java:218-230 | the row facts hold for rows MADD … MSR |
| DescriptorRows.RowsMsubToOrrAt | src/main/java/jnr/a64asm/InstructionDescription.java:231-241 | the row facts hold for rows MSUB … ORR |
| DescriptorRows.RowsPrfmToRorvAt | src/main/java/jnr/a64asm/InstructionDescription.java:242-254 | the row facts hold for rows PRFM … RORV |
| DescriptorRows.RowsSbcToSevlAt | src/main/java/jnr/a64asm/InstructionDescription.java:255-262 | the row facts hold for rows SBC … SEVL |
| DescriptorRows.RowsSmaddlToStlxrhAt | src/main/java/jnr/a64asm/InstructionDescription.java:263-275 | the row facts hold for rows SMADDL … STLXRH |
| DescriptorRows.RowsStnpToStrbAt | src/main/java/jnr/a64asm/InstructionDescription.java:276-288 | the row facts hold for rows STNP … STRB |
| DescriptorRows.RowsStrhToSturhAt | src/main/java/jnr/a64asm/InstructionDescription.java:289-299 | the row facts hold for rows STRH … STURH |
| DescriptorRows.RowsStxpToSubsAt | src/main/java/jnr/a64asm/InstructionDescription.java:300-309 | the row facts hold for rows STXP … SUBS |
| DescriptorRows.RowsSvcToTstAt | src/main/java/jnr/a64asm/InstructionDescription.java:310-320 | the row facts hold for rows SVC … TST |
| DescriptorRows.RowsUbfizToYieldAt | src/main/java/jnr/a64asm/InstructionDescription.java:321-335 | the row facts hold for rows UBFIZ … YIELD |
| TableFacts.ShiftAndBitfieldAliases | src/main/java/jnr/a64asm/InstructionDescription.java:82-92 | `find` returns equal (opcode, mask, group) for ASR and ASRV, and for BFI, BFXIL and BFM |
| TableFacts.BranchAliases | src/main/java/jnr/a64asm/InstructionDescription.java:87-102 | `find` returns equal triples for BLO and BCC, and for BHS and BCS |
| TableFacts.LogicalAndSelectAliases | src/main/java/jnr/a64asm/InstructionDescription.java:77-134 | `find` returns equal triples for AND and BIC (immediate), and for CINC and CSINC |
| TableFacts.MoveWideAliases | src/main/java/jnr/a64asm/InstructionDescription.java:223-227 | `find` returns equal triples for MOV (wide) and MOVN, and for MOV_X and MOVZ |
| TableFacts.SystemAliases | src/main/java/jnr/a64asm/InstructionDescription.java:84-318 | `find` returns for AT, DC, IC and TLBI the same triple as for SYS |
| TableFacts.SelectAliases | src/main/java/jnr/a64asm/InstructionDescription.java:120-136 | `find` returns equal triples for CINV and CSINV, and for CNEG and CSNEG |
| TableFacts.ShiftAliases | src/main/java/jnr/a64asm/InstructionDescription.java:148-254 | `find` returns equal triples for LSL/LSLV, LSR/LSRV, ROR/RORV (registers) and for ROR (immediate)/EXTR |
| TableFacts.BitfieldMoveAliases | src/main/java/jnr/a64asm/InstructionDescription.java:81-323 | `find` returns the SBFM triple for ASR (immediate), SBFIZ and SBFX, and the UBFM triple for LSL and LSR (immediate), UBFIZ and UBFX |
| TableFacts.ConditionalBranchEncoding | src/main/java/jnr/a64asm/InstructionDescription.java:87-111 | every B<cond> row is found with mask `0xff00001f`, upper bits `0x54000000` and bits 3:0 equal to the architectural code of its condition (BHS as CS, BLO as CC), in group `condbranch` |
| TableFacts.ConditionalBranchesDistinct | src/main/java/jnr/a64asm/InstructionDescription.java:87-111 | two conditional branches are found with the same opcode if and only if they name the same condition, so among the B<cond> rows only the HS/LO aliases repeat an opcode |
| TableFacts.ConditionalBranchMasks | src/main/java/jnr/a64asm/InstructionDescription.java:67-335 | a found row has mask `0xff00001f` if and only if its code is a conditional branch |
| TableFacts.FullyFixedRows | src/main/java/jnr/a64asm/InstructionDescription.java:67-335 | a found row has mask `0xffffffff` if and only if it is DRPS, ERET, NOP, SEV, SEVL, WFE, WFI or YIELD |
| TableFacts.FullyFixedHaveNoOperandBits | src/main/java/jnr/a64asm/InstructionDescription.java:142-335 | for those eight rows, the only word that matches under the mask is the opcode itself |
| TableFacts.StrayBitRows | src/main/java/jnr/a64asm/InstructionDescription.java:67-335 | `opcode & ~mask == 0` holds for a found row if and only if its code is not one of the 27 listed stray-bit codes |
| TableFacts.StrayBitExamples | src/main/java/jnr/a64asm/InstructionDescription.java:67-332 | the bits left outside the mask are 0 for ADC; `0x001f7c00` for LDAR and LDAXRH; `0x3e0` for the add-immediate MOV; `0x80000000` for 64-bit REV; `0x80407c00` for UXTW |
| TableFacts.HintAndNop | src/main/java/jnr/a64asm/InstructionDescription.java:149-238 | HINT and NOP are found with the same opcode `0xd503201f` and masks `0xfffff01f` and `0xffffffff`; every word matching NOP also matches HINT |
| TableFacts.OddGroupTags | src/main/java/jnr/a64asm/InstructionDescription.java:85-332 | the odd group tags are kept as written: B is `condbranch`, B.cond (line 86) is `branch_imm`, the MOV rows carry each other's tags, and UXTW is `bitfield` |
| Operands.Parts | src/main/java/jnr/a64asm/Asm.java:81-104 | the anchor of a memory operand's parts is a label, an absolute target or a base register exactly when the operand is of that variant |
| Operands.WithSize | src/main/java/jnr/a64asm/Asm.java:110-198 | replacing the size tag keeps anchor, index, shift and displacement |
| Operands.PartsRoundTrip | src/main/java/jnr/a64asm/Asm.java:81-104 | a memory operand and its parts determine each other, in both directions |
| Asm.SpecialRegisters | src/main/java/jnr/a64asm/Asm.java:37-61 | `no_reg` is `Register(NO_REG, 0)`; `fp`, `lr`, `sp` are `gpr` of X29, X30, X31, and, taking those `REG` codes to be distinct, pairwise distinct and different from `no_reg` |
| Asm.PtrBuildLabel | src/main/java/jnr/a64asm/Asm.java:81-83 | builds a label-anchored operand with no index, carrying disp and size unchanged |
| Asm.PtrBuildLabelIndexed | src/main/java/jnr/a64asm/Asm.java:85-87 | builds a label-anchored operand with the given index and shift, carrying disp and size unchanged |
| Asm.PtrBuildAbs | src/main/java/jnr/a64asm/Asm.java:89-92 | builds an absolute-anchored operand with no index, carrying target, disp and size unchanged |
| Asm.PtrBuildAbsIndexed | src/main/java/jnr/a64asm/Asm.java:94-96 | builds an absolute-anchored operand with the given index and shift, carrying target, disp and size unchanged |
| Asm.PtrBuildBase | src/main/java/jnr/a64asm/Asm.java:98-100 | builds a base-anchored operand with no index, carrying base, disp and size unchanged |
| Asm.PtrBuildBaseIndexed | src/main/java/jnr/a64asm/Asm.java:102-104 | builds a base-anchored operand with the given index and shift, carrying base, disp and size unchanged |
| Asm.PtrLabel | src/main/java/jnr/a64asm/Asm.java:111-113 | `ptr(label, disp)`: label anchor, no index, the given disp, unspecified size |
| Asm.PtrLabelOnly | src/main/java/jnr/a64asm/Asm.java:116-118 | `ptr(label)`: label anchor, no index, disp 0, unspecified size |
| Asm.WordPtrLabel | src/main/java/jnr/a64asm/Asm.java:121-123 | `word_ptr(label, disp)`: label anchor, no index, the given disp, `SIZE_WORD` |
| Asm.WordPtrLabelOnly | src/main/java/jnr/a64asm/Asm.java:126-128 | `word_ptr(label)`: label anchor, no index, disp 0, `SIZE_WORD` |
| Asm.DwordPtrLabel | src/main/java/jnr/a64asm/Asm.java:131-133 | `dword_ptr(label, disp)`: label anchor, no index, the given disp, `SIZE_DWORD` |
| Asm.DwordPtrLabelOnly | src/main/java/jnr/a64asm/Asm.java:136-138 | `dword_ptr(label)`: label anchor, no index, disp 0, `SIZE_DWORD` |
| Asm.PtrLabelIndexed | src/main/java/jnr/a64asm/Asm.java:141-143 | label anchor with the given index, shift and disp, unspecified size |
| Asm.WordPtrLabelIndexed | src/main/java/jnr/a64asm/Asm.java:146-148 | label anchor with the given index, shift and disp, `SIZE_WORD` |
| Asm.DwordPtrLabelIndexed | src/main/java/jnr/a64asm/Asm.java:151-153 | label anchor with the given index, shift and disp, `SIZE_DWORD` |
| Asm.WordPtrAbs | src/main/java/jnr/a64asm/Asm.java:155-157 | absolute anchor with the given target, index, shift and disp, `SIZE_WORD` |
| Asm.DwordPtrAbs | src/main/java/jnr/a64asm/Asm.java:159-161 | absolute anchor with the given target, index, shift and disp, `SIZE_DWORD` |
| Asm.PtrBase | src/main/java/jnr/a64asm/Asm.java:167-169 | base anchor, no index, the given disp, unspecified size |
| Asm.WordPtrBase | src/main/java/jnr/a64asm/Asm.java:172-174 | base anchor, no index, the given disp, `SIZE_WORD` |
| Asm.DwordPtrBase | src/main/java/jnr/a64asm/Asm.java:177-179 | base anchor, no index, the given disp, `SIZE_DWORD` |
| Asm.PtrBaseIndexed | src/main/java/jnr/a64asm/Asm.java:186-188 | base anchor with the given index, shift and disp, unspecified size |
| Asm.WordPtrBaseIndexed | src/main/java/jnr/a64asm/Asm.java:191-193 | base anchor with the given index, shift and disp, `SIZE_WORD` |
| Asm.DwordPtrBaseIndexed | src/main/java/jnr/a64asm/Asm.java:196-198 | base anchor with the given index, shift and disp, `SIZE_DWORD` |
| Asm.Imm | src/main/java/jnr/a64asm/Asm.java:200-202 | the immediate carries the given `long` unchanged |
| Asm.Uimm | src/main/java/jnr/a64asm/Asm.java:204-206 | the immediate carries the given `long` unchanged |
| Asm.NoDisplacementOverloads | src/main/java/jnr/a64asm/Asm.java:111-138 | `ptr(label)`, `word_ptr(label)` and `dword_ptr(label)` equal their displacement overloads called with disp 0 |
| Asm.FamiliesDifferOnlyInSize | src/main/java/jnr/a64asm/Asm.java:110-198 | for the label and base-register shapes, with and without an index, `ptr` gives the unspecified size and `word_ptr`/`dword_ptr` give the same operand with `SIZE_WORD`/`SIZE_DWORD`; for the absolute shape, `dword_ptr_abs` is `word_ptr_abs` with `SIZE_DWORD` |
| Asm.LabelBuildersKeepArguments | src/main/java/jnr/a64asm/Asm.java:111-153 | each of the nine label builders gives equal operands if and only if it was given equal arguments, so no shift or disp is checked, clamped or dropped |
| Asm.AbsBuildersKeepArguments | src/main/java/jnr/a64asm/Asm.java:155-161 | `word_ptr_abs` and `dword_ptr_abs` give equal operands if and only if they were given equal target, index, shift and disp |
| Asm.BaseBuildersKeepArguments | src/main/java/jnr/a64asm/Asm.java:167-198 | each of the six base-register builders gives equal operands if and only if it was given equal arguments |
| Asm.ImmIsUimm | src/main/java/jnr/a64asm/Asm.java:200-206 | `imm(v)` and `uimm(v)` build the same immediate |
| ConditionOperand.NewConditions | src/main/java/jnr/a64asm/Conditions.java:26-29 | a `Conditions` has kind `OP_COND`, size 0 and the given value, for any `int` |
| ConditionOperand.AlwaysConditionOperand | src/main/java/jnr/a64asm/Conditions.java:26-29 | every `Conditions` is an operand of kind `OP_COND` with size 0, whatever it wraps |
| ConditionOperand.Value | src/main/java/jnr/a64asm/Conditions.java:31-33 | `value()` is the stored `int` widened to `long`, so it lies in the `int` range |
| ConditionOperand.ValueRoundTrip | src/main/java/jnr/a64asm/Conditions.java:26-33 | `value()` returns exactly what was passed to the constructor |
| ConditionOperand.OutOfRangeAccepted | src/main/java/jnr/a64asm/Conditions.java:26-29 | values outside 0..15 (-1, 16, `0x7fffffff`) are accepted and returned |
| ConditionOperand.ValueDeterminesCondition | src/main/java/jnr/a64asm/Conditions.java:24-33 | two conditions are equal, and answer equal values, if and only if they were built from equal values |

## Left out

- The per-group bit-packing encoders, the label and relocation resolver, and the classes `Register`, `Mem`, `Immediate`, `Label`, `Operand`, `INST_CODE`, `InstructionGroup`, `REG`, `SIZE` and `CPU_A64` are not part of this model. They appear only as values carrying the fields that `Asm`, `InstructionDescription` and `Conditions` pass to them.
  - `Register` stands for `gpr` results and `Register(code, size)`.
  - Nothing is assumed about their validation or the numbers behind their constants; the only assumption is the one named on the `Asm.SpecialRegisters` line below.
- Instruction codes are natural numbers named after the Java enum constants, numbered in row order. The numbers are not the Java ordinals, and codes outside the row list stand for enum constants without a row.
- `EnumMap` internals and the JVM's static initialisation order: the table is a Dafny `map` filled in row order by the constructor, which plays the static initialiser.
- The exception message text of `find`: the error carries only the code.
- The non-indexed absolute builder `_ptr_build_abs(target, disp, size)` (modelled as `Asm.PtrBuildAbs`) has no public caller in `Asm`, so there is no `ptr_abs` without an index. `Asm` has no unspecified-size absolute builder at all: only `word_ptr_abs` and `dword_ptr_abs`, both with an index.
- The byte counts in the builders' doc comments are inconsistent and are not modelled; sizes are only the tags `0`, `SIZE_WORD` and `SIZE_DWORD`.
- `x0`…`x7` and `w0`…`w15` are modelled as constants without a lemma of their own; they are `gpr` registers of the named codes.
- `CPU_A64 Aarch_64` and the private `Asm()` constructor carry no behaviour and are left out.
- `Asm.PtrBuildLabel` and the other `_ptr_build*` functions accept only the three size tags `0`, `SIZE_WORD` and `SIZE_DWORD`, while the package-private Java methods take any `int ptrSize`; only those three reach them from the public builders.
- Asm.SpecialRegisters: the model takes `NO_REG`, `REG_X29`, `REG_X30` and `REG_X31` to be distinct codes, and represents the results of `Register.gpr` by a constructor of their own, distinct from `new Register(code, size)`. Neither `REG` nor `Register` is part of this model, so the distinctness of `fp`, `lr`, `sp` and `no_reg` rests on these choices.
- InstructionDescription.DescriptorTable.MakeInst, InstructionDescription.DescriptorTable.InsertAll: they stay callable on a built table, while in Java `table` and `MAKE_INST` are private, so the table is sealed once the static initialiser has run. The model carries that sealed state as the precondition `t.table == BuiltTable()` of every lookup fact instead.
- The `all` array is held as the row sequence; Java array identity is not modelled.
