# A verified model of the MartyPC 8088 execute step and its debug views

MartyPC emulates the IBM PC and its Intel 8088 CPU. This project models, in Dafny, the
part of the emulator that carries out one decoded instruction (`Cpu::execute_instruction`),
and the three debug-display pieces that age syntax tokens between frames: the token list
view, the PIT viewer, and the syntax token type they share.

The execute step is modelled in two forms:

- The function `CpuExecute.Execute` gives the whole step as a function of the old CPU
  state. It is put together from the start of the step (`BeginInstruction`), one function
  per row of the opcode map (`Opcodes00To3F` … `OpcodesF0ToFF`, `GroupF6` … `GroupFF`)
  and the end of the step (`Finish`).
- The class `CpuExecute.Cpu` holds the CPU's fields and performs the same step on them,
  block by block, as the Rust method does. Every method of the class is proved to leave
  exactly the state that the matching function gives.

The module `ExecuteProperties` then proves what the step promises. This covers:

- the conditional-jump table against the meaning of a comparison;
- the REP prefix classification;
- the opcode-0 off-rails detector and the trap delays;
- LOOP, LOOPE, LOOPNE and JCXZ;
- the flag instructions;
- the 8088 quirks the emulator reproduces: SALC, the 0x60-0x6F jump aliases, JMP through
  0xFE landing on 0xFF00 | byte, and PUSH SP pushing SP - 2;
- the priority of the step's result.

Values the step obtains from helpers outside it come in as the fields of an `Externals`
argument. These include bus reads, stack pops, port input, the ALU's result and flags,
and the success of a division. Values it hands to the stack push helpers are logged, in
order, in `stackWrites`.

The token list view (`TokenListViews.TokenListView`) and the PIT viewer
(`PitViewers.PitViewerControl`) are classes whose methods update their fields in place.
Their contents updates are proved equal to the specification functions `AgedContents`
and `AgeState`. Lemmas about those functions then state the age rules, including how a
value that stays the same fades by two per frame up to `TOKEN_MAX_AGE`.

## Model

| member | source | states |
|---|---|---|
| MachineInts.Wrap16 | src/cpu_808x/execute.rs:2081 | `wrapping_add` on u16: the result is the word congruent to the sum modulo 2^16, and the sum itself when it fits |
| MachineInts.Wrap32 | src/cpu_808x/execute.rs:178 | `wrapping_add` on the u32 opcode-0 counter: congruent modulo 2^32, unchanged when in range |
| MachineInts.SaturatingAddU8 | src/egui/token_listview.rs:121 | `u8::saturating_add`: the sum when it is at most 255, otherwise 255, and never below either operand |
| MachineInts.SaturatingDecrement | src/cpu_808x/execute.rs:96-97 | `saturating_sub(1)` on the trap delays: zero stays zero, anything else drops by one |
| MachineInts.AsI8 | src/cpu_808x/execute.rs:416 | `rel8 as i8`: the signed byte whose low 8 bits are the raw byte |
| MachineInts.AsI16 | src/cpu_808x/execute.rs:1323 | `rel16 as i16`: the signed word whose 16 bits are the raw word |
| SyntaxTokens.WithAge | src/syntax_token.rs:39-71 | replacing a token's frame age keeps its variant and every other field, and tokens without an age are returned unchanged |
| SyntaxTokens.FadedClosedForm | src/egui/token_listview.rs:117-122 | a value unchanged for n frames has age `age + 2n`, capped at TOKEN_MAX_AGE |
| SyntaxTokens.FullyFadedAfter128Frames | src/syntax_token.rs:33 | after 128 unchanged frames every age has reached TOKEN_MAX_AGE (255) |
| TokenListViews.ResizedContentsAreOld | src/egui/token_listview.rs:83-102 | when the row count changes, every memory-byte token gets TOKEN_MAX_AGE, other tokens are kept, and the shape of the incoming rows is kept |
| TokenListViews.SameSizeContentsAreAgedInPlace | src/egui/token_listview.rs:104-148 | with the same row count, each token is aged against the token at the same row and column, and a token past the end of the shorter row is kept as supplied |
| TokenListViews.AgeTokenRules | src/egui/token_listview.rs:110-140 | the age rule for one position: same address and value ages by two; a different address gives 255; a changed value keeps the supplied age; differing variants or non-byte tokens are untouched |
| TokenListViews.SteadyByteFades | src/egui/token_listview.rs:110-140 | a memory byte supplied frame after frame with the same address and value, whatever age its producer gives it each frame, fades by two per frame from its first age; any other token is shown exactly as supplied in the latest frame |
| TokenListViews.DefaultTokenIsNeverAged | src/syntax_token.rs:73-75 | the default token (NullToken) is left alone by both age rules |
| TokenListViews.MarkRowOld | src/egui/token_listview.rs:86-98 | the loop over one row on a resize yields exactly `MaxAgeRow` of the row |
| TokenListViews.AgeRowTokens | src/egui/token_listview.rs:107-145 | the loop over one zipped row pair yields exactly `AgeRow` of the incoming row against the previous one |
| TokenListViews.TokenListView.constructor | src/egui/token_listview.rs:57-71 | a new view starts at row 0 with 16 visible rows, no capacity, no contents and no hover text |
| TokenListViews.TokenListView.SetVisible | src/egui/token_listview.rs:73-75 | sets the visible row count and nothing else |
| TokenListViews.TokenListView.SetCapacity | src/egui/token_listview.rs:77-79 | sets the row capacity and nothing else |
| TokenListViews.TokenListView.SetHoverText | src/egui/token_listview.rs:151-153 | sets the hover text and nothing else |
| TokenListViews.TokenListView.SetContents | src/egui/token_listview.rs:81-149 | stores `AgedContents(incoming, previous contents)` and changes no other field |
| PitViewers.AgeStateKeepsShape | src/egui/pit_viewer.rs:145-170 | the update keeps the channels and entry names of the incoming state and changes nothing but the age of an entry |
| PitViewers.AgeStateRules | src/egui/pit_viewer.rs:153-166 | the rule for one entry: a dirty state string gets age 0; a clean one shown before as a state string ages by two (saturating); anything else is kept as supplied |
| PitViewers.SteadyEntryFades | src/egui/pit_viewer.rs:153-166 | a clean state string supplied repeatedly fades by two per update; a dirty one stays at age 0 |
| PitViewers.AgeEntryValue | src/egui/pit_viewer.rs:153-166 | the body of the inner loop gives exactly `AgeEntry` of the incoming entry against the entry shown before under the same key |
| PitViewers.AgeChannelEntries | src/egui/pit_viewer.rs:152-167 | the loop over one channel's entries gives exactly `AgeChannel`: every key aged, no key added or dropped |
| PitViewers.PitViewerControl.constructor | src/egui/pit_viewer.rs:55-71 | a new viewer has an empty state and three empty channel sample buffers |
| PitViewers.PitViewerControl.UpdateState | src/egui/pit_viewer.rs:145-170 | stores `AgeState(incoming, previous state)` and keeps the channel buffers |
| PitViewers.PitViewerControl.UpdateChannelData | src/egui/pit_viewer.rs:172-175 | replaces the samples of the one channel named and keeps the other two |
| Cpu808x.Register16Lut | src/cpu_808x/execute.rs:609 | `REGISTER16_LUT[opcode & 7]` is the general register whose 3-bit code is the index (AX, CX, DX, BX, SP, BP, SI, DI), so the eight entries are distinct; never IP or a segment register |
| Cpu808x.Reg8To16 | src/cpu_808x/execute.rs:1720 | `reg8to16`: AL and AH map to AX, CL and CH to CX, DL and DH to DX, BL and BH to BX, and no other register maps to any of these |
| Cpu808x.SetRegister16 | src/cpu_808x/execute.rs:614-615 | `set_register16`: afterwards the register reads back the value written |
| Cpu808x.SetRegister16Keeps | src/cpu_808x/execute.rs:614-615 | writing one 16-bit register leaves every other register unchanged |
| Cpu808x.HalvesMakeWord | src/cpu_808x/execute.rs:1172-1177 | the standard 8088 register encoding, which `set_register8` relies on (here SALC writing AL): the 8-bit registers are the halves of AX, CX, DX and BX, high half times 0x100 plus low half giving the word. The register accessors themselves lie outside the modelled files (see Left out) |
| Cpu808x.SetRegister8 | src/cpu_808x/execute.rs:1172-1177 | `set_register8`: afterwards the 8-bit register reads back the value written |
| Cpu808x.SetRegister8Keeps16 | src/cpu_808x/execute.rs:1172-1177 | writing an 8-bit register leaves every other word register unchanged |
| Cpu808x.SetRegister8Keeps | src/cpu_808x/execute.rs:1172-1177 | writing an 8-bit register leaves every other 8-bit register unchanged, including the other half of the same word |
| Cpu808x.SetFlagState | src/cpu_808x/execute.rs:1441 | `set_flag_state`: afterwards the flag has the value given |
| Cpu808x.SetFlagStateKeeps | src/cpu_808x/execute.rs:1441 | setting one flag leaves every other flag unchanged |
| Cpu808x.WithStatusFlag | src/cpu_808x/execute.rs:207-212 | after an ALU helper, the status flags are the helper's, and trap, interrupt and direction are unchanged |
| Cpu808x.WriteOperand8 | src/cpu_808x/execute.rs:556 | `write_operand8` to a register operand: that register reads back the value; to a memory operand: the registers are unchanged |
| Cpu808x.WriteOperand8Frame | src/cpu_808x/execute.rs:556 | writing an 8-bit register operand changes no other 8-bit register (not even the other half of the same word) and no word register but the one containing it |
| Cpu808x.WriteOperand16 | src/cpu_808x/execute.rs:567 | `write_operand16` to a register operand: that register reads back the value; to a memory operand: the registers are unchanged |
| Cpu808x.WriteOperand16Frame | src/cpu_808x/execute.rs:567 | writing a 16-bit register operand changes no other register |
| CpuExecute.NextIp | src/cpu_808x/execute.rs:2081 | `ip.wrapping_add(size as u16)`: the plain sum when it stays in the segment, 0x10000 less when it passes the top |
| CpuExecute.RelativeTarget | src/cpu_808x/execute.rs:416 | a relative jump target is congruent modulo 2^16 to the next instruction's offset plus the displacement |
| CpuExecute.HighPage | src/cpu_808x/execute.rs:1786 | `0xFF00 \| b`: high byte 0xFF, low byte b |
| CpuExecute.Cpu.ExecuteOpcodes00To3F | src/cpu_808x/execute.rs:192-351 | ALU ops, segment register push/pop and CMP change the fields exactly as `Opcodes00To3F` says |
| CpuExecute.Cpu.ExecuteOpcodes40To5F | src/cpu_808x/execute.rs:352-387 | INC/DEC/PUSH/POP on the register the opcode selects, exactly as `Opcodes40To5F` says |
| CpuExecute.Cpu.ExecuteShortJump | src/cpu_808x/execute.rs:388-424 | a short conditional jump sets IP and reports the jump exactly as `ShortJump` says |
| CpuExecute.Cpu.ExecuteOpcodes80To9F | src/cpu_808x/execute.rs:425-688 | the immediate ALU group, TEST, XCHG, MOV, LEA, POP r/m, XCHG AX, CALLF and PUSHF, exactly as `Opcodes80To9F` says |
| CpuExecute.Cpu.ExecuteStringInstruction | src/cpu_808x/execute.rs:719-907 | a string instruction counts CX down only when the REP-start helper lets it run under a REP prefix |
| CpuExecute.Cpu.ExecuteOpcodesA0ToBF | src/cpu_808x/execute.rs:689-924 | MOV with an offset, the string instructions, TEST A and MOV immediate, exactly as `OpcodesA0ToBF` says |
| CpuExecute.Cpu.ExecuteOpcodesC0ToDF | src/cpu_808x/execute.rs:925-1200 | returns, LES/LDS, MOV r/m immediate, INT, shifts, AAM, SALC and XLAT, exactly as `OpcodesC0ToDF` says |
| CpuExecute.Cpu.ExecuteOpcodesE0ToEF | src/cpu_808x/execute.rs:1201-1415 | LOOPNE/LOOPE/LOOP/JCXZ, IN, CALL and the JMPs, exactly as `OpcodesE0ToEF` says |
| CpuExecute.Cpu.ExecuteGroupF6 | src/cpu_808x/execute.rs:1443-1541 | TEST/NOT/NEG/MUL/IMUL/DIV/IDIV on a byte, with a failed division raising DivideError, exactly as `GroupF6` says |
| CpuExecute.Cpu.ExecuteGroupF7 | src/cpu_808x/execute.rs:1542-1640 | the same on a word, exactly as `GroupF7` says |
| CpuExecute.Cpu.ExecuteCallFE | src/cpu_808x/execute.rs:1687-1780 | the 8-bit CALL and CALLF forms push single bytes. The memory forms jump to 0xFF00 \| byte (CALLF also loads CS that way). The register forms copy the whole word register containing the operand to IP, and the register CALLF reports no jump, so IP then also advances past the instruction. All exactly as `GroupFE` says |
| CpuExecute.Cpu.ExecuteGroupFE | src/cpu_808x/execute.rs:1671-1842 | the 0xFE group, exactly as `GroupFE` says |
| CpuExecute.Cpu.ExecuteCallFF | src/cpu_808x/execute.rs:1856-1984 | the near and far calls of the 0xFF group, including the invalid register forms, exactly as `GroupFF` says |
| CpuExecute.Cpu.ExecuteGroupFF | src/cpu_808x/execute.rs:1843-2062 | the 0xFF group, with PUSH SP pushing SP - 2, exactly as `GroupFF` says |
| CpuExecute.Cpu.ExecuteOpcodesF0ToFF | src/cpu_808x/execute.rs:1416-1670 | HLT, CMC, the flag instructions and the groups, exactly as `OpcodesF0ToFF` says |
| CpuExecute.Cpu.BeginStep | src/cpu_808x/execute.rs:95-189 | the start of the step: the trap delays, the REP prefix and the opcode-0 counter, as `BeginInstruction` says |
| CpuExecute.Cpu.ClassifyRepPrefix | src/cpu_808x/execute.rs:129-164 | the REP prefix classification, as `ClassifyRep` says |
| CpuExecute.Cpu.CountZeroOpcodes | src/cpu_808x/execute.rs:177-189 | the opcode-0 counter and off-rails halt, as `CountOpcode0` says |
| CpuExecute.Cpu.DispatchOpcode | src/cpu_808x/execute.rs:191-2068 | the opcode-specific part, as `Dispatch` says |
| CpuExecute.Cpu.FinishStep | src/cpu_808x/execute.rs:2076-2107 | the IP advance, `rep_init`, and the result, as `Finish` says |
| CpuExecute.Cpu.ExecuteInstruction | src/cpu_808x/execute.rs:77-2107 | one whole step leaves the fields and returns the result that `Execute` gives for the old state |
| ExecuteProperties.SignXorOverflowIsLess | src/cpu_808x/execute.rs:400 | after CMP, "sign differs from overflow" holds exactly when the first operand is less as a signed word |
| ExecuteProperties.JumpConditionsFollowCompare | src/cpu_808x/execute.rs:390-407 | after `CMP a, b`, JB/JNB/JZ/JNZ/JBE/JNBE jump exactly on the unsigned comparison they name, and JL/JNL/JLE/JNLE on the signed one |
| ExecuteProperties.JumpConditionsComeInPairs | src/cpu_808x/execute.rs:390-407 | each odd condition is the negation of the even one before it |
| ExecuteProperties.ShortJumpAliases | src/cpu_808x/execute.rs:388-391 | opcodes 0x60-0x6F do exactly what 0x70-0x7F do |
| ExecuteProperties.ShortJumpOutcome | src/cpu_808x/execute.rs:388-424 | a short jump goes to the target counted from the next instruction when its condition holds, and to the next instruction otherwise, and changes nothing else |
| ExecuteProperties.RepClassification | src/cpu_808x/execute.rs:129-164 | a REP prefix starts a REP exactly on the string ops and MUL/IMUL/DIV/IDIV. REPNE gives Repne and REP gives Repe on SCAS/CMPS; the other mnemonics that take a REP prefix get Rep. On anything else the REP state is unchanged |
| ExecuteProperties.TrapDelaysCountDown | src/cpu_808x/execute.rs:96-97 | both trap delays count down by one per step and stop at zero |
| ExecuteProperties.ZeroOpcodeCounts | src/cpu_808x/execute.rs:177-185 | one 0x00 opcode adds one to the u32 counter with wrap-around (0xFFFF_FFFF is followed by 0); with detection on, the CPU halts with interrupts disabled exactly when the new count is above 5 |
| ExecuteProperties.ZeroRunCounts | src/cpu_808x/execute.rs:177-189 | a run of n 0x00 opcodes adds n to the counter; with detection on, the CPU is halted with interrupts disabled exactly once the count passes 5 |
| ExecuteProperties.SixthZeroOpcodeHalts | src/cpu_808x/execute.rs:177-189 | from a fresh count, the fifth 0x00 in a row does not halt and the sixth does |
| ExecuteProperties.OtherOpcodeResetsCount | src/cpu_808x/execute.rs:186-188 | any other opcode resets the counter and does not halt |
| ExecuteProperties.OffRailsStepHalts | src/cpu_808x/execute.rs:177-189 | the step that trips off-rails detection reports Halt |
| ExecuteProperties.LoopOutcome | src/cpu_808x/execute.rs:1226-1243 | LOOP counts CX down with wrapping, jumps while the new count is non-zero, and changes no flag and no other register |
| ExecuteProperties.LoopWhileOutcome | src/cpu_808x/execute.rs:1201-1225 | LOOPE/LOOPNE count CX down and jump while the count is non-zero and ZF is set (LOOPE) or clear (LOOPNE) |
| ExecuteProperties.JcxzOutcome | src/cpu_808x/execute.rs:1244-1261 | JCXZ leaves CX alone and jumps exactly when CX is zero |
| ExecuteProperties.FlagOpsChangeOneFlag | src/cpu_808x/execute.rs:1438-1670 | CMC complements carry; CLC/STC, CLI/STI and CLD/STD clear or set their flag. Every other flag and every register but IP is unchanged |
| ExecuteProperties.HaltOutcome | src/cpu_808x/execute.rs:1429-1437 | HLT halts the CPU and the step reports Halt exactly when interrupts are disabled |
| ExecuteProperties.SalcOutcome | src/cpu_808x/execute.rs:1168-1178 | SALC sets AL to 0xFF on carry and 0 otherwise, and keeps AH, every other register and the flags |
| ExecuteProperties.XchgAxOutcome | src/cpu_808x/execute.rs:605-617 | `XCHG AX, r` swaps AX with the selected register and keeps every other register and the flags |
| ExecuteProperties.NopOutcome | src/cpu_808x/execute.rs:605-617 | 0x90 (`XCHG AX, AX`) changes nothing but IP |
| ExecuteProperties.JmpByteOutcome | src/cpu_808x/execute.rs:1781-1792 | JMP through 0xFE jumps to 0xFF00 \| byte: high byte 0xFF, low byte the operand byte, no other register changed |
| ExecuteProperties.PushWordOutcome | src/cpu_808x/execute.rs:2037-2046 | PUSH r16 through 0xFF pushes the register's value, except that PUSH SP pushes SP - 2 |
| ExecuteProperties.ResultPriority | src/cpu_808x/execute.rs:2076-2107 | the result is, in order: Halt when halted with interrupts off, then OkayJump, then OkayRep, then the exception, then Okay. IP advances only outside a REP and without a jump, and `rep_init` is set exactly by OkayRep (or kept inside a REP) |
| ExecuteProperties.DivideErrorReporting | src/cpu_808x/execute.rs:1497-1540 | a failed division reports ExceptionError(DivideError) outside a REP; with a REP prefix the step reports OkayRep instead |
| ExecuteFindings.NextIpCheckedAgrees | src/cpu_808x/execute.rs:642 | the checked `ip + size` fails exactly when the wrapping sum wraps, and equals it otherwise |
| ExecuteFindings.NextIpCheckedFailsAtSegmentTop | src/cpu_808x/execute.rs:642 | a 5-byte far call at 0xFFFE: the checked sum has no value, while the wrapping one is 0x0003 |
| ExecuteFindings.RelativeTargetCheckedAgrees | src/cpu_808x/execute.rs:1323 | wherever the i16 sum `rel16 as i16 + size as i16` exists, the target it gives is the wrapping target |
| ExecuteFindings.RelativeTargetCheckedFailsOnLongJump | src/cpu_808x/execute.rs:1348 | a 3-byte JMP rel16 with displacement 0x7FFE: the i16 sum has no value, while the wrapping target exists |

## Left out

- Cycle counting, the microcode PC, the bus interface unit (prefetch queue, fetch suspend and flush), and trace and log output are not modelled. They only affect timing and diagnostics, not the architectural state the step returns.
- The ALU, shift, multiply and divide helpers (`math_op8`, `math_op16`, the shift helpers, `div8` and the rest) are outside the step. Their result, status flags and division success are inputs, supplied through `Externals`.
- AAM (`aam`): only its success is an input. A failure raises DivideError; the values it leaves in AL and AH and the flags it sets are not modelled.
- DAA, DAS, AAA, AAS, AAD, CBW, CWD, WAIT, POPF, SAHF, LAHF and ESC have no modelled effect, because their helpers are outside the step.
- Memory and port writes go to the bus and are not modelled. A write to a memory operand leaves the modelled registers unchanged.
- The values handed to the stack push helpers are logged in `stackWrites`, but SP itself is not adjusted by pushes and pops. The push and pop helpers are not part of this model.
- String instructions: only the REP-start decision and the CX count-down are modelled. The data movement and the bodies of `rep_end` and `rep_interrupt` are outside the step. The step's own decision to end a REP is not modelled either: on CX reaching zero, and on ZF for REPE/REPNE, the source calls `rep_end`. So once `inRep` is set it never becomes false in the model, and every later step reports `OkayRep` and leaves IP unchanged. The REP case of `DivideErrorReporting` describes the step that starts the REP.
- Far returns, IRET and the interrupt entry (`farret`, `iret`, `sw_interrupt`) are outside the step. Their instructions only report the jump, and the near return takes its IP from the popped word.
- The following are not modelled: the call-stack bookkeeping, `step_over_target`, the `rewind_call_stack` check, `trap_suppressed`, `interrupt_inhibit`, the NX cycle and segment overrides. They do not affect the result or the modelled registers and flags.
- `read_operand8` and `read_operand16` return an `Option` that the step unwraps. The model reads 0 for an operand kind they cannot read, a case in which the source would panic.
- The definitions of `REGISTER16_LUT`, `reg8to16`, `util::relative_offset_u16` and the register accessors (`get_register8`, `set_register8`, `get_register16`, `set_register16`) lie outside the files modelled here; the accessors are modelled on the standard 8088 register file, with AL..BH the halves of AX..BX. `Register16Lut` and `Reg8To16` are therefore defined from the standard 8088 register encoding, and `RelativeTarget` as a wrapping add of the displacement.
- `Cpu::ExecuteInstruction`: requires that the instruction is not one the source marks unhandled (the LOCK/REP prefix bytes 0xF0/0xF2/0xF3, or a group opcode with a mnemonic outside its group); the source panics with `unreachable!` on those.
- `ExecuteProperties` opcode lemmas: they require a running CPU (not halted, not inside a REP). Most of them also require a decoded mnemonic of `OtherMnemonic` and a non-zero opcode, the case in which the start of the step does not change the REP state.
- ExecuteProperties.ZeroRunCounts: requires the counter to stay below 2^32 over the run, so it states the sum without wrap-around. The wrap itself is stated for a single step by `ZeroOpcodeCounts`, and `OffRailsStepHalts` likewise requires a counter below 0xFFFF_FFFF.
- PitViewers.PitViewerControl.UpdateChannelData: requires a channel below 3, because the source indexes a fixed array of three and panics otherwise. The plot points and lines built from the samples are not modelled.
- The drawing code (`draw`, `measure_token`, layout fields and margins) and the floppy manager are not modelled: they are rendering and file I/O.
- The trap delays are u32 fields, as in the source. `SaturatingDecrement` is stated on natural numbers, and a value that drops by one and stops at zero stays within u32, so no wrap-around arises for the delays.

## Findings

| source | as written | input that shows it | evidently intended | confidence | as-written member | corrected member |
|---|---|---|---|---|---|---|
| src/cpu_808x/execute.rs:642 (also 1694, 1711, 1865, 1895, 1921) | `self.ip + (self.i.size as u16)` uses checked u16 addition for the return offset of far and indirect calls | a 5-byte CALLF at IP = 0xFFFE: 0xFFFE + 5 overflows u16, which panics in a debug build | the wrapping sum `ip.wrapping_add(size as u16)` that lines 1317, 1743 and 2081 use, giving 0x0003 | not executed | ExecuteFindings.NextIpCheckedFailsAtSegmentTop | CpuExecute.NextIp |
| src/cpu_808x/execute.rs:1323 (also 1348) | `rel16 as i16 + self.i.size as i16` adds displacement and size in i16 | JMP rel16 with rel16 = 0x7FFE and size 3: 32766 + 3 overflows i16, which panics in a debug build | the target computed modulo 2^16, as a release build's wrapping gives | not executed | ExecuteFindings.RelativeTargetCheckedFailsOnLongJump | CpuExecute.RelativeTarget |
