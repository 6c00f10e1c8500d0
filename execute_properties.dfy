/** What the execute step promises, stated about `Execute` and its parts: the conditional
    jumps against the meaning of a comparison, the REP and opcode-0 bookkeeping, the loop
    instructions, the flag instructions and the 8088 quirks the step reproduces. */
module ExecuteProperties {
  import opened MachineInts
  import opened Wrappers
  import opened Cpu808x
  import opened CpuExecute

  /** A CPU that is running normally: not halted and not part-way through a REP string
      instruction. */
  predicate Running(s: CpuState) {
    !s.halted && !s.inRep
  }

  /** An instruction that is not 0x00 and whose mnemonic takes no REP prefix, as the
      decoder produces for jumps, loops, flag instructions, XCHG, SALC and HLT. */
  predicate Plain(i: Instruction) {
    i.opcode != 0x00 && i.mnemonic.OtherMnemonic?
  }

  /** Two register files that agree everywhere except, possibly, in IP. */
  predicate SameExceptIp(a: Registers, b: Registers) {
    a.(ip := 0) == b.(ip := 0)
  }

  /** The state after the start of the step for an instruction a REP prefix does not apply
      to and that is not 0x00. */
  function Begun(s: CpuState): CpuState {
    s.(trapEnableDelay := SaturatingDecrement(s.trapEnableDelay),
       trapDisableDelay := SaturatingDecrement(s.trapDisableDelay),
       opcode0Counter := 0)
  }

  /** For such an instruction the start of the step only counts the trap delays down and
      resets the opcode-0 counter. */
  lemma PlainBegin(s: CpuState, i: Instruction)
    requires i.opcode != 0x00 && RepTypeFor(i.mnemonic, i.rep1).None?
    ensures BeginInstruction(s, i) == Begun(s)
  {
  }

  /** The end of the step on a running CPU: a jump is reported as `OkayJump` with IP as the
      opcode left it, anything else moves IP past the instruction and reports the exception
      or `Okay`. */
  lemma RunningFinish(o: Outcome, i: Instruction)
    requires Running(o.s)
    ensures Finish(o, i).result ==
      (if o.jump then OkayJump else if o.exception == DivideError then ExceptionError(DivideError) else Okay)
    ensures Finish(o, i).state ==
      o.s.(repInit := false,
           regs := if o.jump then o.s.regs else o.s.regs.(ip := NextIp(o.s.regs.ip, i.size)))
  {
  }

  // ---------------------------------------------------------------------------------
  // What the opcode-specific part does for the opcodes below, from any state.

  lemma ShortJumpDispatch(b: CpuState, i: Instruction, x: Externals)
    requires 0x60 <= i.opcode < 0x80
    ensures Dispatch(b, i, x) == ShortJump(b, i, x)
  {
  }

  lemma LoopDispatch(b: CpuState, i: Instruction, x: Externals)
    requires i.opcode == 0xE2 && i.operand1.Relative8?
    ensures var c := DecrementCx(b);
      Dispatch(b, i, x) ==
        if c.regs.cx != 0 then Jumped(SetIp(c, RelativeTarget(b.regs.ip, AsI8(i.operand1.rel8), i.size)))
        else Continue(c)
  {
  }

  lemma LoopWhileDispatch(b: CpuState, i: Instruction, x: Externals)
    requires (i.opcode == 0xE0 || i.opcode == 0xE1) && i.operand1.Relative8?
    ensures var c := DecrementCx(b);
      Dispatch(b, i, x) ==
        if c.regs.cx != 0 && (b.flags.zero <==> i.opcode == 0xE1)
        then Jumped(SetIp(c, RelativeTarget(b.regs.ip, AsI8(i.operand1.rel8), i.size)))
        else Continue(c)
  {
  }

  lemma JcxzDispatch(b: CpuState, i: Instruction, x: Externals)
    requires i.opcode == 0xE3 && i.operand1.Relative8?
    ensures Dispatch(b, i, x) ==
      if b.regs.cx == 0 then Jumped(SetIp(b, RelativeTarget(b.regs.ip, AsI8(i.operand1.rel8), i.size)))
      else Continue(b)
  {
  }

  lemma FlagOpDispatch(b: CpuState, i: Instruction, x: Externals)
    requires i.opcode == 0xF5 || 0xF8 <= i.opcode <= 0xFD
    ensures Dispatch(b, i, x) == Continue(SetFlag(b, FlagOpFlag(i.opcode), FlagOpValue(i.opcode, b.flags)))
  {
  }

  lemma HaltDispatch(b: CpuState, i: Instruction, x: Externals)
    requires i.opcode == 0xF4
    ensures Dispatch(b, i, x) == Continue(b.(halted := true))
  {
  }

  lemma SalcDispatch(b: CpuState, i: Instruction, x: Externals)
    requires i.opcode == 0xD6
    ensures Dispatch(b, i, x) == Continue(SetReg8(b, AL, if b.flags.carry then 0xFF else 0x00))
  {
  }

  lemma XchgAxDispatch(b: CpuState, i: Instruction, x: Externals)
    requires 0x90 <= i.opcode < 0x98
    ensures var r := Register16Lut(i.opcode % 8);
      Dispatch(b, i, x) ==
        Continue(b.(regs := SetRegister16(SetRegister16(b.regs, AX, GetRegister16(b.regs, r)), r, b.regs.ax)))
  {
  }

  lemma JmpByteDispatch(b: CpuState, i: Instruction, x: Externals)
    requires i.opcode == 0xFE && i.mnemonic.JMP?
    ensures Dispatch(b, i, x) == Jumped(SetIp(b, HighPage(ReadOperand8(b.regs, i.operand1, x))))
  {
  }

  lemma PushWordDispatch(b: CpuState, i: Instruction, x: Externals)
    requires i.opcode == 0xFF && i.mnemonic.PUSH? && i.operand1.Register16?
    ensures var r := i.operand1.r16;
      Dispatch(b, i, x) ==
        Continue(Pushed(b, PushedWord(if r.SP? then Wrap16(b.regs.sp - 2) else GetRegister16(b.regs, r))))
  {
  }

  lemma ZeroOpcodeDispatch(b: CpuState, i: Instruction, x: Externals)
    requires i.opcode == 0x00
    ensures Dispatch(b, i, x) == Continue(Alu8(b, i, x, true))
  {
  }

  lemma DivideErrorDispatch(b: CpuState, i: Instruction, x: Externals)
    requires (i.opcode == 0xF6 || i.opcode == 0xF7) && (i.mnemonic.DIV? || i.mnemonic.IDIV?)
    requires x.division.None?
    ensures Dispatch(b, i, x) == Outcome(b, false, DivideError)
  {
  }

  // ---------------------------------------------------------------------------------
  // The conditional jumps against the comparison they follow.

  /** The status flags the 8086 defines for `CMP a, b` on words: the flags of the
      subtraction a - b, carry as the borrow and overflow as signed overflow. */
  function CompareFlags(a: u16, b: u16, before: Flags): Flags {
    var difference := AsI16(a) - AsI16(b);
    before.(carry := a < b,
            zero := Wrap16(a - b) == 0,
            sign := Wrap16(a - b) >= 0x8000,
            overflow := difference < -0x8000 || difference > 0x7FFF)
  }

  /** After a signed subtraction, "sign differs from overflow" means exactly "less than". */
  lemma SignXorOverflowIsLess(a: u16, b: u16, f: Flags)
    ensures var c := CompareFlags(a, b, f); (c.sign != c.overflow) <==> AsI16(a) < AsI16(b)
  {
    var d := AsI16(a) - AsI16(b);
    assert (a - b) % 0x1_0000 == d % 0x1_0000 by {
      assert Wrap16(AsI16(a)) == a && Wrap16(AsI16(b)) == b;
    }
    if d < -0x8000 {
      assert Wrap16(a - b) == d + 0x1_0000;
    } else if d < 0 {
      assert Wrap16(a - b) == d + 0x1_0000;
    } else {
      assert Wrap16(a - b) == d;
    }
  }

  /** Each conditional jump that follows `CMP a, b` is taken exactly when the comparison it
      names holds: JB/JNB/JBE/JNBE compare unsigned, JL/JNL/JLE/JNLE compare signed.
      JO/JNO, JS/JNS and JP/JNP test a single flag and name no comparison, so they are
      covered only by `JumpCondition` itself and `JumpConditionsComeInPairs`. */
  lemma JumpConditionsFollowCompare(a: u16, b: u16, f: Flags)
    ensures var c := CompareFlags(a, b, f);
      && (JumpCondition(0x2, c) <==> a < b)
      && (JumpCondition(0x3, c) <==> a >= b)
      && (JumpCondition(0x4, c) <==> a == b)
      && (JumpCondition(0x5, c) <==> a != b)
      && (JumpCondition(0x6, c) <==> a <= b)
      && (JumpCondition(0x7, c) <==> a > b)
      && (JumpCondition(0xC, c) <==> AsI16(a) < AsI16(b))
      && (JumpCondition(0xD, c) <==> AsI16(a) >= AsI16(b))
      && (JumpCondition(0xE, c) <==> AsI16(a) <= AsI16(b))
      && (JumpCondition(0xF, c) <==> AsI16(a) > AsI16(b))
  {
    var c := CompareFlags(a, b, f);
    assert c.zero <==> a == b;
    assert c.zero <==> AsI16(a) == AsI16(b);
    SignXorOverflowIsLess(a, b, f);
  }

  /** The conditions come in pairs: the odd opcode of each pair jumps exactly when the even
      one does not. */
  lemma JumpConditionsComeInPairs(cc: nat, f: Flags)
    requires cc < 16 && cc % 2 == 0
    ensures JumpCondition(cc + 1, f) == !JumpCondition(cc, f)
  {
  }

  /** On the 8088, opcodes 0x60-0x6F are the same conditional jumps as 0x70-0x7F. */
  lemma ShortJumpAliases(s: CpuState, i: Instruction, x: Externals)
    requires 0x60 <= i.opcode < 0x70 && Plain(i)
    ensures Execute(s, i, x) == Execute(s, i.(opcode := i.opcode + 0x10), x)
  {
    var alias := i.(opcode := i.opcode + 0x10);
    PlainBegin(s, i);
    PlainBegin(s, alias);
    var b := Begun(s);
    ShortJumpDispatch(b, i, x);
    ShortJumpDispatch(b, alias, x);
    assert ShortJump(b, i, x) == ShortJump(b, alias, x) by {
      assert alias.opcode % 16 == i.opcode % 16;
    }
  }

  /** A conditional jump moves IP to the target counted from the next instruction when its
      condition holds and to the next instruction otherwise, and changes nothing else the
      step models. */
  lemma ShortJumpOutcome(s: CpuState, i: Instruction, x: Externals)
    requires 0x70 <= i.opcode < 0x80 && i.operand1.Relative8? && Plain(i) && Running(s)
    ensures var st := Execute(s, i, x);
      && SameExceptIp(st.state.regs, s.regs)
      && st.state.flags == s.flags
      && st.state.stackWrites == s.stackWrites
      && (JumpCondition(i.opcode % 16, s.flags) ==>
            st.result.OkayJump?
            && st.state.regs.ip == RelativeTarget(s.regs.ip, AsI8(i.operand1.rel8), i.size))
      && (!JumpCondition(i.opcode % 16, s.flags) ==>
            st.result.Okay? && st.state.regs.ip == NextIp(s.regs.ip, i.size))
  {
    PlainBegin(s, i);
    var b := Begun(s);
    ShortJumpDispatch(b, i, x);
    RunningFinish(ShortJump(b, i, x), i);
  }

  // ---------------------------------------------------------------------------------
  // The start of the step.

  /** The mnemonics a REP prefix applies to: the string instructions and, as on the 8088,
      the multiplies and divides. */
  predicate TakesRepPrefix(m: Mnemonic) {
    m.MOVSB? || m.MOVSW? || m.CMPSB? || m.CMPSW? || m.SCASB? || m.SCASW?
    || m.LODSB? || m.LODSW? || m.STOSB? || m.STOSW?
    || m.MUL? || m.IMUL? || m.DIV? || m.IDIV?
  }

  /** The opcode-0 counter touches none of the REP bookkeeping. */
  lemma CountOpcode0KeepsRep(s: CpuState, i: Instruction)
    ensures CountOpcode0(s, i).inRep == s.inRep
    ensures CountOpcode0(s, i).repType == s.repType
    ensures CountOpcode0(s, i).repMnemonic == s.repMnemonic
  {
  }

  /** A REP prefix starts a REP exactly on the mnemonics that take one; REPNE selects
      `Repne` and REP/REPE selects `Repe` on the comparing string instructions, every other
      mnemonic that takes one runs with `Rep`; on any other mnemonic the prefix is ignored. */
  lemma RepClassification(s: CpuState, i: Instruction)
    ensures var b := BeginInstruction(s, i);
      && ((i.rep1 || i.rep2) && TakesRepPrefix(i.mnemonic) ==>
            b.inRep && b.repMnemonic == i.mnemonic
            && b.repType == (if IsComparingStringOp(i.mnemonic)
                             then (if i.rep1 then Repne else Repe) else Rep))
      && (!(i.rep1 || i.rep2) || !TakesRepPrefix(i.mnemonic) ==>
            b.inRep == s.inRep && b.repMnemonic == s.repMnemonic && b.repType == s.repType)
  {
    var s1 := s.(trapEnableDelay := SaturatingDecrement(s.trapEnableDelay),
                 trapDisableDelay := SaturatingDecrement(s.trapDisableDelay));
    CountOpcode0KeepsRep(ClassifyRep(s1, i), i);
  }

  /** Each step counts both trap delays down by one, stopping at zero. */
  lemma TrapDelaysCountDown(s: CpuState, i: Instruction)
    ensures var b := BeginInstruction(s, i);
      && b.trapEnableDelay == (if s.trapEnableDelay == 0 then 0 else s.trapEnableDelay - 1)
      && b.trapDisableDelay == (if s.trapDisableDelay == 0 then 0 else s.trapDisableDelay - 1)
  {
  }

  /** One 0x00 opcode counts up by one with u32 wrap-around: the counter after 0xFFFF_FFFF
      is 0. The CPU halts, with interrupts disabled, when detection is on and the new count
      is above five. */
  lemma ZeroOpcodeCounts(s: CpuState, i: Instruction)
    requires i.opcode == 0x00
    ensures var b := BeginInstruction(s, i);
      && b.opcode0Counter == (if s.opcode0Counter == 0xFFFF_FFFF then 0 else s.opcode0Counter + 1)
      && b.halted == (s.halted || (s.offRailsDetection && b.opcode0Counter > 5))
      && (s.offRailsDetection && b.opcode0Counter > 5 ==> !b.flags.interrupt)
  {
  }

  /** The start of the step, applied `n` times to the same 0x00 instruction. */
  function ZeroRun(s: CpuState, i: Instruction, n: nat): CpuState
    requires i.opcode == 0x00
  {
    if n == 0 then s else BeginInstruction(ZeroRun(s, i, n - 1), i)
  }

  /** A run of 0x00 opcodes is counted one by one; with off-rails detection on, the CPU
      halts with interrupts disabled as soon as the count passes five, and stays halted. */
  lemma {:induction false} ZeroRunCounts(s: CpuState, i: Instruction, n: nat)
    requires i.opcode == 0x00 && s.opcode0Counter + n < 0x1_0000_0000
    ensures ZeroRun(s, i, n).opcode0Counter == s.opcode0Counter + n
    ensures ZeroRun(s, i, n).offRailsDetection == s.offRailsDetection
    ensures ZeroRun(s, i, n).halted
            == (s.halted || (s.offRailsDetection && n > 0 && s.opcode0Counter + n > 5))
    ensures s.offRailsDetection && n > 0 && s.opcode0Counter + n > 5
            ==> !ZeroRun(s, i, n).flags.interrupt
  {
    if n > 0 {
      ZeroRunCounts(s, i, n - 1);
    }
  }

  /** From a fresh count, the sixth 0x00 in a row halts a CPU with off-rails detection on,
      and the fifth does not. */
  lemma SixthZeroOpcodeHalts(s: CpuState, i: Instruction)
    requires i.opcode == 0x00 && s.opcode0Counter == 0 && s.offRailsDetection && !s.halted
    ensures !ZeroRun(s, i, 5).halted
    ensures ZeroRun(s, i, 6).halted && !ZeroRun(s, i, 6).flags.interrupt
  {
    ZeroRunCounts(s, i, 5);
    ZeroRunCounts(s, i, 6);
  }

  /** Any opcode other than 0x00 resets the count and does not halt. */
  lemma OtherOpcodeResetsCount(s: CpuState, i: Instruction)
    requires i.opcode != 0x00
    ensures BeginInstruction(s, i).opcode0Counter == 0
    ensures BeginInstruction(s, i).halted == s.halted
  {
  }

  /** The step that trips off-rails detection reports `Halt`, whatever the 0x00 instruction
      itself did. */
  lemma OffRailsStepHalts(s: CpuState, i: Instruction, x: Externals)
    requires i.opcode == 0x00 && s.offRailsDetection && 5 <= s.opcode0Counter < 0xFFFF_FFFF
    ensures Execute(s, i, x).result == Halt
    ensures Execute(s, i, x).state.halted
  {
    var b := BeginInstruction(s, i);
    assert b.halted && !b.flags.interrupt;
    ZeroOpcodeDispatch(b, i, x);
  }

  // ---------------------------------------------------------------------------------
  // LOOP, LOOPE, LOOPNE and JCXZ.

  /** LOOP counts CX down (wrapping) and jumps while the new count is non-zero. */
  lemma LoopOutcome(s: CpuState, i: Instruction, x: Externals)
    requires i.opcode == 0xE2 && i.operand1.Relative8? && Plain(i) && Running(s)
    ensures var st := Execute(s, i, x);
      && st.state.regs.cx == Wrap16(s.regs.cx - 1)
      && st.state.regs == s.regs.(cx := st.state.regs.cx, ip := st.state.regs.ip)
      && st.state.flags == s.flags
      && (s.regs.cx != 1 ==>
            st.result.OkayJump?
            && st.state.regs.ip == RelativeTarget(s.regs.ip, AsI8(i.operand1.rel8), i.size))
      && (s.regs.cx == 1 ==> st.result.Okay? && st.state.regs.ip == NextIp(s.regs.ip, i.size))
  {
    PlainBegin(s, i);
    var b := Begun(s);
    LoopDispatch(b, i, x);
    RunningFinish(Dispatch(b, i, x), i);
  }

  /** LOOPE (0xE1) and LOOPNE (0xE0) count CX down and jump while the new count is non-zero
      and the zero flag is set (LOOPE) or clear (LOOPNE). */
  lemma LoopWhileOutcome(s: CpuState, i: Instruction, x: Externals)
    requires (i.opcode == 0xE0 || i.opcode == 0xE1) && i.operand1.Relative8? && Plain(i) && Running(s)
    ensures var st := Execute(s, i, x);
      var taken := s.regs.cx != 1 && (s.flags.zero <==> i.opcode == 0xE1);
      && st.state.regs.cx == Wrap16(s.regs.cx - 1)
      && st.state.regs == s.regs.(cx := st.state.regs.cx, ip := st.state.regs.ip)
      && st.state.flags == s.flags
      && (taken ==>
            st.result.OkayJump?
            && st.state.regs.ip == RelativeTarget(s.regs.ip, AsI8(i.operand1.rel8), i.size))
      && (!taken ==> st.result.Okay? && st.state.regs.ip == NextIp(s.regs.ip, i.size))
  {
    PlainBegin(s, i);
    var b := Begun(s);
    LoopWhileDispatch(b, i, x);
    RunningFinish(Dispatch(b, i, x), i);
  }

  /** JCXZ leaves CX alone and jumps exactly when it is zero. */
  lemma JcxzOutcome(s: CpuState, i: Instruction, x: Externals)
    requires i.opcode == 0xE3 && i.operand1.Relative8? && Plain(i) && Running(s)
    ensures var st := Execute(s, i, x);
      && SameExceptIp(st.state.regs, s.regs)
      && st.state.flags == s.flags
      && (s.regs.cx == 0 ==>
            st.result.OkayJump?
            && st.state.regs.ip == RelativeTarget(s.regs.ip, AsI8(i.operand1.rel8), i.size))
      && (s.regs.cx != 0 ==> st.result.Okay? && st.state.regs.ip == NextIp(s.regs.ip, i.size))
  {
    PlainBegin(s, i);
    var b := Begun(s);
    JcxzDispatch(b, i, x);
    RunningFinish(Dispatch(b, i, x), i);
  }

  // ---------------------------------------------------------------------------------
  // The flag instructions.

  /** The flag each of CMC, CLC, STC, CLI, STI, CLD and STD changes. */
  function FlagOpFlag(opcode: u8): Flag
    requires opcode == 0xF5 || 0xF8 <= opcode <= 0xFD
  {
    if opcode <= 0xF9 then Carry
    else if opcode <= 0xFB then Interrupt
    else Direction
  }

  /** The value the flag instruction gives its flag: CMC complements carry, the even opcodes
      clear their flag and the odd ones set it. */
  function FlagOpValue(opcode: u8, f: Flags): bool
    requires opcode == 0xF5 || 0xF8 <= opcode <= 0xFD
  {
    if opcode == 0xF5 then !f.carry else opcode % 2 == 1
  }

  /** A flag instruction sets its one flag and leaves every other flag and every register
      but IP as it was; IP moves to the next instruction. */
  lemma FlagOpsChangeOneFlag(s: CpuState, i: Instruction, x: Externals)
    requires (i.opcode == 0xF5 || 0xF8 <= i.opcode <= 0xFD) && Plain(i) && Running(s)
    ensures var st := Execute(s, i, x);
      && GetFlag(st.state.flags, FlagOpFlag(i.opcode)) == FlagOpValue(i.opcode, s.flags)
      && (forall g :: g != FlagOpFlag(i.opcode) ==> GetFlag(st.state.flags, g) == GetFlag(s.flags, g))
      && SameExceptIp(st.state.regs, s.regs)
      && st.state.regs.ip == NextIp(s.regs.ip, i.size)
      && st.result.Okay?
  {
    PlainBegin(s, i);
    var b := Begun(s);
    var flag, value := FlagOpFlag(i.opcode), FlagOpValue(i.opcode, s.flags);
    FlagOpDispatch(b, i, x);
    RunningFinish(Dispatch(b, i, x), i);
    forall g | g != flag
      ensures GetFlag(SetFlagState(s.flags, flag, value), g) == GetFlag(s.flags, g)
    {
      SetFlagStateKeeps(s.flags, flag, value, g);
    }
  }

  /** HLT halts the CPU; with interrupts disabled the step reports `Halt`. */
  lemma HaltOutcome(s: CpuState, i: Instruction, x: Externals)
    requires i.opcode == 0xF4 && Plain(i) && Running(s)
    ensures Execute(s, i, x).state.halted
    ensures Execute(s, i, x).result == (if s.flags.interrupt then Okay else Halt)
  {
    PlainBegin(s, i);
    var b := Begun(s);
    HaltDispatch(b, i, x);
  }

  // ---------------------------------------------------------------------------------
  // Quirks of the 8088 that the step reproduces.

  /** SALC (0xD6, undocumented) sets AL to 0xFF when carry is set and to 0 otherwise,
      touching no flag and no other register but IP. */
  lemma SalcOutcome(s: CpuState, i: Instruction, x: Externals)
    requires i.opcode == 0xD6 && Plain(i) && Running(s)
    ensures var st := Execute(s, i, x);
      && GetRegister8(st.state.regs, AL) == (if s.flags.carry then 0xFF else 0x00)
      && GetRegister8(st.state.regs, AH) == GetRegister8(s.regs, AH)
      && (forall r: Register16 :: !r.AX? && !r.IP? ==> GetRegister16(st.state.regs, r) == GetRegister16(s.regs, r))
      && st.state.flags == s.flags
      && st.result.Okay?
  {
    PlainBegin(s, i);
    var b := Begun(s);
    var al: u8 := if s.flags.carry then 0xFF else 0x00;
    SalcDispatch(b, i, x);
    RunningFinish(Dispatch(b, i, x), i);
    SetRegister8Keeps(s.regs, AL, al, AH);
    forall r: Register16 | !r.AX? && !r.IP?
      ensures GetRegister16(SetRegister8(s.regs, AL, al), r) == GetRegister16(s.regs, r)
    {
      SetRegister8Keeps16(s.regs, AL, al, r);
    }
  }

  /** `XCHG AX, r` (0x90-0x97) swaps AX with the register the low three opcode bits select;
      every other register but IP keeps its value. */
  lemma XchgAxOutcome(s: CpuState, i: Instruction, x: Externals)
    requires 0x90 <= i.opcode < 0x98 && Plain(i) && Running(s)
    ensures var st := Execute(s, i, x);
      var r := Register16Lut(i.opcode % 8);
      && GetRegister16(st.state.regs, AX) == GetRegister16(s.regs, r)
      && GetRegister16(st.state.regs, r) == GetRegister16(s.regs, AX)
      && (forall q: Register16 :: !q.AX? && q != r && !q.IP? ==>
            GetRegister16(st.state.regs, q) == GetRegister16(s.regs, q))
      && st.state.flags == s.flags
      && st.result.Okay?
  {
    PlainBegin(s, i);
    var b := Begun(s);
    var r := Register16Lut(i.opcode % 8);
    var once := SetRegister16(s.regs, AX, GetRegister16(s.regs, r));
    var swapped := SetRegister16(once, r, s.regs.ax);
    XchgAxDispatch(b, i, x);
    RunningFinish(Dispatch(b, i, x), i);
    if !r.AX? {
      SetRegister16Keeps(once, r, s.regs.ax, AX);
    }
    forall q: Register16 | !q.AX? && q != r && !q.IP?
      ensures GetRegister16(swapped, q) == GetRegister16(s.regs, q)
    {
      SetRegister16Keeps(s.regs, AX, GetRegister16(s.regs, r), q);
      SetRegister16Keeps(once, r, s.regs.ax, q);
    }
  }

  /** `XCHG AX, AX` (0x90) is NOP: it changes nothing but IP. */
  lemma NopOutcome(s: CpuState, i: Instruction, x: Externals)
    requires i.opcode == 0x90 && Plain(i) && Running(s)
    ensures var st := Execute(s, i, x);
      && SameExceptIp(st.state.regs, s.regs)
      && st.state.regs.ip == NextIp(s.regs.ip, i.size)
      && st.state.flags == s.flags
      && st.state.stackWrites == s.stackWrites
      && st.result.Okay?
  {
    PlainBegin(s, i);
    var b := Begun(s);
    XchgAxDispatch(b, i, x);
    RunningFinish(Dispatch(b, i, x), i);
  }

  /** JMP through the 0xFE group reads one byte and jumps to offset 0xFF00 | byte: the
      byte becomes the low half of IP and the high half is 0xFF. */
  lemma JmpByteOutcome(s: CpuState, i: Instruction, x: Externals)
    requires i.opcode == 0xFE && i.mnemonic.JMP? && Running(s)
    ensures var st := Execute(s, i, x);
      var b := ReadOperand8(s.regs, i.operand1, x);
      && High(st.state.regs.ip) == 0xFF && Low(st.state.regs.ip) == b
      && SameExceptIp(st.state.regs, s.regs)
      && st.result.OkayJump?
  {
    PlainBegin(s, i);
    var b := Begun(s);
    JmpByteDispatch(b, i, x);
    RunningFinish(Dispatch(b, i, x), i);
  }

  /** `PUSH SP` pushes the value SP has after the push, SP - 2; any other register is
      pushed as it is. */
  lemma PushWordOutcome(s: CpuState, i: Instruction, x: Externals)
    requires i.opcode == 0xFF && i.mnemonic.PUSH? && i.operand1.Register16? && Running(s)
    ensures var st := Execute(s, i, x);
      var r := i.operand1.r16;
      && st.state.stackWrites
         == s.stackWrites + [PushedWord(if r.SP? then Wrap16(s.regs.sp - 2)
                                        else GetRegister16(s.regs, r))]
      && SameExceptIp(st.state.regs, s.regs)
      && st.result.Okay?
  {
    PlainBegin(s, i);
    var b := Begun(s);
    var r := i.operand1.r16;
    var w := if r.SP? then Wrap16(s.regs.sp - 2) else GetRegister16(s.regs, r);
    PushWordDispatch(b, i, x);
    RunningFinish(Dispatch(b, i, x), i);
  }

  // ---------------------------------------------------------------------------------
  // The end of the step.

  /** The result of a step follows a fixed priority: a halt with interrupts disabled first,
      then a jump, then a REP in progress, then an exception, and `Okay` otherwise. IP moves
      past the instruction only when no jump happened and no REP is in progress. */
  lemma ResultPriority(o: Outcome, i: Instruction)
    ensures var st := Finish(o, i);
      var stopped := o.s.halted && !o.s.flags.interrupt;
      && (st.result.Halt? <==> stopped)
      && (st.result.OkayJump? <==> !stopped && o.jump)
      && (st.result.OkayRep? <==> !stopped && !o.jump && o.s.inRep)
      && (st.result.ExceptionError? <==> !stopped && !o.jump && !o.s.inRep && o.exception == DivideError)
      && (st.state.regs.ip == if !o.s.inRep && !o.jump then NextIp(o.s.regs.ip, i.size) else o.s.regs.ip)
      && (st.state.repInit <==> st.result.OkayRep? || (o.s.inRep && o.s.repInit))
      && st.state == o.s.(regs := st.state.regs, repInit := st.state.repInit)
  {
  }

  /** A divide error outside a REP is reported as `ExceptionError(DivideError)`; with a REP
      prefix on the divide, the step reports `OkayRep` instead and the error goes unreported. */
  lemma DivideErrorReporting(s: CpuState, i: Instruction, x: Externals)
    requires (i.opcode == 0xF6 || i.opcode == 0xF7) && (i.mnemonic.DIV? || i.mnemonic.IDIV?)
    requires x.division.None? && Running(s)
    ensures !(i.rep1 || i.rep2) ==> Execute(s, i, x).result == ExceptionError(DivideError)
    ensures i.rep1 || i.rep2 ==> Execute(s, i, x).result == OkayRep
  {
    var b := BeginInstruction(s, i);
    assert !b.halted && b.inRep == (i.rep1 || i.rep2);
    DivideErrorDispatch(b, i, x);
  }
}
