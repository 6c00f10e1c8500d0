/** The execute step of the 8088 core: given the CPU state after decode and the decoded
    instruction, it applies the instruction's effect and classifies the step's result.

    The functions below state the step as a function of the old state; the `Cpu` class
    performs it field by field, and its method is proved to agree with `Execute`. */
module CpuExecute {
  import opened MachineInts
  import opened Wrappers
  import opened Cpu808x

  /** The opcode-specific part's effect: the new state, whether control was transferred
      (`jump`), and the exception raised, if any. */
  datatype Outcome = Outcome(s: CpuState, jump: bool, exception: CpuException)

  /** A whole execute step: the new state and the `ExecutionResult` returned. */
  datatype Step = Step(state: CpuState, result: ExecutionResult)

  function Continue(s: CpuState): Outcome { Outcome(s, false, NoException) }

  function Jumped(s: CpuState): Outcome { Outcome(s, true, NoException) }

  /** `ip.wrapping_add(size as u16)`: the offset of the next instruction. */
  function NextIp(ip: u16, size: u32): (r: u16)
    ensures ip + size % 0x1_0000 < 0x1_0000 ==> r == ip + size % 0x1_0000
    ensures ip + size % 0x1_0000 >= 0x1_0000 ==> r == ip + size % 0x1_0000 - 0x1_0000
  {
    Wrap16(ip + size % 0x1_0000)
  }

  /** The target of a relative jump: the displacement counts from the next instruction, and
      the sum wraps within the 64K code segment. */
  function RelativeTarget(ip: u16, disp: int, size: u32): (r: u16)
    ensures (r - (NextIp(ip, size) + disp)) % 0x1_0000 == 0
  {
    Wrap16(ip + disp + size % 0x1_0000)
  }

  /** `0xFF00 | b`: an offset on the top page of the segment, as the 8-bit forms of the
      0xFE group produce. */
  function HighPage(b: u8): (r: u16)
    ensures High(r) == 0xFF && Low(r) == b
  {
    0xFF00 + b
  }

  // ---------------------------------------------------------------------------------
  // Small state updates shared by many opcodes.

  function SetIp(s: CpuState, ip: u16): CpuState {
    s.(regs := s.regs.(ip := ip))
  }

  function SetReg8(s: CpuState, r: Register8, v: u8): CpuState {
    s.(regs := SetRegister8(s.regs, r, v))
  }

  function SetReg16(s: CpuState, r: Register16, v: u16): CpuState {
    s.(regs := SetRegister16(s.regs, r, v))
  }

  function SetFlag(s: CpuState, f: Flag, v: bool): CpuState {
    s.(flags := SetFlagState(s.flags, f, v))
  }

  /** A value handed to one of the stack push helpers. */
  function Pushed(s: CpuState, w: StackWrite): CpuState {
    s.(stackWrites := s.stackWrites + [w])
  }

  /** `push_register16(r)`: the register's current value is handed to the push helper. */
  function PushRegister(s: CpuState, r: Register16): CpuState {
    Pushed(s, PushedRegister(r, GetRegister16(s.regs, r)))
  }

  /** `decrement_register16(CX)`. */
  function DecrementCx(s: CpuState): CpuState {
    s.(regs := s.regs.(cx := Wrap16(s.regs.cx - 1)))
  }

  /** An 8-bit ALU or shift helper: its status flags are taken over and, unless the
      instruction only compares or tests, its result is written to operand 1. */
  function Alu8(s: CpuState, i: Instruction, x: Externals, write: bool): CpuState {
    var s1 := s.(flags := WithStatus(s.flags, x.aluFlags));
    if write then s1.(regs := WriteOperand8(s1.regs, i.operand1, x.alu8)) else s1
  }

  /** The 16-bit counterpart of `Alu8`. */
  function Alu16(s: CpuState, i: Instruction, x: Externals, write: bool): CpuState {
    var s1 := s.(flags := WithStatus(s.flags, x.aluFlags));
    if write then s1.(regs := WriteOperand16(s1.regs, i.operand1, x.alu16)) else s1
  }

  // ---------------------------------------------------------------------------------
  // Start of the step: trap delays, REP prefix, opcode-0 counter.

  /** The mnemonics a REP prefix turns into a plain repeat. */
  predicate IsRepeatedStringOp(m: Mnemonic) {
    m.STOSB? || m.STOSW? || m.LODSB? || m.LODSW? || m.MOVSB? || m.MOVSW?
  }

  /** The comparing string instructions, which REPNE and REPE tell apart. */
  predicate IsComparingStringOp(m: Mnemonic) {
    m.SCASB? || m.SCASW? || m.CMPSB? || m.CMPSW?
  }

  predicate IsMulDiv(m: Mnemonic) {
    m.MUL? || m.IMUL? || m.DIV? || m.IDIV?
  }

  /** The mnemonics of the 0xF6/0xF7 group. */
  predicate InGroupF6(m: Mnemonic) {
    m.TEST? || m.NOT? || m.NEG? || IsMulDiv(m)
  }

  /** The mnemonics of the 0xFE/0xFF group. */
  predicate InGroupFE(m: Mnemonic) {
    m.INC? || m.DEC? || m.CALL? || m.CALLF? || m.JMP? || m.JMPF? || m.PUSH?
  }

  /** The REP type a REP-prefixed instruction runs with, or `None` when the mnemonic does
      not take a REP prefix. */
  function RepTypeFor(m: Mnemonic, rep1: bool): Option<RepType> {
    if IsRepeatedStringOp(m) then Some(Rep)
    else if IsComparingStringOp(m) then Some(if rep1 then Repne else Repe)
    // A REP prefix on MUL/DIV negates the product or quotient.
    else if IsMulDiv(m) then Some(Rep)
    else None
  }

  function ClassifyRep(s: CpuState, i: Instruction): CpuState {
    if i.rep1 || i.rep2 then
      match RepTypeFor(i.mnemonic, i.rep1)
      case Some(t) => s.(repType := t, inRep := true, repMnemonic := i.mnemonic)
      case None => s
    else
      s
  }

  /** Too many 0x00 opcodes in a row mean execution has run into blank memory. */
  function CountOpcode0(s: CpuState, i: Instruction): CpuState {
    if i.opcode == 0x00 then
      var count := Wrap32(s.opcode0Counter + 1);
      if s.offRailsDetection && count > 5 then
        s.(opcode0Counter := count, flags := SetFlagState(s.flags, Interrupt, false), halted := true)
      else
        s.(opcode0Counter := count)
    else
      s.(opcode0Counter := 0)
  }

  function BeginInstruction(s: CpuState, i: Instruction): CpuState {
    var s1 := s.(trapEnableDelay := SaturatingDecrement(s.trapEnableDelay),
                 trapDisableDelay := SaturatingDecrement(s.trapDisableDelay));
    CountOpcode0(ClassifyRep(s1, i), i)
  }

  // ---------------------------------------------------------------------------------
  // The opcode-specific part, row by row of the opcode map.

  /** The condition tested by the short conditional jumps, by the low nibble of the opcode. */
  function JumpCondition(cc: nat, f: Flags): bool
    requires cc < 16
  {
    match cc
    case 0x0 => f.overflow                                   // JO
    case 0x1 => !f.overflow                                  // JNO
    case 0x2 => f.carry                                      // JB
    case 0x3 => !f.carry                                     // JNB
    case 0x4 => f.zero                                       // JZ
    case 0x5 => !f.zero                                      // JNZ
    case 0x6 => f.carry || f.zero                            // JBE
    case 0x7 => !f.carry && !f.zero                          // JNBE
    case 0x8 => f.sign                                       // JS
    case 0x9 => !f.sign                                      // JNS
    case 0xA => f.parity                                     // JP
    case 0xB => !f.parity                                    // JNP
    case 0xC => f.sign != f.overflow                         // JL
    case 0xD => f.sign == f.overflow                         // JNL
    case 0xE => f.zero || f.sign != f.overflow               // JLE
    case _ => !f.zero && f.sign == f.overflow                // JNLE
  }

  /** The instructions `execute_instruction` does not handle: the LOCK and REP prefix bytes,
      which never reach it, and group opcodes whose decoded mnemonic is outside the group. */
  predicate Unhandled(i: Instruction) {
    i.opcode == 0xF0 || i.opcode == 0xF2 || i.opcode == 0xF3
    || ((i.opcode == 0xF6 || i.opcode == 0xF7)
        && !InGroupF6(i.mnemonic))
    || ((i.opcode == 0xFE || i.opcode == 0xFF)
        && !InGroupFE(i.mnemonic))
  }

  /** 0x00-0x3F: ALU operations, segment register push/pop, prefixes, BCD adjusts, CMP. */
  function Opcodes00To3F(s: CpuState, i: Instruction, x: Externals): Outcome
    requires i.opcode < 0x40
  {
    var op := i.opcode;
    if op < 0x38 && op % 8 < 6 then
      Continue(if op % 2 == 0 then Alu8(s, i, x, true) else Alu16(s, i, x, true))
    else if op == 0x06 then Continue(PushRegister(s, ES))
    else if op == 0x07 then Continue(SetReg16(s, ES, x.popped))
    else if op == 0x0E then Continue(PushRegister(s, CS))
    else if op == 0x0F then Continue(SetReg16(s, CS, x.popped))
    else if op == 0x16 then Continue(PushRegister(s, SS))
    else if op == 0x17 then Continue(SetReg16(s, SS, x.popped))
    else if op == 0x1E then Continue(PushRegister(s, DS))
    else if op == 0x1F then Continue(SetReg16(s, DS, x.popped))
    else if op == 0x38 || op == 0x3A || op == 0x3C then Continue(Alu8(s, i, x, false))
    else if op == 0x39 || op == 0x3B || op == 0x3D then Continue(Alu16(s, i, x, false))
    // 0x26, 0x2E, 0x36, 0x3E: segment override prefixes; 0x27, 0x2F, 0x37, 0x3F: DAA, DAS,
    // AAA, AAS, whose adjustment helpers are not part of this model.
    else Continue(s)
  }

  /** 0x40-0x5F: INC/DEC/PUSH/POP on the register the low three bits select. */
  function Opcodes40To5F(s: CpuState, i: Instruction, x: Externals): Outcome
    requires 0x40 <= i.opcode < 0x60
  {
    var op := i.opcode;
    if op < 0x50 then Continue(Alu16(s, i, x, true))
    else if op < 0x58 then Continue(PushRegister(s, Register16Lut(op % 8)))
    else Continue(SetReg16(s, Register16Lut(op % 8), x.popped))
  }

  /** 0x60-0x7F: the short conditional jumps (0x60-0x6F are aliases of 0x70-0x7F). */
  function ShortJump(s: CpuState, i: Instruction, x: Externals): Outcome
    requires 0x60 <= i.opcode < 0x80
  {
    var taken := JumpCondition(i.opcode % 16, s.flags);
    var rel8 := ReadOperand8(s.regs, i.operand1, x);
    if taken then Outcome(SetIp(s, RelativeTarget(s.regs.ip, AsI8(rel8), i.size)), true, NoException)
    else Outcome(s, false, NoException)
  }

  /** 0x80-0x9F: immediate ALU group, TEST, XCHG, MOV, LEA, POP r/m, XCHG AX, CALLF, PUSHF. */
  function Opcodes80To9F(s: CpuState, i: Instruction, x: Externals): Outcome
    requires 0x80 <= i.opcode < 0xA0
  {
    var op := i.opcode;
    var regs := s.regs;
    if op == 0x80 || op == 0x82 then Continue(Alu8(s, i, x, !i.mnemonic.CMP?))
    else if op == 0x81 || op == 0x83 then Continue(Alu16(s, i, x, !i.mnemonic.CMP?))
    else if op == 0x84 then Continue(Alu8(s, i, x, false))
    else if op == 0x85 then Continue(Alu16(s, i, x, false))
    else if op == 0x86 then
      // Operand 2 is written first, so that a register named twice ends with operand 2's value.
      var v1 := ReadOperand8(regs, i.operand1, x);
      var v2 := ReadOperand8(regs, i.operand2, x);
      Continue(s.(regs := WriteOperand8(WriteOperand8(regs, i.operand2, v1), i.operand1, v2)))
    else if op == 0x87 then
      var v1 := ReadOperand16(regs, i.operand1, x);
      var v2 := ReadOperand16(regs, i.operand2, x);
      Continue(s.(regs := WriteOperand16(WriteOperand16(regs, i.operand2, v1), i.operand1, v2)))
    else if op == 0x88 || op == 0x8A then
      Continue(s.(regs := WriteOperand8(regs, i.operand1, ReadOperand8(regs, i.operand2, x))))
    else if op == 0x89 || op == 0x8B || op == 0x8C || op == 0x8E then
      Continue(s.(regs := WriteOperand16(regs, i.operand1, ReadOperand16(regs, i.operand2, x))))
    else if op == 0x8D then
      // LEA with a register operand 2 loads the last effective address computed.
      var ea := match x.effectiveAddress case Some(v) => v case None => s.lastEa;
      Continue(s.(regs := WriteOperand16(regs, i.operand1, ea)))
    else if op == 0x8F then
      Continue(s.(regs := WriteOperand16(regs, i.operand1, x.popped)))
    else if op < 0x98 then
      // XCHG AX, r16
      var r := Register16Lut(op % 8);
      var axValue := regs.ax;
      var rValue := GetRegister16(regs, r);
      Continue(s.(regs := SetRegister16(SetRegister16(regs, AX, rValue), r, axValue)))
    else if op == 0x9A then
      // CALLF addr16:16
      var s1 := PushRegister(s, CS);
      var next := NextIp(regs.ip, i.size);
      var s2 := s1.(regs := s1.regs.(cs := x.farSegment, ip := x.farOffset));
      Jumped(Pushed(s2, PushedWord(next)))
    else if op == 0x9C then Continue(Pushed(s, PushedFlags(s.flags)))
    // 0x98 CBW, 0x99 CWD, 0x9B WAIT, 0x9D POPF, 0x9E SAHF, 0x9F LAHF: helpers not part of
    // this model.
    else Continue(s)
  }

  /** The string instructions: when the REP-start helper lets the instruction run and a
      REP prefix is active, CX counts down by one. */
  function StringInstruction(s: CpuState, x: Externals): CpuState {
    if x.repStart && s.inRep then DecrementCx(s) else s
  }

  /** 0xA0-0xBF: MOV with a direct offset, string instructions, TEST A, MOV immediate. */
  function OpcodesA0ToBF(s: CpuState, i: Instruction, x: Externals): Outcome
    requires 0xA0 <= i.opcode < 0xC0
  {
    var op := i.opcode;
    var regs := s.regs;
    if op == 0xA0 then Continue(SetReg8(s, AL, ReadOperand8(regs, i.operand2, x)))
    else if op == 0xA1 then Continue(SetReg16(s, AX, ReadOperand16(regs, i.operand2, x)))
    else if op == 0xA2 then Continue(s.(regs := WriteOperand8(regs, i.operand1, Low(regs.ax))))
    else if op == 0xA3 then Continue(s.(regs := WriteOperand16(regs, i.operand1, regs.ax)))
    else if op == 0xA8 then Continue(Alu8(s, i, x, false))
    else if op == 0xA9 then Continue(Alu16(s, i, x, false))
    else if op < 0xB0 then Continue(StringInstruction(s, x))
    else if op < 0xB8 then
      Continue(if i.operand1.Register8? then SetReg8(s, i.operand1.r8, ReadOperand8(regs, i.operand2, x)) else s)
    else
      Continue(if i.operand1.Register16? then SetReg16(s, i.operand1.r16, ReadOperand16(regs, i.operand2, x)) else s)
  }

  /** 0xC0-0xDF: near and far returns, LES/LDS, MOV r/m immediate, INT, shifts, AAM/AAD,
      SALC, XLAT, ESC. */
  function OpcodesC0ToDF(s: CpuState, i: Instruction, x: Externals): Outcome
    requires 0xC0 <= i.opcode < 0xE0
  {
    var op := i.opcode;
    var regs := s.regs;
    if op < 0xC4 then Jumped(SetIp(s, x.popped))
    else if op == 0xC4 then
      Continue(s.(regs := WriteOperand16(regs, i.operand1, x.farOffset).(es := x.farSegment)))
    else if op == 0xC5 then
      Continue(s.(regs := WriteOperand16(regs, i.operand1, x.farOffset).(ds := x.farSegment)))
    else if op == 0xC6 then Continue(s.(regs := WriteOperand8(regs, i.operand1, ReadOperand8(regs, i.operand2, x))))
    else if op == 0xC7 then Continue(s.(regs := WriteOperand16(regs, i.operand1, ReadOperand16(regs, i.operand2, x))))
    else if op < 0xCC then Jumped(s)
    else if op == 0xCC || op == 0xCD then Jumped(SetIp(s, NextIp(regs.ip, i.size)))
    else if op == 0xCE then
      if s.flags.overflow then Jumped(SetIp(s, NextIp(regs.ip, i.size))) else Continue(s)
    else if op == 0xCF then Jumped(s)
    else if op == 0xD0 || op == 0xD2 then Continue(Alu8(s, i, x, true))
    else if op == 0xD1 || op == 0xD3 then Continue(Alu16(s, i, x, true))
    else if op == 0xD4 then
      Outcome(s, false, if x.division.None? then DivideError else NoException)
    else if op == 0xD6 then Continue(SetReg8(s, AL, if s.flags.carry then 0xFF else 0x00))
    else if op == 0xD7 then Continue(SetReg8(s, AL, x.memByte))
    // 0xD5 AAD and 0xD8-0xDF ESC: no effect on the modelled state.
    else Continue(s)
  }

  /** 0xE0-0xEF: LOOPNE, LOOPE, LOOP, JCXZ, IN/OUT, CALL, JMP near/far/short. */
  function OpcodesE0ToEF(s: CpuState, i: Instruction, x: Externals): Outcome
    requires 0xE0 <= i.opcode < 0xF0
  {
    var op := i.opcode;
    var regs := s.regs;
    if op == 0xE0 || op == 0xE1 then
      var s1 := DecrementCx(s);
      var zeroCondition := if op == 0xE1 then s.flags.zero else !s.flags.zero;
      var rel8 := ReadOperand8(s1.regs, i.operand1, x);
      if s1.regs.cx != 0 && zeroCondition then Jumped(SetIp(s1, RelativeTarget(regs.ip, AsI8(rel8), i.size)))
      else Continue(s1)
    else if op == 0xE2 then
      var s1 := DecrementCx(s);
      var rel8 := ReadOperand8(s1.regs, i.operand1, x);
      if s1.regs.cx != 0 then Jumped(SetIp(s1, RelativeTarget(regs.ip, AsI8(rel8), i.size)))
      else Continue(s1)
    else if op == 0xE3 then
      var rel8 := ReadOperand8(regs, i.operand1, x);
      if regs.cx == 0 then Jumped(SetIp(s, RelativeTarget(regs.ip, AsI8(rel8), i.size)))
      else Continue(s)
    else if op == 0xE4 || op == 0xEC then Continue(SetReg8(s, AL, x.ioByte))
    else if op == 0xE5 || op == 0xED then Continue(SetReg16(s, AX, x.ioByte))
    else if op == 0xE8 then
      var rel16 := ReadOperand16(regs, i.operand1, x);
      var next := NextIp(regs.ip, i.size);
      var newIp := RelativeTarget(regs.ip, AsI16(rel16), i.size);
      Jumped(Pushed(SetIp(s, newIp), PushedWord(next)))
    else if op == 0xE9 then
      var rel16 := ReadOperand16(regs, i.operand1, x);
      Jumped(SetIp(s, RelativeTarget(regs.ip, AsI16(rel16), i.size)))
    else if op == 0xEA then
      Jumped(s.(regs := regs.(cs := x.farSegment, ip := x.farOffset)))
    else if op == 0xEB then
      var rel8 := ReadOperand8(regs, i.operand1, x);
      Jumped(SetIp(s, RelativeTarget(regs.ip, AsI8(rel8), i.size)))
    // 0xE6, 0xE7, 0xEE, 0xEF: OUT goes to the bus.
    else Continue(s)
  }

  /** 0xF6: TEST/NOT/NEG/MUL/IMUL/DIV/IDIV on a byte. */
  function GroupF6(s: CpuState, i: Instruction, x: Externals): Outcome
    requires InGroupF6(i.mnemonic)
  {
    match i.mnemonic
    case TEST => Continue(Alu8(s, i, x, false))
    case NOT | NEG => Continue(Alu8(s, i, x, true))
    case MUL | IMUL => Continue(SetReg16(s, AX, x.alu16).(flags := WithStatus(s.flags, x.aluFlags)))
    case _ =>
      match x.division
      case Some(q) => Continue(SetReg8(SetReg8(s, AL, Low(q.quotient)), AH, Low(q.remainder)))
      case None => Outcome(s, false, DivideError)
  }

  /** 0xF7: TEST/NOT/NEG/MUL/IMUL/DIV/IDIV on a word. */
  function GroupF7(s: CpuState, i: Instruction, x: Externals): Outcome
    requires InGroupF6(i.mnemonic)
  {
    match i.mnemonic
    case TEST => Continue(Alu16(s, i, x, false))
    case NOT | NEG => Continue(Alu16(s, i, x, true))
    case MUL | IMUL =>
      Continue(SetReg16(SetReg16(s, DX, x.aluHigh16), AX, x.alu16).(flags := WithStatus(s.flags, x.aluFlags)))
    case _ =>
      match x.division
      case Some(q) => Continue(SetReg16(SetReg16(s, AX, q.quotient), DX, q.remainder))
      case None => Outcome(s, false, DivideError)
  }

  /** 0xFE: INC/DEC on a byte, and the 8-bit forms of CALL, CALLF, JMP, JMPF and PUSH that a
      real 8088 executes: they move only one byte, and a byte taken as an offset or a segment
      lands on the top page, 0xFF00 | byte. */
  function GroupFE(s: CpuState, i: Instruction, x: Externals): Outcome
    requires InGroupFE(i.mnemonic)
  {
    var regs := s.regs;
    var next := NextIp(regs.ip, i.size);
    match i.mnemonic
    case CALL =>
      if i.operand1.AddressingMode? then
        var ptr8 := ReadOperand8(regs, i.operand1, x);
        Jumped(SetIp(Pushed(s, PushedByte(Low(next))), HighPage(ptr8)))
      else if i.operand1.Register8? then
        Jumped(SetIp(Pushed(s, PushedByte(Low(next))), GetRegister16(regs, Reg8To16(i.operand1.r8))))
      else Jumped(s)
    case CALLF =>
      if i.operand1.AddressingMode? then
        var s1 := Pushed(s, PushedByte(Low(regs.cs)));
        var s2 := s1.(regs := s1.regs.(cs := HighPage(x.memByte2), ip := HighPage(x.memByte)));
        Jumped(Pushed(s2, PushedByte(Low(next))))
      else if i.operand1.Register8? then
        var s1 := Pushed(Pushed(s, PushedByte(Low(regs.cs))), PushedByte(Low(next)));
        Continue(SetIp(s1, GetRegister16(regs, Reg8To16(i.operand1.r8))))
      else Continue(s)
    case JMP =>
      Jumped(SetIp(s, HighPage(ReadOperand8(regs, i.operand1, x))))
    case JMPF =>
      if i.operand1.AddressingMode? then
        Jumped(s.(regs := regs.(cs := HighPage(x.memByte2), ip := HighPage(x.memByte))))
      else if i.operand1.Register8? then
        Continue(SetIp(s, GetRegister16(regs, Reg8To16(i.operand1.r8))))
      else Continue(s)
    case PUSH => Continue(Pushed(s, PushedByte(ReadOperand8(regs, i.operand1, x))))
    case _ => Continue(Alu8(s, i, x, true))
  }

  /** 0xFF: INC/DEC, CALL, CALLF, JMP, JMPF and PUSH on a word operand. */
  function GroupFF(s: CpuState, i: Instruction, x: Externals): Outcome
    requires InGroupFE(i.mnemonic)
  {
    var regs := s.regs;
    var next := NextIp(regs.ip, i.size);
    match i.mnemonic
    case CALL =>
      if i.operand1.AddressingMode? then
        Jumped(Pushed(SetIp(s, ReadOperand16(regs, i.operand1, x)), PushedWord(next)))
      else if i.operand1.Register16? then
        Jumped(Pushed(SetIp(s, GetRegister16(regs, i.operand1.r16)), PushedWord(next)))
      else Jumped(s)
    case CALLF =>
      if i.operand1.AddressingMode? then
        var s1 := PushRegister(s, CS);
        var s2 := s1.(regs := s1.regs.(cs := x.farSegment, ip := x.farOffset));
        Jumped(Pushed(s2, PushedWord(next)))
      else if i.operand1.Register16? then
        // The invalid register form loads CS from the word at offset 4 and keeps IP.
        var s1 := PushRegister(s, CS);
        Jumped(Pushed(s1.(regs := s1.regs.(cs := x.segmentWord)), PushedWord(next)))
      else Jumped(s)
    case JMP =>
      Jumped(SetIp(s, ReadOperand16(regs, i.operand1, x)))
    case JMPF =>
      if i.operand1.AddressingMode? then
        Jumped(s.(regs := regs.(cs := x.farSegment, ip := x.farOffset)))
      else
        Jumped(s.(regs := regs.(cs := x.segmentWord)))
    case PUSH =>
      var value := ReadOperand16(regs, i.operand1, x);
      // PUSH SP pushes the value SP has after the push.
      Continue(Pushed(s, PushedWord(if i.operand1.Register16? && i.operand1.r16.SP? then Wrap16(value - 2) else value)))
    case _ => Continue(Alu16(s, i, x, true))
  }

  /** 0xF0-0xFF: HLT, CMC, the flag instructions, and the groups. */
  function OpcodesF0ToFF(s: CpuState, i: Instruction, x: Externals): Outcome
    requires 0xF0 <= i.opcode && !Unhandled(i)
  {
    var op := i.opcode;
    if op == 0xF4 then Continue(s.(halted := true))
    else if op == 0xF5 then Continue(SetFlag(s, Carry, !s.flags.carry))
    else if op == 0xF6 then GroupF6(s, i, x)
    else if op == 0xF7 then GroupF7(s, i, x)
    else if op == 0xF8 then Continue(SetFlag(s, Carry, false))
    else if op == 0xF9 then Continue(SetFlag(s, Carry, true))
    else if op == 0xFA then Continue(SetFlag(s, Interrupt, false))
    else if op == 0xFB then Continue(SetFlag(s, Interrupt, true))
    else if op == 0xFC then Continue(SetFlag(s, Direction, false))
    else if op == 0xFD then Continue(SetFlag(s, Direction, true))
    else if op == 0xFE then GroupFE(s, i, x)
    else if op == 0xFF then GroupFF(s, i, x)
    // 0xF1: does nothing.
    else Continue(s)
  }

  function Dispatch(s: CpuState, i: Instruction, x: Externals): Outcome
    requires !Unhandled(i)
  {
    var op := i.opcode;
    if op < 0x40 then Opcodes00To3F(s, i, x)
    else if op < 0x60 then Opcodes40To5F(s, i, x)
    else if op < 0x80 then ShortJump(s, i, x)
    else if op < 0xA0 then Opcodes80To9F(s, i, x)
    else if op < 0xC0 then OpcodesA0ToBF(s, i, x)
    else if op < 0xE0 then OpcodesC0ToDF(s, i, x)
    else if op < 0xF0 then OpcodesE0ToEF(s, i, x)
    else OpcodesF0ToFF(s, i, x)
  }

  // ---------------------------------------------------------------------------------
  // End of the step.

  /** Outside a REP, `rep_init` is cleared and, unless control was transferred, IP moves to
      the next instruction. The result is, in priority order: `Halt` when halted with
      interrupts disabled, `OkayJump`, `OkayRep` (which sets `rep_init`), and otherwise the
      exception or `Okay`. */
  function Finish(o: Outcome, i: Instruction): Step {
    var s := o.s;
    var s1 :=
      if !s.inRep then
        s.(repInit := false, regs := if !o.jump then s.regs.(ip := NextIp(s.regs.ip, i.size)) else s.regs)
      else s;
    if s1.halted && !s1.flags.interrupt then Step(s1, Halt)
    else if o.jump then Step(s1, OkayJump)
    else if s1.inRep then Step(s1.(repInit := true), OkayRep)
    else Step(s1, match o.exception case DivideError => ExceptionError(DivideError) case NoException => Okay)
  }

  /** `execute_instruction`: one whole step. */
  function Execute(s: CpuState, i: Instruction, x: Externals): Step
    requires !Unhandled(i)
  {
    Finish(Dispatch(BeginInstruction(s, i), i, x), i)
  }

  // ---------------------------------------------------------------------------------
  // The CPU object: the same step, performed on its fields.

  class Cpu {
    var regs: Registers
    var flags: Flags
    var repType: RepType
    var inRep: bool
    var repInit: bool
    var repMnemonic: Mnemonic
    var opcode0Counter: u32
    var offRailsDetection: bool
    var halted: bool
    var trapEnableDelay: u32
    var trapDisableDelay: u32
    var lastEa: u16
    var stackWrites: seq<StackWrite>
    /** The decoded instruction to execute. */
    var i: Instruction

    function State(): CpuState
      reads this
    {
      CpuState(regs, flags, repType, inRep, repInit, repMnemonic, opcode0Counter, offRailsDetection,
               halted, trapEnableDelay, trapDisableDelay, lastEa, stackWrites)
    }

    constructor (s: CpuState, decoded: Instruction)
      ensures State() == s && i == decoded
    {
      regs, flags := s.regs, s.flags;
      repType, inRep, repInit, repMnemonic := s.repType, s.inRep, s.repInit, s.repMnemonic;
      opcode0Counter, offRailsDetection, halted := s.opcode0Counter, s.offRailsDetection, s.halted;
      trapEnableDelay, trapDisableDelay := s.trapEnableDelay, s.trapDisableDelay;
      lastEa, stackWrites := s.lastEa, s.stackWrites;
      i := decoded;
    }

    method PushValue(w: StackWrite)
      modifies this
      ensures i == old(i) && State() == Pushed(old(State()), w)
    {
      stackWrites := stackWrites + [w];
    }

    method PushRegister16(r: Register16)
      modifies this
      ensures i == old(i) && State() == PushRegister(old(State()), r)
    {
      stackWrites := stackWrites + [PushedRegister(r, GetRegister16(regs, r))];
    }

    method DecrementCount()
      modifies this
      ensures i == old(i) && State() == DecrementCx(old(State()))
    {
      regs := regs.(cx := Wrap16(regs.cx - 1));
    }

    method AluOp8(x: Externals, write: bool)
      modifies this
      ensures i == old(i) && State() == Alu8(old(State()), i, x, write)
    {
      flags := WithStatus(flags, x.aluFlags);
      if write {
        regs := WriteOperand8(regs, i.operand1, x.alu8);
      }
    }

    method AluOp16(x: Externals, write: bool)
      modifies this
      ensures i == old(i) && State() == Alu16(old(State()), i, x, write)
    {
      flags := WithStatus(flags, x.aluFlags);
      if write {
        regs := WriteOperand16(regs, i.operand1, x.alu16);
      }
    }

    method ExecuteOpcodes00To3F(x: Externals) returns (jump: bool, exception: CpuException)
      requires i.opcode < 0x40
      modifies this
      ensures i == old(i)
      ensures Outcome(State(), jump, exception) == Opcodes00To3F(old(State()), i, x)
    {
      jump, exception := false, NoException;
      var op := i.opcode;
      if op < 0x38 && op % 8 < 6 {
        if op % 2 == 0 { AluOp8(x, true); } else { AluOp16(x, true); }
      } else if op == 0x06 {
        PushRegister16(ES);
      } else if op == 0x07 {
        regs := SetRegister16(regs, ES, x.popped);
      } else if op == 0x0E {
        PushRegister16(CS);
      } else if op == 0x0F {
        regs := SetRegister16(regs, CS, x.popped);
      } else if op == 0x16 {
        PushRegister16(SS);
      } else if op == 0x17 {
        regs := SetRegister16(regs, SS, x.popped);
      } else if op == 0x1E {
        PushRegister16(DS);
      } else if op == 0x1F {
        regs := SetRegister16(regs, DS, x.popped);
      } else if op == 0x38 || op == 0x3A || op == 0x3C {
        AluOp8(x, false);
      } else if op == 0x39 || op == 0x3B || op == 0x3D {
        AluOp16(x, false);
      }
    }

    method ExecuteOpcodes40To5F(x: Externals) returns (jump: bool, exception: CpuException)
      requires 0x40 <= i.opcode < 0x60
      modifies this
      ensures i == old(i)
      ensures Outcome(State(), jump, exception) == Opcodes40To5F(old(State()), i, x)
    {
      jump, exception := false, NoException;
      var op := i.opcode;
      if op < 0x50 {
        AluOp16(x, true);
      } else if op < 0x58 {
        var reg := Register16Lut(op % 8);
        PushRegister16(reg);
      } else {
        var reg := Register16Lut(op % 8);
        regs := SetRegister16(regs, reg, x.popped);
      }
    }

    method ExecuteShortJump(x: Externals) returns (jump: bool, exception: CpuException)
      requires 0x60 <= i.opcode < 0x80
      modifies this
      ensures i == old(i)
      ensures Outcome(State(), jump, exception) == ShortJump(old(State()), i, x)
    {
      exception := NoException;
      jump := JumpCondition(i.opcode % 16, flags);
      var rel8 := ReadOperand8(regs, i.operand1, x);
      if jump {
        var newIp := RelativeTarget(regs.ip, AsI8(rel8), i.size);
        regs := regs.(ip := newIp);
      }
    }

    method ExecuteOpcodes80To9F(x: Externals) returns (jump: bool, exception: CpuException)
      requires 0x80 <= i.opcode < 0xA0
      modifies this
      ensures i == old(i)
      ensures Outcome(State(), jump, exception) == Opcodes80To9F(old(State()), i, x)
    {
      jump, exception := false, NoException;
      var op := i.opcode;
      if op == 0x80 || op == 0x82 {
        AluOp8(x, !i.mnemonic.CMP?);
      } else if op == 0x81 || op == 0x83 {
        AluOp16(x, !i.mnemonic.CMP?);
      } else if op == 0x84 {
        AluOp8(x, false);
      } else if op == 0x85 {
        AluOp16(x, false);
      } else if op == 0x86 {
        var op1Value := ReadOperand8(regs, i.operand1, x);
        var op2Value := ReadOperand8(regs, i.operand2, x);
        regs := WriteOperand8(regs, i.operand2, op1Value);
        regs := WriteOperand8(regs, i.operand1, op2Value);
      } else if op == 0x87 {
        var op1Value := ReadOperand16(regs, i.operand1, x);
        var op2Value := ReadOperand16(regs, i.operand2, x);
        regs := WriteOperand16(regs, i.operand2, op1Value);
        regs := WriteOperand16(regs, i.operand1, op2Value);
      } else if op == 0x88 || op == 0x8A {
        var opValue := ReadOperand8(regs, i.operand2, x);
        regs := WriteOperand8(regs, i.operand1, opValue);
      } else if op == 0x89 || op == 0x8B || op == 0x8C || op == 0x8E {
        var opValue := ReadOperand16(regs, i.operand2, x);
        regs := WriteOperand16(regs, i.operand1, opValue);
      } else if op == 0x8D {
        match x.effectiveAddress {
          case Some(value) => regs := WriteOperand16(regs, i.operand1, value);
          case None => regs := WriteOperand16(regs, i.operand1, lastEa);
        }
      } else if op == 0x8F {
        regs := WriteOperand16(regs, i.operand1, x.popped);
      } else if op < 0x98 {
        var opReg := Register16Lut(op % 8);
        var axValue := regs.ax;
        var opRegValue := GetRegister16(regs, opReg);
        regs := SetRegister16(regs, AX, opRegValue);
        regs := SetRegister16(regs, opReg, axValue);
      } else if op == 0x9A {
        PushRegister16(CS);
        var next := NextIp(regs.ip, i.size);
        regs := regs.(cs := x.farSegment, ip := x.farOffset);
        PushValue(PushedWord(next));
        jump := true;
      } else if op == 0x9C {
        PushValue(PushedFlags(flags));
      }
    }

    method ExecuteStringInstruction(x: Externals)
      modifies this
      ensures i == old(i) && State() == StringInstruction(old(State()), x)
    {
      if x.repStart {
        if inRep {
          DecrementCount();
        }
      }
    }

    method ExecuteOpcodesA0ToBF(x: Externals) returns (jump: bool, exception: CpuException)
      requires 0xA0 <= i.opcode < 0xC0
      modifies this
      ensures i == old(i)
      ensures Outcome(State(), jump, exception) == OpcodesA0ToBF(old(State()), i, x)
    {
      jump, exception := false, NoException;
      var op := i.opcode;
      if op == 0xA0 {
        regs := SetRegister8(regs, AL, ReadOperand8(regs, i.operand2, x));
      } else if op == 0xA1 {
        regs := SetRegister16(regs, AX, ReadOperand16(regs, i.operand2, x));
      } else if op == 0xA2 {
        regs := WriteOperand8(regs, i.operand1, Low(regs.ax));
      } else if op == 0xA3 {
        regs := WriteOperand16(regs, i.operand1, regs.ax);
      } else if op == 0xA8 {
        AluOp8(x, false);
      } else if op == 0xA9 {
        AluOp16(x, false);
      } else if op < 0xB0 {
        ExecuteStringInstruction(x);
      } else if op < 0xB8 {
        var opValue := ReadOperand8(regs, i.operand2, x);
        if i.operand1.Register8? {
          regs := SetRegister8(regs, i.operand1.r8, opValue);
        }
      } else {
        var opValue := ReadOperand16(regs, i.operand2, x);
        if i.operand1.Register16? {
          regs := SetRegister16(regs, i.operand1.r16, opValue);
        }
      }
    }

    method ExecuteOpcodesC0ToDF(x: Externals) returns (jump: bool, exception: CpuException)
      requires 0xC0 <= i.opcode < 0xE0
      modifies this
      ensures i == old(i)
      ensures Outcome(State(), jump, exception) == OpcodesC0ToDF(old(State()), i, x)
    {
      jump, exception := false, NoException;
      var op := i.opcode;
      if op < 0xC4 {
        regs := regs.(ip := x.popped);
        jump := true;
      } else if op == 0xC4 {
        regs := WriteOperand16(regs, i.operand1, x.farOffset);
        regs := regs.(es := x.farSegment);
      } else if op == 0xC5 {
        regs := WriteOperand16(regs, i.operand1, x.farOffset);
        regs := regs.(ds := x.farSegment);
      } else if op == 0xC6 {
        var opValue := ReadOperand8(regs, i.operand2, x);
        regs := WriteOperand8(regs, i.operand1, opValue);
      } else if op == 0xC7 {
        var opValue := ReadOperand16(regs, i.operand2, x);
        regs := WriteOperand16(regs, i.operand1, opValue);
      } else if op < 0xCC {
        jump := true;
      } else if op == 0xCC || op == 0xCD {
        regs := regs.(ip := NextIp(regs.ip, i.size));
        jump := true;
      } else if op == 0xCE {
        if GetFlag(flags, Overflow) {
          regs := regs.(ip := NextIp(regs.ip, i.size));
          jump := true;
        }
      } else if op == 0xCF {
        jump := true;
      } else if op == 0xD0 || op == 0xD2 {
        AluOp8(x, true);
      } else if op == 0xD1 || op == 0xD3 {
        AluOp16(x, true);
      } else if op == 0xD4 {
        if x.division.None? {
          exception := DivideError;
        }
      } else if op == 0xD6 {
        regs := SetRegister8(regs, AL, if GetFlag(flags, Carry) then 0xFF else 0x00);
      } else if op == 0xD7 {
        regs := SetRegister8(regs, AL, x.memByte);
      }
    }

    method ExecuteOpcodesE0ToEF(x: Externals) returns (jump: bool, exception: CpuException)
      requires 0xE0 <= i.opcode < 0xF0
      modifies this
      ensures i == old(i)
      ensures Outcome(State(), jump, exception) == OpcodesE0ToEF(old(State()), i, x)
    {
      jump, exception := false, NoException;
      var op := i.opcode;
      var ip := regs.ip;
      if op == 0xE0 || op == 0xE1 {
        DecrementCount();
        var zeroCondition := !GetFlag(flags, Zero);
        if op == 0xE1 {
          zeroCondition := !zeroCondition;
        }
        var rel8 := ReadOperand8(regs, i.operand1, x);
        if regs.cx != 0 && zeroCondition {
          regs := regs.(ip := RelativeTarget(ip, AsI8(rel8), i.size));
          jump := true;
        }
      } else if op == 0xE2 {
        DecrementCount();
        var rel8 := ReadOperand8(regs, i.operand1, x);
        if regs.cx != 0 {
          regs := regs.(ip := RelativeTarget(ip, AsI8(rel8), i.size));
          jump := true;
        }
      } else if op == 0xE3 {
        var rel8 := ReadOperand8(regs, i.operand1, x);
        if regs.cx == 0 {
          regs := regs.(ip := RelativeTarget(ip, AsI8(rel8), i.size));
          jump := true;
        }
      } else if op == 0xE4 || op == 0xEC {
        regs := SetRegister8(regs, AL, x.ioByte);
      } else if op == 0xE5 || op == 0xED {
        regs := SetRegister16(regs, AX, x.ioByte);
      } else if op == 0xE8 {
        var rel16 := ReadOperand16(regs, i.operand1, x);
        var next := NextIp(ip, i.size);
        var newIp := RelativeTarget(ip, AsI16(rel16), i.size);
        regs := regs.(ip := newIp);
        PushValue(PushedWord(next));
        jump := true;
      } else if op == 0xE9 {
        var rel16 := ReadOperand16(regs, i.operand1, x);
        regs := regs.(ip := RelativeTarget(ip, AsI16(rel16), i.size));
        jump := true;
      } else if op == 0xEA {
        regs := regs.(cs := x.farSegment, ip := x.farOffset);
        jump := true;
      } else if op == 0xEB {
        var rel8 := ReadOperand8(regs, i.operand1, x);
        regs := regs.(ip := RelativeTarget(ip, AsI8(rel8), i.size));
        jump := true;
      }
    }

    method ExecuteGroupF6(x: Externals) returns (jump: bool, exception: CpuException)
      requires InGroupF6(i.mnemonic)
      modifies this
      ensures i == old(i)
      ensures Outcome(State(), jump, exception) == GroupF6(old(State()), i, x)
    {
      jump, exception := false, NoException;
      if i.mnemonic.TEST? {
        AluOp8(x, false);
      } else if i.mnemonic.NOT? || i.mnemonic.NEG? {
        AluOp8(x, true);
      } else if i.mnemonic.MUL? || i.mnemonic.IMUL? {
        regs := SetRegister16(regs, AX, x.alu16);
        flags := WithStatus(flags, x.aluFlags);
      } else if x.division.Some? {
        var q := x.division.value;
        regs := SetRegister8(regs, AL, Low(q.quotient));
        regs := SetRegister8(regs, AH, Low(q.remainder));
      } else {
        exception := DivideError;
      }
    }

    method ExecuteGroupF7(x: Externals) returns (jump: bool, exception: CpuException)
      requires InGroupF6(i.mnemonic)
      modifies this
      ensures i == old(i)
      ensures Outcome(State(), jump, exception) == GroupF7(old(State()), i, x)
    {
      jump, exception := false, NoException;
      if i.mnemonic.TEST? {
        AluOp16(x, false);
      } else if i.mnemonic.NOT? || i.mnemonic.NEG? {
        AluOp16(x, true);
      } else if i.mnemonic.MUL? || i.mnemonic.IMUL? {
        regs := SetRegister16(regs, DX, x.aluHigh16);
        regs := SetRegister16(regs, AX, x.alu16);
        flags := WithStatus(flags, x.aluFlags);
      } else if x.division.Some? {
        var q := x.division.value;
        regs := SetRegister16(regs, AX, q.quotient);
        regs := SetRegister16(regs, DX, q.remainder);
      } else {
        exception := DivideError;
      }
    }

    /** The near and far calls of the 0xFE group. */
    method ExecuteCallFE(x: Externals) returns (jump: bool, exception: CpuException)
      requires i.mnemonic.CALL? || i.mnemonic.CALLF?
      modifies this
      ensures i == old(i)
      ensures Outcome(State(), jump, exception) == GroupFE(old(State()), i, x)
    {
      jump, exception := false, NoException;
      if i.mnemonic.CALL? {
        if i.operand1.AddressingMode? {
          var ptr8 := ReadOperand8(regs, i.operand1, x);
          var next := NextIp(regs.ip, i.size);
          PushValue(PushedByte(Low(next)));
          regs := regs.(ip := HighPage(ptr8));
        } else if i.operand1.Register8? {
          var next := NextIp(regs.ip, i.size);
          PushValue(PushedByte(Low(next)));
          regs := regs.(ip := GetRegister16(regs, Reg8To16(i.operand1.r8)));
        }
        jump := true;
      } else if i.operand1.AddressingMode? {
        var offset := x.memByte;
        var segment := x.memByte2;
        PushValue(PushedByte(Low(regs.cs)));
        var next := NextIp(regs.ip, i.size);
        regs := regs.(cs := HighPage(segment), ip := HighPage(offset));
        PushValue(PushedByte(Low(next)));
        jump := true;
      } else if i.operand1.Register8? {
        PushValue(PushedByte(Low(regs.cs)));
        var next := NextIp(regs.ip, i.size);
        PushValue(PushedByte(Low(next)));
        regs := regs.(ip := GetRegister16(regs, Reg8To16(i.operand1.r8)));
      }
    }

    method ExecuteGroupFE(x: Externals) returns (jump: bool, exception: CpuException)
      requires InGroupFE(i.mnemonic)
      modifies this
      ensures i == old(i)
      ensures Outcome(State(), jump, exception) == GroupFE(old(State()), i, x)
    {
      jump, exception := false, NoException;
      if i.mnemonic.INC? || i.mnemonic.DEC? {
        AluOp8(x, true);
      } else if i.mnemonic.CALL? || i.mnemonic.CALLF? {
        jump, exception := ExecuteCallFE(x);
      } else if i.mnemonic.JMP? {
        var ptr8 := ReadOperand8(regs, i.operand1, x);
        regs := regs.(ip := HighPage(ptr8));
        jump := true;
      } else if i.mnemonic.JMPF? {
        if i.operand1.AddressingMode? {
          var offset := x.memByte;
          var segment := x.memByte2;
          regs := regs.(cs := HighPage(segment), ip := HighPage(offset));
          jump := true;
        } else if i.operand1.Register8? {
          regs := regs.(ip := GetRegister16(regs, Reg8To16(i.operand1.r8)));
        }
      } else {
        var opValue := ReadOperand8(regs, i.operand1, x);
        PushValue(PushedByte(opValue));
      }
    }

    /** The near and far calls of the 0xFF group. */
    method ExecuteCallFF(x: Externals) returns (jump: bool, exception: CpuException)
      requires i.mnemonic.CALL? || i.mnemonic.CALLF?
      modifies this
      ensures i == old(i)
      ensures Outcome(State(), jump, exception) == GroupFF(old(State()), i, x)
    {
      jump, exception := true, NoException;
      if i.mnemonic.CALL? {
        if i.operand1.AddressingMode? {
          var ptr16 := ReadOperand16(regs, i.operand1, x);
          var next := NextIp(regs.ip, i.size);
          regs := regs.(ip := ptr16);
          PushValue(PushedWord(next));
        } else if i.operand1.Register16? {
          var next := NextIp(regs.ip, i.size);
          regs := regs.(ip := GetRegister16(regs, i.operand1.r16));
          PushValue(PushedWord(next));
        }
      } else if i.operand1.AddressingMode? {
        var segment, offset := x.farSegment, x.farOffset;
        PushRegister16(CS);
        var next := NextIp(regs.ip, i.size);
        regs := regs.(cs := segment, ip := offset);
        PushValue(PushedWord(next));
      } else if i.operand1.Register16? {
        var segment := x.segmentWord;
        PushRegister16(CS);
        var next := NextIp(regs.ip, i.size);
        regs := regs.(cs := segment);
        PushValue(PushedWord(next));
      }
    }

    method ExecuteGroupFF(x: Externals) returns (jump: bool, exception: CpuException)
      requires InGroupFE(i.mnemonic)
      modifies this
      ensures i == old(i)
      ensures Outcome(State(), jump, exception) == GroupFF(old(State()), i, x)
    {
      jump, exception := false, NoException;
      if i.mnemonic.INC? || i.mnemonic.DEC? {
        AluOp16(x, true);
      } else if i.mnemonic.CALL? || i.mnemonic.CALLF? {
        jump, exception := ExecuteCallFF(x);
      } else if i.mnemonic.JMP? {
        var ptr16 := ReadOperand16(regs, i.operand1, x);
        regs := regs.(ip := ptr16);
        jump := true;
      } else if i.mnemonic.JMPF? {
        if i.operand1.AddressingMode? {
          regs := regs.(cs := x.farSegment, ip := x.farOffset);
        } else {
          regs := regs.(cs := x.segmentWord);
        }
        jump := true;
      } else {
        var opValue := ReadOperand16(regs, i.operand1, x);
        if i.operand1.Register16? && i.operand1.r16.SP? {
          opValue := Wrap16(opValue as int - 2);
        }
        PushValue(PushedWord(opValue));
      }
    }

    method ExecuteOpcodesF0ToFF(x: Externals) returns (jump: bool, exception: CpuException)
      requires 0xF0 <= i.opcode && !Unhandled(i)
      modifies this
      ensures i == old(i)
      ensures Outcome(State(), jump, exception) == OpcodesF0ToFF(old(State()), i, x)
    {
      jump, exception := false, NoException;
      var op := i.opcode;
      if op == 0xF4 {
        halted := true;
      } else if op == 0xF5 {
        var carryFlag := GetFlag(flags, Carry);
        flags := SetFlagState(flags, Carry, !carryFlag);
      } else if op == 0xF6 {
        jump, exception := ExecuteGroupF6(x);
      } else if op == 0xF7 {
        jump, exception := ExecuteGroupF7(x);
      } else if op == 0xF8 {
        flags := SetFlagState(flags, Carry, false);
      } else if op == 0xF9 {
        flags := SetFlagState(flags, Carry, true);
      } else if op == 0xFA {
        flags := SetFlagState(flags, Interrupt, false);
      } else if op == 0xFB {
        flags := SetFlagState(flags, Interrupt, true);
      } else if op == 0xFC {
        flags := SetFlagState(flags, Direction, false);
      } else if op == 0xFD {
        flags := SetFlagState(flags, Direction, true);
      } else if op == 0xFE {
        jump, exception := ExecuteGroupFE(x);
      } else if op == 0xFF {
        jump, exception := ExecuteGroupFF(x);
      }
    }

    /** The start of the step: the trap delay counters count down, a REP prefix is
        classified and the opcode-0 counter is updated. */
    method BeginStep()
      modifies this
      ensures i == old(i)
      ensures State() == BeginInstruction(old(State()), i)
    {
      trapEnableDelay := SaturatingDecrement(trapEnableDelay);
      trapDisableDelay := SaturatingDecrement(trapDisableDelay);
      ClassifyRepPrefix();
      CountZeroOpcodes();
    }

    method ClassifyRepPrefix()
      modifies this
      ensures i == old(i)
      ensures State() == ClassifyRep(old(State()), i)
    {
      if i.rep1 || i.rep2 {
        var invalidRep := false;
        if IsRepeatedStringOp(i.mnemonic) {
          repType := Rep;
        } else if IsComparingStringOp(i.mnemonic) {
          if i.rep1 {
            repType := Repne;
          } else {
            repType := Repe;
          }
        } else if IsMulDiv(i.mnemonic) {
          repType := Rep;
        } else {
          invalidRep := true;
        }
        if !invalidRep {
          inRep := true;
          repMnemonic := i.mnemonic;
        }
      }
    }

    method CountZeroOpcodes()
      modifies this
      ensures i == old(i)
      ensures State() == CountOpcode0(old(State()), i)
    {
      if i.opcode == 0x00 {
        opcode0Counter := Wrap32(opcode0Counter + 1);
        if offRailsDetection && opcode0Counter > 5 {
          flags := SetFlagState(flags, Interrupt, false);
          halted := true;
        }
      } else {
        opcode0Counter := 0;
      }
    }

    /** The opcode's own work, chosen by opcode range. */
    method DispatchOpcode(x: Externals) returns (jump: bool, exception: CpuException)
      requires !Unhandled(i)
      modifies this
      ensures i == old(i)
      ensures Outcome(State(), jump, exception) == Dispatch(old(State()), i, x)
    {
      var op := i.opcode;
      if op < 0x40 {
        jump, exception := ExecuteOpcodes00To3F(x);
      } else if op < 0x60 {
        jump, exception := ExecuteOpcodes40To5F(x);
      } else if op < 0x80 {
        jump, exception := ExecuteShortJump(x);
      } else if op < 0xA0 {
        jump, exception := ExecuteOpcodes80To9F(x);
      } else if op < 0xC0 {
        jump, exception := ExecuteOpcodesA0ToBF(x);
      } else if op < 0xE0 {
        jump, exception := ExecuteOpcodesC0ToDF(x);
      } else if op < 0xF0 {
        jump, exception := ExecuteOpcodesE0ToEF(x);
      } else {
        jump, exception := ExecuteOpcodesF0ToFF(x);
      }
    }

    /** The end of the step: outside a REP, rep_init is cleared and IP moves past the
        instruction unless control was transferred; then the result is chosen. */
    method FinishStep(jump: bool, exception: CpuException) returns (result: ExecutionResult)
      modifies this
      ensures i == old(i)
      ensures Step(State(), result) == Finish(Outcome(old(State()), jump, exception), i)
    {
      if !inRep {
        repInit := false;
        if !jump {
          regs := regs.(ip := NextIp(regs.ip, i.size));
        }
      }

      if halted && !GetFlag(flags, Interrupt) {
        result := Halt;
      } else if jump {
        result := OkayJump;
      } else if inRep {
        repInit := true;
        result := OkayRep;
      } else {
        match exception {
          case DivideError => result := ExceptionError(exception);
          case NoException => result := Okay;
        }
      }
    }

    /** `execute_instruction`: performs one step on the CPU's fields and returns the step's
        result, exactly as `Execute` describes it. */
    method ExecuteInstruction(x: Externals) returns (result: ExecutionResult)
      requires !Unhandled(i)
      modifies this
      ensures i == old(i)
      ensures Step(State(), result) == Execute(old(State()), i, x)
    {
      BeginStep();
      var jump, exception := DispatchOpcode(x);
      result := FinishStep(jump, exception);
    }
  }
}
