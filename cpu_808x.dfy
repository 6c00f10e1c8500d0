/** The 8088 CPU's data model as the execute step sees it: registers, flags, the decoded
    instruction, the REP bookkeeping, and the values that helpers defined outside the
    execute step (bus reads, ALU, stack pops, port input) hand back to it. */
module Cpu808x {
  import opened MachineInts
  import opened Wrappers

  datatype Register8 = AL | CL | DL | BL | AH | CH | DH | BH

  datatype Register16 = AX | CX | DX | BX | SP | BP | SI | DI | ES | CS | SS | DS | IP

  /** The 3-bit code of a general register in the 8088's register fields (AX, CX, DX, BX,
      SP, BP, SI, DI are 0 to 7); the segment registers and IP have none. */
  function RegisterCode(r: Register16): Option<nat> {
    match r
    case AX => Some(0) case CX => Some(1) case DX => Some(2) case BX => Some(3)
    case SP => Some(4) case BP => Some(5) case SI => Some(6) case DI => Some(7)
    case _ => None
  }

  /** The 16-bit register a 3-bit register field selects (`REGISTER16_LUT`): the general
      register whose code is the field, so the eight entries are distinct. */
  function Register16Lut(k: nat): (r: Register16)
    requires k < 8
    ensures RegisterCode(r) == Some(k)
    ensures !r.IP? && !r.ES? && !r.CS? && !r.SS? && !r.DS?
    ensures k == 0 <==> r.AX?
    ensures k == 4 <==> r.SP?
  {
    [AX, CX, DX, BX, SP, BP, SI, DI][k]
  }

  /** The 16-bit register that contains an 8-bit register (`reg8to16`). */
  function Reg8To16(r: Register8): (w: Register16)
    ensures (r.AL? || r.AH?) <==> w.AX?
    ensures (r.CL? || r.CH?) <==> w.CX?
    ensures (r.DL? || r.DH?) <==> w.DX?
    ensures (r.BL? || r.BH?) <==> w.BX?
  {
    match r
    case AL => AX case AH => AX
    case CL => CX case CH => CX
    case DL => DX case DH => DX
    case BL => BX case BH => BX
  }

  datatype Registers = Registers(
    ax: u16, bx: u16, cx: u16, dx: u16,
    sp: u16, bp: u16, si: u16, di: u16,
    cs: u16, ds: u16, es: u16, ss: u16,
    ip: u16)

  function GetRegister16(regs: Registers, r: Register16): u16 {
    match r
    case AX => regs.ax case BX => regs.bx case CX => regs.cx case DX => regs.dx
    case SP => regs.sp case BP => regs.bp case SI => regs.si case DI => regs.di
    case CS => regs.cs case DS => regs.ds case ES => regs.es case SS => regs.ss
    case IP => regs.ip
  }

  function SetRegister16(regs: Registers, r: Register16, v: u16): (out: Registers)
    ensures GetRegister16(out, r) == v
  {
    match r
    case AX => regs.(ax := v) case BX => regs.(bx := v) case CX => regs.(cx := v) case DX => regs.(dx := v)
    case SP => regs.(sp := v) case BP => regs.(bp := v) case SI => regs.(si := v) case DI => regs.(di := v)
    case CS => regs.(cs := v) case DS => regs.(ds := v) case ES => regs.(es := v) case SS => regs.(ss := v)
    case IP => regs.(ip := v)
  }

  /** Writing one 16-bit register leaves every other register as it was. */
  lemma SetRegister16Keeps(regs: Registers, r: Register16, v: u16, q: Register16)
    requires q != r
    ensures GetRegister16(SetRegister16(regs, r, v), q) == GetRegister16(regs, q)
  {
  }

  /** The low byte of a word (AL, CL, DL, BL). */
  function Low(w: u16): u8 { w % 0x100 }

  /** The high byte of a word (AH, CH, DH, BH). */
  function High(w: u16): u8 { w / 0x100 }

  predicate IsHighHalf(r: Register8) {
    r.AH? || r.CH? || r.DH? || r.BH?
  }

  /** An 8-bit register is one half of the 16-bit register that contains it. */
  function GetRegister8(regs: Registers, r: Register8): u8 {
    var w := GetRegister16(regs, Reg8To16(r));
    if IsHighHalf(r) then w / 0x100 else w % 0x100
  }

  /** The two 8-bit halves of AX, CX, DX and BX make up the word: high half times 0x100
      plus low half. */
  lemma HalvesMakeWord(regs: Registers)
    ensures GetRegister8(regs, AH) * 0x100 + GetRegister8(regs, AL) == regs.ax
    ensures GetRegister8(regs, CH) * 0x100 + GetRegister8(regs, CL) == regs.cx
    ensures GetRegister8(regs, DH) * 0x100 + GetRegister8(regs, DL) == regs.dx
    ensures GetRegister8(regs, BH) * 0x100 + GetRegister8(regs, BL) == regs.bx
  {
  }

  /** Writing an 8-bit register replaces one half of its 16-bit register and keeps the other
      half and every other register. */
  function SetRegister8(regs: Registers, r: Register8, v: u8): (out: Registers)
    ensures GetRegister8(out, r) == v
  {
    var w := GetRegister16(regs, Reg8To16(r));
    SetRegister16(regs, Reg8To16(r), if IsHighHalf(r) then v * 0x100 + w % 0x100 else w / 0x100 * 0x100 + v)
  }

  /** Writing one 8-bit register leaves every other 16-bit register as it was. */
  lemma SetRegister8Keeps16(regs: Registers, r: Register8, v: u8, q: Register16)
    requires q != Reg8To16(r)
    ensures GetRegister16(SetRegister8(regs, r, v), q) == GetRegister16(regs, q)
  {
    var w := GetRegister16(regs, Reg8To16(r));
    SetRegister16Keeps(regs, Reg8To16(r),
      if IsHighHalf(r) then v * 0x100 + w % 0x100 else w / 0x100 * 0x100 + v, q);
  }

  /** Writing one 8-bit register leaves every other 8-bit register, including the other
      half of the same 16-bit register, as it was. */
  lemma SetRegister8Keeps(regs: Registers, r: Register8, v: u8, q: Register8)
    requires q != r
    ensures GetRegister8(SetRegister8(regs, r, v), q) == GetRegister8(regs, q)
  {
    if Reg8To16(q) != Reg8To16(r) {
      SetRegister8Keeps16(regs, r, v, Reg8To16(q));
    }
  }

  datatype Flag = Carry | Parity | AuxCarry | Zero | Sign | Trap | Interrupt | Direction | Overflow

  datatype Flags = Flags(
    carry: bool, parity: bool, auxCarry: bool, zero: bool, sign: bool,
    trap: bool, interrupt: bool, direction: bool, overflow: bool)

  function GetFlag(f: Flags, flag: Flag): bool {
    match flag
    case Carry => f.carry case Parity => f.parity case AuxCarry => f.auxCarry
    case Zero => f.zero case Sign => f.sign case Trap => f.trap
    case Interrupt => f.interrupt case Direction => f.direction case Overflow => f.overflow
  }

  /** `set_flag_state`: one flag takes the given value and no other flag changes. */
  function SetFlagState(f: Flags, flag: Flag, v: bool): (r: Flags)
    ensures GetFlag(r, flag) == v
  {
    match flag
    case Carry => f.(carry := v) case Parity => f.(parity := v) case AuxCarry => f.(auxCarry := v)
    case Zero => f.(zero := v) case Sign => f.(sign := v) case Trap => f.(trap := v)
    case Interrupt => f.(interrupt := v) case Direction => f.(direction := v) case Overflow => f.(overflow := v)
  }

  /** Setting one flag leaves every other flag as it was. */
  lemma SetFlagStateKeeps(f: Flags, flag: Flag, v: bool, g: Flag)
    requires g != flag
    ensures GetFlag(SetFlagState(f, flag, v), g) == GetFlag(f, g)
  {
  }

  predicate IsStatusFlag(flag: Flag) {
    !flag.Trap? && !flag.Interrupt? && !flag.Direction?
  }

  /** The flags after an ALU helper ran: its status flags, with trap, interrupt and direction
      kept from before. */
  function WithStatus(f: Flags, alu: Flags): Flags {
    alu.(trap := f.trap, interrupt := f.interrupt, direction := f.direction)
  }

  /** After an ALU helper, the status flags are the helper's and the control flags are kept. */
  lemma WithStatusFlag(f: Flags, alu: Flags, g: Flag)
    ensures IsStatusFlag(g) ==> GetFlag(WithStatus(f, alu), g) == GetFlag(alu, g)
    ensures !IsStatusFlag(g) ==> GetFlag(WithStatus(f, alu), g) == GetFlag(f, g)
  {
  }

  datatype RepType = NoRep | Rep | Repne | Repe

  /** The mnemonics the execute step inspects; every other mnemonic is `OtherMnemonic`. */
  datatype Mnemonic =
    | ADD | OR | ADC | SBB | AND | SUB | XOR | CMP
    | INC | DEC | TEST | NOT | NEG | MUL | IMUL | DIV | IDIV
    | CALL | CALLF | JMP | JMPF | PUSH
    | MOVSB | MOVSW | CMPSB | CMPSW | SCASB | SCASW | LODSB | LODSW | STOSB | STOSW
    | OtherMnemonic

  /** A decoded operand. Immediate and relative operands carry their raw bits; a memory
      operand (a ModR/M addressing mode or a direct offset) is read through the bus. */
  datatype OperandType =
    | NoOperand
    | Immediate8(imm8: u8)
    | Immediate16(imm16: u16)
    | Relative8(rel8: u8)
    | Relative16(rel16: u16)
    | Offset(offset: u16)
    | Register8(r8: Register8)
    | Register16(r16: Register16)
    | AddressingMode

  predicate IsMemory(op: OperandType) {
    op.AddressingMode? || op.Offset?
  }

  /** The decoded instruction: `rep1` and `rep2` are the two REP prefix bits (REPNE/REPNZ
      and REP/REPE/REPZ), and `size` is the instruction's length in bytes. */
  datatype Instruction = Instruction(
    opcode: u8,
    mnemonic: Mnemonic,
    rep1: bool,
    rep2: bool,
    operand1: OperandType,
    operand2: OperandType,
    size: u32)

  /** The value the stack push helpers are handed, in push order. */
  datatype StackWrite =
    | PushedByte(byte: u8)
    | PushedWord(word: u16)
    | PushedRegister(reg: Register16, value: u16)
    | PushedFlags(flags: Flags)

  datatype CpuException = NoException | DivideError

  datatype ExecutionResult = Okay | OkayJump | OkayRep | ExceptionError(exception: CpuException) | Halt

  /** The CPU state the execute step reads and writes. */
  datatype CpuState = CpuState(
    regs: Registers,
    flags: Flags,
    repType: RepType,
    inRep: bool,
    repInit: bool,
    repMnemonic: Mnemonic,
    opcode0Counter: u32,
    offRailsDetection: bool,
    halted: bool,
    trapEnableDelay: u32,
    trapDisableDelay: u32,
    lastEa: u16,
    stackWrites: seq<StackWrite>)

  /** A quotient and remainder handed back by a successful division helper. */
  datatype Quotient = Quotient(quotient: u16, remainder: u16)

  /** The values that helpers outside the execute step return for this instruction: bus
      and port reads, stack pops, far pointers, the ALU's result and status flags, and the
      outcome of the division and REP-start helpers. */
  datatype Externals = Externals(
    memByte: u8,
    memByte2: u8,
    memWord: u16,
    segmentWord: u16,
    farSegment: u16,
    farOffset: u16,
    popped: u16,
    effectiveAddress: Option<u16>,
    ioByte: u8,
    alu8: u8,
    alu16: u16,
    aluHigh16: u16,
    aluFlags: Flags,
    division: Option<Quotient>,
    repStart: bool)

  /** `read_operand8` for the operand kinds an 8-bit instruction names. */
  function ReadOperand8(regs: Registers, op: OperandType, x: Externals): u8 {
    match op
    case Immediate8(v) => v
    case Relative8(v) => v
    case Register8(r) => GetRegister8(regs, r)
    case Offset(_) => x.memByte
    case AddressingMode => x.memByte
    case _ => 0
  }

  /** `read_operand16` for the operand kinds a 16-bit instruction names. */
  function ReadOperand16(regs: Registers, op: OperandType, x: Externals): u16 {
    match op
    case Immediate16(v) => v
    case Relative16(v) => v
    case Register16(r) => GetRegister16(regs, r)
    case Offset(_) => x.memWord
    case AddressingMode => x.memWord
    case _ => 0
  }

  /** `write_operand8`: a register operand takes the value; a memory write goes to the bus. */
  function WriteOperand8(regs: Registers, op: OperandType, v: u8): (out: Registers)
    ensures op.Register8? ==> GetRegister8(out, op.r8) == v
    ensures !op.Register8? ==> out == regs
  {
    match op
    case Register8(r) => SetRegister8(regs, r, v)
    case _ => regs
  }

  /** `write_operand16`: a register operand takes the value; a memory write goes to the bus. */
  function WriteOperand16(regs: Registers, op: OperandType, v: u16): (out: Registers)
    ensures op.Register16? ==> GetRegister16(out, op.r16) == v
    ensures !op.Register16? ==> out == regs
  {
    match op
    case Register16(r) => SetRegister16(regs, r, v)
    case _ => regs
  }

  /** Writing an 8-bit register operand leaves every other 8-bit register, and every word
      register but the one containing it, as it was. */
  lemma WriteOperand8Frame(regs: Registers, op: OperandType, v: u8)
    requires op.Register8?
    ensures forall q: Register8 :: q != op.r8 ==>
      GetRegister8(WriteOperand8(regs, op, v), q) == GetRegister8(regs, q)
    ensures forall q: Register16 :: q != Reg8To16(op.r8) ==>
      GetRegister16(WriteOperand8(regs, op, v), q) == GetRegister16(regs, q)
  {
    forall q: Register8 | q != op.r8
      ensures GetRegister8(WriteOperand8(regs, op, v), q) == GetRegister8(regs, q)
    {
      SetRegister8Keeps(regs, op.r8, v, q);
    }
    forall q: Register16 | q != Reg8To16(op.r8)
      ensures GetRegister16(WriteOperand8(regs, op, v), q) == GetRegister16(regs, q)
    {
      SetRegister8Keeps16(regs, op.r8, v, q);
    }
  }

  /** Writing a 16-bit register operand leaves every other register as it was. */
  lemma WriteOperand16Frame(regs: Registers, op: OperandType, v: u16)
    requires op.Register16?
    ensures forall q: Register16 :: q != op.r16 ==>
      GetRegister16(WriteOperand16(regs, op, v), q) == GetRegister16(regs, q)
  {
    forall q: Register16 | q != op.r16
      ensures GetRegister16(WriteOperand16(regs, op, v), q) == GetRegister16(regs, q)
    {
      SetRegister16Keeps(regs, op.r16, v, q);
    }
  }
}
