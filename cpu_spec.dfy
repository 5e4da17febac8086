/** The CPU of `GBEmulator/Gameboy.cpp` as a state machine on values: the
    register file, flags, interrupt bytes, counters and the 64 KiB memory
    image, and `Step`, one call of `CPU::step`. The imperative class in
    module `Cpu` is proved to change its fields exactly as `Step` says. */
module CpuSpec {
  import opened Bits
  import opened Hardware
  import opened Registers
  import opened Alu
  import opened Wrappers
  import ShiftOps

  /** `OP_CYCLES`: the cycle cost charged for each opcode (one row per high nibble). */
  const OP_CYCLES: seq<seq<u8>> := [
    //  0  1  2  3  4  5  6  7  8  9  A  B  C  D  E  F
    [ 4,12, 8, 8, 4, 4, 8, 4,20, 8, 8, 8, 4, 4, 8, 4],   // 0x00
    [ 4,12, 8, 8, 4, 4, 8, 4, 8, 8, 8, 8, 4, 4, 8, 4],   // 0x10
    [ 8,12, 8, 8, 4, 4, 8, 4, 8, 8, 8, 8, 4, 4, 8, 4],   // 0x20
    [ 8,12, 8, 8,12,12,12, 4, 8, 8, 8, 8, 4, 4, 8, 4],   // 0x30
    [ 4, 4, 4, 4, 4, 4, 8, 4, 4, 4, 4, 4, 4, 4, 8, 4],   // 0x40
    [ 4, 4, 4, 4, 4, 4, 8, 4, 4, 4, 4, 4, 4, 4, 8, 4],   // 0x50
    [ 4, 4, 4, 4, 4, 4, 8, 4, 4, 4, 4, 4, 4, 4, 8, 4],   // 0x60
    [ 8, 8, 8, 8, 8, 8, 4, 8, 4, 4, 4, 4, 4, 4, 8, 4],   // 0x70
    [ 4, 4, 4, 4, 4, 4, 8, 4, 4, 4, 4, 4, 4, 4, 8, 4],   // 0x80
    [ 4, 4, 4, 4, 4, 4, 8, 4, 4, 4, 4, 4, 4, 4, 8, 4],   // 0x90
    [ 4, 4, 4, 4, 4, 4, 8, 4, 4, 4, 4, 4, 4, 4, 8, 4],   // 0xA0
    [ 4, 4, 4, 4, 4, 4, 8, 4, 4, 4, 4, 4, 4, 4, 8, 4],   // 0xB0
    [ 8,12,12,12,12,16, 8,32, 8, 8,12, 8,12,12, 8,32],   // 0xC0
    [ 8,12,12, 0,12,16, 8,32, 8, 8,12, 0,12, 0, 8,32],   // 0xD0
    [12,12, 8, 0, 0,16, 8,32,16, 4,16, 0, 0, 0, 8,32],   // 0xE0
    [12,12, 8, 4, 0,16, 8,32,12, 8,16, 4, 0, 0, 8,32]    // 0xF0
  ]

  /** `OP_CYCLES[op]`. No opcode costs more than 32 cycles. */
  function OpCycles(op: u8): (c: u8)
    ensures c <= 32
  {
    OP_CYCLES[op / 0x10][op % 0x10]
  }

  /** The interrupt classes of `enum class INTERRUPTS` and their IF bit numbers. */
  datatype Interrupt = VBlank | LcdStat | Timer {
    function Number(): nat {
      match this
      case VBlank => 0
      case LcdStat => 1
      case Timer => 2
    }
  }

  /** `CPU::set_interrupt_flag`: `IF |= 1 << intrpt`, the same formula as
      SET. Exactly the class's bit becomes 1; every other bit is kept. */
  function RaiseInterrupt(iflag: u8, i: Interrupt): (r: u8)
    ensures forall k: nat :: Bit(r, k) == if k == i.Number() then 1 else Bit(iflag, k)
  {
    ShiftOps.SetBit(iflag, i.Number())
  }

  /** What an instruction can touch: register A, the pairs BC, DE and HL,
      SP, PC, the flags FZ, FN, FH and FC, IME, and the shared memory map. */
  datatype Core = Core(
    a: u8, bc: Pair, de: Pair, hl: Pair, sp: u16, pc: u16,
    f: Flags, ime: u8, mem: Memory)

  /** All fields of class CPU: the core, IE and IF, `cycle_count` (64
      bits), `lcd_count` (32 bits) and `ready_for_render`. */
  datatype State = State(
    core: Core, ie: u8, iflag: u8,
    cycleCount: u64, lcdCount: u32, readyForRender: bool)

  /** `memory_map[PC++]`: the byte at PC (the caller advances PC). */
  function Imm8(s: Core): u8 {
    Read(s.mem, s.pc)
  }

  /** `lo | hi << 8` on two bytes: the 16-bit value with that high and low
      byte (JoinAsWritten shows the two agree). */
  function Join(lo: u8, hi: u8): u16 {
    Pair(hi, lo).Word()
  }

  /** The source's `lo | hi << 8` is the word of the pair (hi, lo). */
  lemma JoinAsWritten(lo: u8, hi: u8)
    ensures Or(lo, Shl(hi, 8)) == Join(lo, hi)
  {
    assert Pow2(8) == 0x100;
    ShlIsMul(hi, 8);
    ShiftOps.OrAbove8(lo, hi);
  }

  /** `NN = memory_map[PC++]; NN |= memory_map[PC++] << 8`: the two operand
      bytes after the opcode, low byte first. */
  function Imm16(s: Core): u16 {
    Join(Read(s.mem, s.pc), Read(s.mem, Wrap16(s.pc + 1)))
  }

  /** `memory_map[--SP] = hi; memory_map[--SP] = lo;` */
  function Push(s: Core, hi: u8, lo: u8): Core {
    var sp1 := Wrap16(s.sp - 1);
    var sp2 := Wrap16(s.sp - 2);
    s.(mem := Write(Write(s.mem, sp1, hi), sp2, lo), sp := sp2)
  }

  /** `NN = memory_map[SP++]; NN |= memory_map[SP++] << 8;` */
  function Popped(s: Core): u16 {
    Join(Read(s.mem, s.sp), Read(s.mem, Wrap16(s.sp + 1)))
  }

  /** RET: PC is popped. */
  function Return(s: Core): Core {
    s.(pc := Popped(s), sp := Wrap16(s.sp + 2))
  }

  /** RET cc: `if (cc) { PC = NN popped }`. */
  function ReturnIf(s: Core, cond: bool): Core {
    if cond then Return(s) else s
  }

  /** POP rr: `RP.b8[LO] = memory_map[SP++]; RP.b8[HI] = memory_map[SP++];` */
  function PoppedPair(s: Core): Pair {
    Pair(Read(s.mem, Wrap16(s.sp + 1)), Read(s.mem, s.sp))
  }

  /** CALL nn (0xCD): the target is read, the address of the next
      instruction is pushed high byte first, and PC jumps. */
  function Call(s: Core): Core {
    var target := Imm16(s);
    var past := s.(pc := Wrap16(s.pc + 2));
    var ret := FromWord(past.pc);
    Push(past, ret.hi, ret.lo).(pc := target)
  }

  /** ADC A, n (0xCE): `RA + n + FC` with the flags of `Alu.Add`. */
  function AdcImmediate(s: Core): Core {
    WithA(s.(pc := Wrap16(s.pc + 1)), Add(s.a, Imm8(s), s.f.c))
  }

  /** JR cc, e: `SN = (int8_t)memory_map[PC++]; if (cc) PC += SN;` on the
      16-bit PC. */
  function JumpRelativeIf(s: Core, cond: bool): Core {
    var e := Signed(Imm8(s));
    var next := Wrap16(s.pc + 1);
    s.(pc := if cond then Wrap16(next + e) else next)
  }

  /** The byte PUSH AF stores for the flags: `FZ<<7 | FN<<6 | FH<<5 | FC<<4`,
      computed on `int` and truncated to 8 bits. */
  function PackFlags(f: Flags): u8 {
    Wrap8(Or(Or(Or(f.z * 0x80, f.n * 0x40), f.h * 0x20), f.c * 0x10))
  }

  /** DAA (0x27) as written: `D1 = RA >> 4` and `D2 = RA & 0x0F` are
      corrected and then dropped, so A never changes. Only C can change: it
      is set after a subtraction (FN set) when the corrected high digit
      `D1`, wrapped as a byte, exceeds 9. As a condition on A: below 0x60
      when C was set, at least 0xA0 when it was not. */
  function DaaFlags(a: u8, f: Flags): (r: Flags)
    ensures r == if f.n != 0 && (if f.c != 0 then a < 0x60 else a >= 0xA0) then f.(c := 1) else f
  {
    var d1 := a / 0x10;
    if f.n != 0 then
      var d1' := if f.c != 0 then Wrap8(d1 - 6) else d1;
      if d1' > 9 then f.(c := 1) else f
    else f
  }

  /** The byte a prefixed operation works on: `R = op & 7` selects B, C, D,
      E, H, L, the byte at HL, or A. */
  function CbTarget(s: Core, r: nat): u8
    requires r < 8
  {
    match r
    case 0 => s.bc.hi
    case 1 => s.bc.lo
    case 2 => s.de.hi
    case 3 => s.de.lo
    case 4 => s.hl.hi
    case 5 => s.hl.lo
    case 6 => Read(s.mem, s.hl.Word())
    case 7 => s.a
  }

  /** The write-back to the same target. */
  function SetCbTarget(s: Core, r: nat, v: u8): Core
    requires r < 8
  {
    match r
    case 0 => s.(bc := s.bc.(hi := v))
    case 1 => s.(bc := s.bc.(lo := v))
    case 2 => s.(de := s.de.(hi := v))
    case 3 => s.(de := s.de.(lo := v))
    case 4 => s.(hl := s.hl.(hi := v))
    case 5 => s.(hl := s.hl.(lo := v))
    case 6 => s.(mem := Write(s.mem, s.hl.Word(), v))
    case 7 => s.(a := v)
  }

  /** `CPU::shift_operation_CB`: fetch the second opcode byte, read the
      target, apply the operation, write the byte back unless it was BIT. */
  function ShiftOperationCB(s: Core): Core {
    var op := Imm8(s);
    var s1 := s.(pc := Wrap16(s.pc + 1));
    var target := op % 8;
    var res := ShiftOps.Apply(op, CbTarget(s1, target), s1.f);
    var s2 := s1.(f := res.f);
    if res.writeback then SetCbTarget(s2, target, res.value) else s2
  }

  function WithA(s: Core, r: AluResult): Core {
    s.(a := r.value, f := r.f)
  }

  /** `0xFF00 | n`: the address `n` bytes into the last page. */
  function HighPage(n: u8): u16 {
    0xFF00 + n
  }

  /** The source's `0xFF00 | n` is the address `n` bytes into the last page. */
  lemma HighPageAsWritten(n: u8)
    ensures Or(0xFF00, n) == HighPage(n)
  {
    ShiftOps.OrAbove8(n, 0xFF);
  }

  /** The address 0xE2 stores to, `0xFF | C`: the low byte already has
      every bit set, so this is 0xFF whatever C is (LowPageAsWritten). */
  function LowPage(n: u8): u16 {
    0xFF
  }

  /** The source's `0xFF | n` is 0xFF for every byte `n`, not `0xFF00 + n`. */
  lemma LowPageAsWritten(n: u8)
    ensures Or(0xFF, n) == LowPage(n)
    ensures n != 0 ==> Or(0xFF, n) != HighPage(n)
  {
    assert Pow2(8) - 1 == 0xFF && Pow2(8) == 0x100;
    OrOfOnes(n, 8);
  }

  /** RLA (0x17): `RA = RA << 1 | FC` on `int`, stored back into a byte. */
  function RotateA(a: u8, c: u8): u8 {
    Wrap8(Or(a * 2, c))
  }

  /** With C holding 0 or 1, RLA's byte is A shifted left with C in bit 0
      and the old bit 7 dropped. */
  lemma RotateAValue(a: u8, c: u8)
    requires c <= 1
    ensures RotateA(a, c) == (a % 0x80) * 2 + c
  {
    ShiftOps.OrBelow1(a, c);
    var x := a * 2 + c;
    var q, r := a / 0x80, (a % 0x80) * 2 + c;
    assert x == q * 0x100 + r;
    DivUnique(x, 0x100, q, r);
    assert Wrap8(x) == r;
  }

  /** RLA (0x17) on the registers: A is rotated through the carry, Z, N and
      H are cleared and C takes the old bit 7. */
  function RotateLeftA(s: Core): Core {
    s.(a := RotateA(s.a, s.f.c), f := Flags(0, 0, 0, (s.a / 0x80) % 2))
  }

  /** CCF (0x3F): `FC = FC ^ 0x1`, which flips bit 0 of the flag byte. */
  function ComplementCarry(c: u8): u8 {
    if c % 2 == 1 then c - 1 else c + 1
  }

  /** The source's `FC ^ 0x1` flips bit 0: 0 and 1 swap, and a flag byte
      holding some other value keeps its upper bits. */
  lemma ComplementCarryAsWritten(c: u8)
    ensures Xor(c, 1) == ComplementCarry(c)
    ensures c <= 1 ==> ComplementCarry(c) == 1 - c
  {
    LowBitOps(c);
  }

  /** The body of the `switch (op)` in `CPU::step`: `s.pc` already points
      past the opcode. `None` is the `default` case, an opcode the source
      does not implement. The cases are grouped by the opcode's high nibble,
      one function per group, so that each definition stays small. */
  function Execute(s: Core, op: u8): Option<Core> {
    match op / 0x10
    case 0x0 => ExecuteRow0(s, op)
    case 0x1 => ExecuteRow1(s, op)
    case 0x2 => ExecuteRow2(s, op)
    case 0x3 => ExecuteRow3(s, op)
    case 0x4 => ExecuteRow4(s, op)
    case 0x5 => ExecuteRow5(s, op)
    case 0x6 => ExecuteRow6(s, op)
    case 0x7 => ExecuteRow7(s, op)
    case 0x8 => ExecuteRow8(s, op)
    case 0x9 => ExecuteRow9(s, op)
    case 0xA => ExecuteRowA(s, op)
    case 0xB => ExecuteRowB(s, op)
    case 0xC => ExecuteRowC(s, op)
    case 0xD => ExecuteRowD(s, op)
    case 0xE => ExecuteRowE(s, op)
    case 0xF => ExecuteRowF(s, op)
  }

  /** `RP.b8[LO] = memory_map[PC++]; RP.b8[HI] = memory_map[PC++];` */
  function LoadPair(s: Core): Pair {
    Pair(Read(s.mem, Wrap16(s.pc + 1)), Imm8(s))
  }

  /** The implemented opcodes 0x00 to 0x0F. */
  function ExecuteRow0(s: Core, op: u8): Option<Core> {
    match op
    case 0x00 => Some(s)
    case 0x01 => Some(s.(bc := LoadPair(s), pc := Wrap16(s.pc + 2)))
    case 0x02 => Some(s.(mem := Write(s.mem, s.bc.Word(), s.a)))
    case 0x04 => var r := Inc(s.bc.hi, s.f); Some(s.(bc := s.bc.(hi := r.value), f := r.f))
    case 0x05 => var r := DecB(s.bc.hi, s.f); Some(s.(bc := s.bc.(hi := r.value), f := r.f))
    case 0x06 => Some(s.(bc := s.bc.(hi := Imm8(s)), pc := Wrap16(s.pc + 1)))
    case 0x0C => var r := Inc(s.bc.lo, s.f); Some(s.(bc := s.bc.(lo := r.value), f := r.f))
    case 0x0D => var r := Dec(s.bc.lo, s.f); Some(s.(bc := s.bc.(lo := r.value), f := r.f))
    case 0x0E => Some(s.(bc := s.bc.(lo := Imm8(s)), pc := Wrap16(s.pc + 1)))
    case _ => None
  }

  /** The implemented opcodes 0x10 to 0x1F. */
  function ExecuteRow1(s: Core, op: u8): Option<Core> {
    match op
    case 0x11 => Some(s.(de := LoadPair(s), pc := Wrap16(s.pc + 2)))
    case 0x13 => Some(s.(de := FromWord(Wrap16(s.de.Word() + 1))))
    case 0x15 => var r := Dec(s.de.hi, s.f); Some(s.(de := s.de.(hi := r.value), f := r.f))
    case 0x16 => Some(s.(de := s.de.(hi := Imm8(s)), pc := Wrap16(s.pc + 1)))
    case 0x17 => Some(RotateLeftA(s))
    case 0x18 => Some(JumpRelativeIf(s, true))
    case 0x1A => Some(s.(a := Read(s.mem, s.de.Word())))
    case 0x1D => var r := Dec(s.de.lo, s.f); Some(s.(de := s.de.(lo := r.value), f := r.f))
    case 0x1E => Some(s.(de := s.de.(lo := Imm8(s)), pc := Wrap16(s.pc + 1)))
    case _ => None
  }

  /** The implemented opcodes 0x20 to 0x2F. */
  function ExecuteRow2(s: Core, op: u8): Option<Core> {
    match op
    case 0x20 => Some(JumpRelativeIf(s, s.f.z == 0))
    case 0x21 => Some(s.(hl := LoadPair(s), pc := Wrap16(s.pc + 2)))
    case 0x22 => Some(s.(mem := Write(s.mem, s.hl.Word(), s.a), hl := FromWord(Wrap16(s.hl.Word() + 1))))
    case 0x23 => Some(s.(hl := FromWord(Wrap16(s.hl.Word() + 1))))
    case 0x24 => var r := Inc(s.hl.hi, s.f); Some(s.(hl := s.hl.(hi := r.value), f := r.f))
    case 0x27 => Some(s.(f := DaaFlags(s.a, s.f)))
    case 0x28 => Some(JumpRelativeIf(s, s.f.z != 0))
    case 0x2E => Some(s.(hl := s.hl.(lo := Imm8(s)), pc := Wrap16(s.pc + 1)))
    case _ => None
  }

  /** The implemented opcodes 0x30 to 0x3F. */
  function ExecuteRow3(s: Core, op: u8): Option<Core> {
    match op
    case 0x31 => Some(s.(sp := Imm16(s), pc := Wrap16(s.pc + 2)))
    case 0x32 => Some(s.(mem := Write(s.mem, s.hl.Word(), s.a), hl := FromWord(Wrap16(s.hl.Word() - 1))))
    case 0x3C => Some(WithA(s, Inc(s.a, s.f)))
    case 0x3D => Some(WithA(s, Dec(s.a, s.f)))
    case 0x3E => Some(s.(a := Imm8(s), pc := Wrap16(s.pc + 1)))
    case 0x3F => Some(s.(f := s.f.(n := 0, h := 0, c := ComplementCarry(s.f.c))))
    case _ => None
  }

  /** The implemented opcodes 0x40 to 0x4F. */
  function ExecuteRow4(s: Core, op: u8): Option<Core> {
    match op
    case 0x47 => Some(s.(bc := s.bc.(hi := s.a)))
    case 0x4F => Some(s.(bc := s.bc.(lo := s.a)))
    case _ => None
  }

  /** The implemented opcodes 0x50 to 0x5F. */
  function ExecuteRow5(s: Core, op: u8): Option<Core> {
    match op
    case 0x57 => Some(s.(de := s.de.(hi := s.a)))
    case 0x58 => Some(s.(de := s.de.(lo := s.bc.hi)))
    case 0x59 => Some(s.(de := s.de.(lo := s.de.hi)))
    case _ => None
  }

  /** The implemented opcodes 0x60 to 0x6F. */
  function ExecuteRow6(s: Core, op: u8): Option<Core> {
    match op
    case 0x66 => Some(s.(hl := s.hl.(hi := Read(s.mem, s.hl.Word()))))
    case 0x67 => Some(s.(hl := s.hl.(hi := s.a)))
    case _ => None
  }

  /** The implemented opcodes 0x70 to 0x7F. */
  function ExecuteRow7(s: Core, op: u8): Option<Core> {
    match op
    case 0x77 => Some(s.(mem := Write(s.mem, s.hl.Word(), s.a)))
    case 0x78 => Some(s.(a := s.bc.hi))
    case 0x7B => Some(s.(a := s.de.lo))
    case 0x7C => Some(s.(a := s.hl.hi))
    case 0x7D => Some(s.(a := s.hl.lo))
    case 0x7E => Some(s.(a := Read(s.mem, s.hl.Word())))
    case _ => None
  }

  /** The implemented opcodes 0x80 to 0x8F. */
  function ExecuteRow8(s: Core, op: u8): Option<Core> {
    match op
    case 0x86 => Some(WithA(s, Add(s.a, Read(s.mem, s.hl.Word()), 0)))
    case _ => None
  }

  /** The implemented opcodes 0x90 to 0x9F. */
  function ExecuteRow9(s: Core, op: u8): Option<Core> {
    match op
    case 0x90 => Some(WithA(s, Sub(s.a, s.bc.hi)))
    case _ => None
  }

  /** The implemented opcodes 0xA0 to 0xAF. */
  function ExecuteRowA(s: Core, op: u8): Option<Core> {
    match op
    case 0xA7 => Some(s.(f := AndSelfFlags(s.a)))
    case 0xAF => Some(WithA(s, XorSelf()))
    case _ => None
  }

  /** The implemented opcodes 0xB0 to 0xBF. */
  function ExecuteRowB(s: Core, op: u8): Option<Core> {
    match op
    case 0xB7 => Some(s.(f := OrSelfFlags(s.a)))
    case 0xBE => Some(s.(f := Sub(s.a, Read(s.mem, s.hl.Word())).f))
    case _ => None
  }

  /** The implemented opcodes 0xC0 to 0xCF. */
  function ExecuteRowC(s: Core, op: u8): Option<Core> {
    match op
    case 0xC0 => Some(ReturnIf(s, s.f.z == 0))
    case 0xC1 => Some(s.(bc := PoppedPair(s), sp := Wrap16(s.sp + 2)))
    case 0xC3 => Some(s.(pc := Imm16(s)))
    case 0xC5 => Some(Push(s, s.bc.hi, s.bc.lo))
    case 0xC8 => Some(ReturnIf(s, s.f.z != 0))
    case 0xC9 => Some(Return(s))
    case 0xCB => Some(ShiftOperationCB(s))
    case 0xCD => Some(Call(s))
    case 0xCE => Some(AdcImmediate(s))
    case _ => None
  }

  /** The implemented opcodes 0xD0 to 0xDF. */
  function ExecuteRowD(s: Core, op: u8): Option<Core> {
    match op
    case 0xD5 => Some(Push(s, s.de.hi, s.de.lo))
    case _ => None
  }

  /** The implemented opcodes 0xE0 to 0xEF. 0xEA takes its address from two
      `memory_map[PC++]` in one expression, an unsequenced modification in
      C++; the model reads the first operand byte as the low byte. */
  function ExecuteRowE(s: Core, op: u8): Option<Core> {
    match op
    case 0xE0 => Some(s.(mem := Write(s.mem, HighPage(Imm8(s)), s.a), pc := Wrap16(s.pc + 1)))
    case 0xE2 => Some(s.(mem := Write(s.mem, LowPage(s.bc.lo), s.a)))
    case 0xE5 => Some(Push(s, s.hl.hi, s.hl.lo))
    case 0xE6 => Some(WithA(s.(pc := Wrap16(s.pc + 1)), LogicalAnd(s.a, Imm8(s))))
    case 0xEA => Some(s.(mem := Write(s.mem, Imm16(s), s.a), pc := Wrap16(s.pc + 2)))
    case _ => None
  }

  /** The implemented opcodes 0xF0 to 0xFF; 0xFA reads its address as 0xEA does. */
  function ExecuteRowF(s: Core, op: u8): Option<Core> {
    match op
    case 0xF0 => Some(s.(a := Read(s.mem, HighPage(Imm8(s))), pc := Wrap16(s.pc + 1)))
    case 0xF3 => Some(s.(ime := 0))
    case 0xF5 => Some(Push(s, s.a, PackFlags(s.f)))
    case 0xF9 => Some(s.(sp := s.hl.Word()))
    case 0xFA => Some(s.(a := Read(s.mem, Imm16(s)), pc := Wrap16(s.pc + 2)))
    case 0xFE => Some(s.(f := Sub(s.a, Imm8(s)).f, pc := Wrap16(s.pc + 1)))
    case _ => None
  }

  /** The interrupt check at the top of `CPU::step`: with IME set and IF
      nonzero, IME is cleared and PC is pushed (high byte first). Only the
      V-blank bit is acted on: `IF & 1 << V_BLANK` tests bit 0 (written
      `IF % 2 == 1`, see DispatchBitOps) and then PC jumps to the vector and
      `IF ^= 1 << V_BLANK` clears that bit. */
  function Dispatch(s: State): State {
    if s.core.ime != 0 && s.iflag > 0 then
      var pc := FromWord(s.core.pc);
      var c1 := Push(s.core.(ime := 0), pc.hi, pc.lo);
      if s.iflag % 2 == 1 then
        s.(core := c1.(pc := VBLANK_INTR_ADDR), iflag := s.iflag - 1)
      else s.(core := c1)
    else s
  }

  /** The bit operations of Dispatch: `IF & (1 << 0)` is nonzero exactly for
      an odd IF, and then `IF ^ (1 << 0)` is IF - 1. */
  lemma DispatchBitOps(iflag: u8)
    ensures And(iflag, Shl(1, VBlank.Number())) != 0 <==> iflag % 2 == 1
    ensures iflag % 2 == 1 ==> Xor(iflag, Shl(1, VBlank.Number())) == iflag - 1
  {
    LowBitOps(iflag);
  }

  /** The end of `CPU::step`: `cycle_count += OP_CYCLES[op]` on 64 bits and
      `lcd_count += OP_CYCLES[op]` on 32 bits, then the line check. */
  function Tick(s: State, cycles: u8): State {
    EndOfLine(s.(cycleCount := Wrap64(s.cycleCount + cycles), lcdCount := Wrap32(s.lcdCount + cycles)))
  }

  /** When the line counter is past 456: LY (0xFF44) becomes
      `(LY + 1) % LCD_VERT_LINES`, 456 is taken off the counter, and
      `ready_for_render` is raised if LY is now 144. */
  function EndOfLine(s: State): State {
    if s.lcdCount > LCD_LINE_CYCLES then
      var ly := (Read(s.core.mem, LCDC_Y_CORDINATE) + 1) % LCD_VERT_LINES;
      var s2 := s.(core := s.core.(mem := Write(s.core.mem, LCDC_Y_CORDINATE, ly)),
                   lcdCount := s.lcdCount - LCD_LINE_CYCLES);
      if Read(s2.core.mem, LCDC_Y_CORDINATE) == FIRST_VBLANK_LINE then s2.(readyForRender := true) else s2
    else s
  }

  /** What one call of `step` leads to. `Stuck` is the `while (1);` of the
      `default` case: the machine stays in `frozen` for ever. */
  datatype StepResult = Done(next: State) | Stuck(op: u8, frozen: State)

  /** The opcode `step` fetches: the byte at PC after the interrupt check. */
  function FetchedOpcode(s: State): u8 {
    var c := Dispatch(s).core;
    Read(c.mem, c.pc)
  }

  /** `CPU::step`. */
  function Step(s: State): StepResult {
    if s.readyForRender then Done(s)
    else
      var s1 := Dispatch(s);
      var op := Read(s1.core.mem, s1.core.pc);
      var c2 := s1.core.(pc := Wrap16(s1.core.pc + 1));
      match Execute(c2, op)
      case None => Stuck(op, s1.(core := c2))
      case Some(c3) => Done(Tick(s1.(core := c3), OpCycles(op)))
  }
}
