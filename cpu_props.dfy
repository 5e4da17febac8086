/** Properties of one CPU step, stated on the value model of module
    `CpuSpec`: the stack discipline of PUSH/POP and CALL/RET, the
    interrupt dispatch, the line counter and the render gate, and the frame
    of the prefixed operations. */
module CpuProps {
  import opened Bits
  import opened Hardware
  import opened Registers
  import opened Alu
  import opened Wrappers
  import ShiftOps
  import opened CpuSpec

  /** The two stack slots below SP are distinct, and the upper one is one
      past the lower one. */
  lemma StackSlots(sp: u16)
    ensures Wrap16(sp - 1) != Wrap16(sp - 2)
    ensures Wrap16(Wrap16(sp - 2) + 1) == Wrap16(sp - 1)
    ensures Wrap16(Wrap16(sp - 2) + 2) == sp
  {
    WrapAdd16(sp - 2, 1);
    WrapAdd16(sp - 2, 2);
  }

  /** A push stores the high byte at SP - 1 and the low byte at SP - 2,
      moves SP down by two and leaves every other byte and register alone. */
  lemma PushStores(s: Core, hi: u8, lo: u8)
    ensures Push(s, hi, lo).sp == Wrap16(s.sp - 2)
    ensures Read(Push(s, hi, lo).mem, Wrap16(s.sp - 1)) == hi
    ensures Read(Push(s, hi, lo).mem, Wrap16(s.sp - 2)) == lo
    ensures forall addr: u16 :: addr != Wrap16(s.sp - 1) && addr != Wrap16(s.sp - 2) ==>
              Read(Push(s, hi, lo).mem, addr) == Read(s.mem, addr)
    ensures Push(s, hi, lo).(mem := s.mem, sp := s.sp) == s
  {
    StackSlots(s.sp);
  }

  /** What a push leaves on the stack pops back as the same word. */
  lemma PoppedAfterPush(s: Core, hi: u8, lo: u8)
    ensures Popped(Push(s, hi, lo)) == Pair(hi, lo).Word()
    ensures Wrap16(Push(s, hi, lo).sp + 2) == s.sp
  {
    PushStores(s, hi, lo);
    StackSlots(s.sp);
  }

  /** PUSH BC (0xC5) then POP BC (0xC1) restores BC and SP; only the two
      stack bytes below SP differ afterwards. */
  lemma PushThenPopBC(s: Core)
    ensures ExecuteRowC(s, 0xC5).Some?
    ensures var t := ExecuteRowC(s, 0xC5).value;
            ExecuteRowC(t, 0xC1).Some? && ExecuteRowC(t, 0xC1).value == t.(bc := s.bc, sp := s.sp)
    ensures ExecuteRowC(ExecuteRowC(s, 0xC5).value, 0xC1).value.(mem := s.mem) == s
  {
    PushStores(s, s.bc.hi, s.bc.lo);
    StackSlots(s.sp);
  }

  /** Where the stack opcodes of row 0xC land in the instruction decoder. */
  lemma StackOpcodes(s: Core)
    ensures Execute(s, 0xC0) == Some(ReturnIf(s, s.f.z == 0))
    ensures Execute(s, 0xC8) == Some(ReturnIf(s, s.f.z != 0))
    ensures Execute(s, 0xC9) == Some(Return(s))
    ensures Execute(s, 0xCD) == Some(Call(s))
  {
  }

  /** CALL's registers: the jump, the new SP, and nothing else. */
  lemma CallRegisters(s: Core)
    ensures Call(s).pc == Imm16(s)
    ensures Call(s).sp == Wrap16(s.sp - 2)
    ensures Call(s).(mem := s.mem, sp := s.sp, pc := s.pc) == s
  {
  }

  /** CALL's memory is that of the push of the address past the operand. */
  lemma CallMemory(s: Core)
    ensures Call(s).mem == Push(s.(pc := Wrap16(s.pc + 2)), FromWord(Wrap16(s.pc + 2)).hi,
                                FromWord(Wrap16(s.pc + 2)).lo).mem
  {
  }

  /** What CALL leaves in the registers and on the stack. */
  lemma CallStores(s: Core)
    ensures var t := Call(s);
            var ret := FromWord(Wrap16(s.pc + 2));
            t.pc == Imm16(s) && t.sp == Wrap16(s.sp - 2) &&
            Read(t.mem, Wrap16(s.sp - 1)) == ret.hi && Read(t.mem, Wrap16(s.sp - 2)) == ret.lo &&
            (forall addr: u16 :: addr != Wrap16(s.sp - 1) && addr != Wrap16(s.sp - 2) ==>
               Read(t.mem, addr) == Read(s.mem, addr)) &&
            t.(mem := s.mem, sp := s.sp, pc := s.pc) == s
  {
    CallRegisters(s);
    CallMemory(s);
    var ret := FromWord(Wrap16(s.pc + 2));
    PushStores(s.(pc := Wrap16(s.pc + 2)), ret.hi, ret.lo);
  }

  /** CALL nn (0xCD) jumps to the operand, stores the address of the next
      instruction (PC + 2 past the opcode) at SP - 1 (high byte) and SP - 2
      (low byte), moves SP down by two, and changes nothing else. */
  lemma CallPushesReturnAddress(s: Core)
    ensures Execute(s, 0xCD).Some?
    ensures var t := Execute(s, 0xCD).value;
            var ret := FromWord(Wrap16(s.pc + 2));
            t.pc == Imm16(s) && t.sp == Wrap16(s.sp - 2) &&
            Read(t.mem, Wrap16(s.sp - 1)) == ret.hi && Read(t.mem, Wrap16(s.sp - 2)) == ret.lo &&
            (forall addr: u16 :: addr != Wrap16(s.sp - 1) && addr != Wrap16(s.sp - 2) ==>
               Read(t.mem, addr) == Read(s.mem, addr)) &&
            t.(mem := s.mem, sp := s.sp, pc := s.pc) == s
  {
    StackOpcodes(s);
    CallStores(s);
  }

  /** RET from a state whose two stack bytes hold `ret` pops `ret` and
      moves SP back up to `sp`. */
  lemma ReturnFromStores(t: Core, sp: u16, ret: Pair)
    requires t.sp == Wrap16(sp - 2)
    requires Read(t.mem, Wrap16(sp - 1)) == ret.hi && Read(t.mem, Wrap16(sp - 2)) == ret.lo
    ensures Return(t).pc == ret.Word() && Return(t).sp == sp
  {
    StackSlots(sp);
  }

  /** RET after CALL, on values. */
  lemma ReturnAfterCall(s: Core)
    ensures Return(Call(s)).pc == Wrap16(s.pc + 2) && Return(Call(s)).sp == s.sp
  {
    CallStores(s);
    ReturnFromStores(Call(s), s.sp, FromWord(Wrap16(s.pc + 2)));
  }

  /** RET (0xC9) right after CALL nn (0xCD) comes back to the instruction
      after the call, with SP where it was. */
  lemma RetUndoesCall(s: Core)
    ensures Execute(s, 0xCD).Some? && Execute(Execute(s, 0xCD).value, 0xC9).Some?
    ensures var t := Execute(Execute(s, 0xCD).value, 0xC9).value;
            t.pc == Wrap16(s.pc + 2) && t.sp == s.sp
  {
    StackOpcodes(s);
    StackOpcodes(Call(s));
    ReturnAfterCall(s);
  }

  /** RET pops PC, low byte first, and moves SP up by two; nothing else changes. */
  lemma ReturnPops(s: Core)
    ensures Return(s).pc == Read(s.mem, Wrap16(s.sp + 1)) * 0x100 + Read(s.mem, s.sp)
    ensures Return(s).sp == Wrap16(s.sp + 2)
    ensures Return(s).(pc := s.pc, sp := s.sp) == s
  {
  }

  /** Conditional returns: RET NZ (0xC0) and RET Z (0xC8) pop PC from the
      word at SP and SP + 1 and move SP up by two when their condition holds,
      and change nothing otherwise; at most one of the two returns. */
  lemma ConditionalReturns(s: Core)
    ensures Execute(s, 0xC0).Some? && Execute(s, 0xC8).Some?
    ensures var t := Execute(s, 0xC0).value;
            if s.f.z == 0 then
              t.pc == Read(s.mem, Wrap16(s.sp + 1)) * 0x100 + Read(s.mem, s.sp) &&
              t.sp == Wrap16(s.sp + 2) && t.(pc := s.pc, sp := s.sp) == s
            else t == s
    ensures var t := Execute(s, 0xC8).value;
            if s.f.z != 0 then
              t.pc == Read(s.mem, Wrap16(s.sp + 1)) * 0x100 + Read(s.mem, s.sp) &&
              t.sp == Wrap16(s.sp + 2) && t.(pc := s.pc, sp := s.sp) == s
            else t == s
    ensures Execute(s, 0xC0).value == s || Execute(s, 0xC8).value == s
  {
    StackOpcodes(s);
    ReturnPops(s);
  }

  /** Incrementing a 16-bit value and then decrementing it gives it back. */
  lemma WordIncDec(w: u16)
    ensures Wrap16(Wrap16(w + 1) - 1) == w
  {
    if w == 0xFFFF {
      assert Wrap16(w + 1) == 0;
    } else {
      assert Wrap16(w + 1) == w + 1;
    }
  }

  /** Incrementing a register pair and then decrementing it gives it back. */
  lemma PairIncDec(p: Pair, q: Pair)
    requires q == FromWord(Wrap16(p.Word() + 1))
    ensures FromWord(Wrap16(q.Word() - 1)) == p
  {
    WordIncDec(p.Word());
    WordRoundTrip(p);
  }

  /** What row 0x2_ does for LD (HL+),A. */
  lemma StoreIncrementRow(s: Core)
    ensures ExecuteRow2(s, 0x22) ==
      Some(s.(mem := Write(s.mem, s.hl.Word(), s.a), hl := FromWord(Wrap16(s.hl.Word() + 1))))
  {
  }

  /** What row 0x3_ does for LD (HL-),A. */
  lemma StoreDecrementRow(s: Core)
    ensures ExecuteRow3(s, 0x32) ==
      Some(s.(mem := Write(s.mem, s.hl.Word(), s.a), hl := FromWord(Wrap16(s.hl.Word() - 1))))
  {
  }

  /** Where LD (HL+),A and LD (HL-),A land in the instruction decoder. */
  lemma StoreHLOpcodes(s: Core)
    ensures Execute(s, 0x22) ==
      Some(s.(mem := Write(s.mem, s.hl.Word(), s.a), hl := FromWord(Wrap16(s.hl.Word() + 1))))
    ensures Execute(s, 0x32) ==
      Some(s.(mem := Write(s.mem, s.hl.Word(), s.a), hl := FromWord(Wrap16(s.hl.Word() - 1))))
  {
    StoreIncrementRow(s);
    StoreDecrementRow(s);
  }

  /** LD (HL+),A (0x22): A is stored at HL and only there, HL goes up by
      one modulo 2^16, and no other register changes. */
  lemma StoreIncrementHL(s: Core)
    ensures Execute(s, 0x22).Some?
    ensures var t := Execute(s, 0x22).value;
            Read(t.mem, s.hl.Word()) == s.a && t.hl.Word() == Wrap16(s.hl.Word() + 1) &&
            (forall addr: u16 :: addr != s.hl.Word() ==> Read(t.mem, addr) == Read(s.mem, addr)) &&
            t.(mem := s.mem, hl := s.hl) == s
  {
    StoreHLOpcodes(s);
  }

  /** LD (HL-),A (0x32): A is stored at HL and only there, HL goes down by
      one modulo 2^16, and no other register changes. */
  lemma StoreDecrementHL(s: Core)
    ensures Execute(s, 0x32).Some?
    ensures var t := Execute(s, 0x32).value;
            Read(t.mem, s.hl.Word()) == s.a && t.hl.Word() == Wrap16(s.hl.Word() - 1) &&
            (forall addr: u16 :: addr != s.hl.Word() ==> Read(t.mem, addr) == Read(s.mem, addr)) &&
            t.(mem := s.mem, hl := s.hl) == s
  {
    StoreHLOpcodes(s);
  }

  /** LD (HL+),A (0x22) then LD (HL-),A (0x32) brings HL back; A has been
      stored at HL and at HL + 1. */
  lemma IncrementThenDecrementHL(s: Core)
    ensures ExecuteRow2(s, 0x22).Some? && ExecuteRow3(ExecuteRow2(s, 0x22).value, 0x32).Some?
    ensures ExecuteRow3(ExecuteRow2(s, 0x22).value, 0x32).value.hl == s.hl
    ensures ExecuteRow3(ExecuteRow2(s, 0x22).value, 0x32).value.mem ==
              Write(Write(s.mem, s.hl.Word(), s.a), Wrap16(s.hl.Word() + 1), s.a)
  {
    StoreIncrementRow(s);
    var t := ExecuteRow2(s, 0x22).value;
    StoreDecrementRow(t);
    PairIncDec(s.hl, t.hl);
  }

  /** JR e (0x18) with the displacement 0xFE (-2) jumps back to its own
      opcode: the program spins on that instruction. */
  lemma JumpToSelf(s: Core)
    requires Imm8(s) == 0xFE
    ensures ExecuteRow1(s, 0x18) == Some(s.(pc := Wrap16(s.pc - 1)))
  {
    WrapAdd16(s.pc + 1, -2);
  }

  /** CP (HL) (0xBE) and CP n (0xFE) keep A, set Z exactly when A equals
      the operand and C exactly when the operand is larger. */
  lemma CompareKeepsA(s: Core)
    ensures ExecuteRowB(s, 0xBE).Some? && ExecuteRowF(s, 0xFE).Some?
    ensures ExecuteRowB(s, 0xBE).value.a == s.a && ExecuteRowF(s, 0xFE).value.a == s.a
    ensures ExecuteRowB(s, 0xBE).value.f.z == 1 <==> s.a == Read(s.mem, s.hl.Word())
    ensures ExecuteRowF(s, 0xFE).value.f.z == 1 <==> s.a == Imm8(s)
    ensures ExecuteRowF(s, 0xFE).value.f.c == 1 <==> Imm8(s) > s.a
  {
  }

  /** ADD A,(HL) (0x86) changes only A and the flags: A becomes the sum
      modulo 256, Z says it is 0, H is the carry out of the low nibble and
      C the carry out of the byte. */
  lemma AddFromMemory(s: Core)
    ensures ExecuteRow8(s, 0x86).Some?
    ensures var n := Read(s.mem, s.hl.Word()); var t := ExecuteRow8(s, 0x86).value;
      t == s.(a := t.a, f := t.f) && t.a == (s.a + n) % 0x100
      && (t.f.z == 1 <==> t.a == 0) && t.f.n == 0
      && (t.f.h == 1 <==> s.a % 0x10 + n % 0x10 > 0xF)
      && (t.f.c == 1 <==> s.a + n > 0xFF)
  {
    HalfCarryOfAdd(s.a, Read(s.mem, s.hl.Word()), 0);
  }

  /** ADC A,n (0xCE) adds the operand and the carry flag; PC also steps over
      the operand. */
  lemma AddWithCarryImmediate(s: Core)
    requires s.f.c <= 1
    ensures ExecuteRowC(s, 0xCE).Some?
    ensures var n := Imm8(s); var t := ExecuteRowC(s, 0xCE).value;
      t == s.(a := t.a, f := t.f, pc := Wrap16(s.pc + 1))
      && t.a == (s.a + n + s.f.c) % 0x100
      && (t.f.z == 1 <==> t.a == 0) && t.f.n == 0
      && (t.f.h == 1 <==> s.a % 0x10 + n % 0x10 + s.f.c > 0xF)
      && (t.f.c == 1 <==> s.a + n + s.f.c > 0xFF)
  {
    HalfCarryOfAdd(s.a, Imm8(s), s.f.c);
  }

  /** SUB B (0x90) changes only A and the flags: Z says A equalled B, H is
      the borrow into the low nibble and C the borrow out of the byte. */
  lemma SubtractB(s: Core)
    ensures ExecuteRow9(s, 0x90).Some?
    ensures var n := s.bc.hi; var t := ExecuteRow9(s, 0x90).value;
      t == s.(a := t.a, f := t.f) && t.a == (s.a - n) % 0x100
      && (t.f.z == 1 <==> s.a == n) && t.f.n == 1
      && (t.f.h == 1 <==> n % 0x10 > s.a % 0x10)
      && (t.f.c == 1 <==> n > s.a)
  {
    HalfBorrowOfSub(s.a, s.bc.hi);
  }

  /** The first two terms of the flag byte do not overlap. */
  lemma PackedZN(z: nat, n: nat)
    requires z <= 1 && n <= 1
    ensures Or(z * 0x80, n * 0x40) == z * 0x80 + n * 0x40
  {
    assert Pow2(7) == 0x80;
    OrOfDisjointAt(z, n * 0x40, 7, 0x80);
  }

  /** Adding the third term, H in bit 5, to `x`, the first two. */
  lemma PackedZNH(x: nat, z: nat, n: nat, h: nat)
    requires z <= 1 && n <= 1 && h <= 1 && x == z * 0x80 + n * 0x40
    ensures Or(x, h * 0x20) == x + h * 0x20
  {
    assert Pow2(6) == 0x40;
    var m := z * 2 + n;
    assert x == m * 0x40;
    OrOfDisjointAt(m, h * 0x20, 6, 0x40);
  }

  /** Adding the last term, C in bit 4, to `x`, the first three. */
  lemma PackedZNHC(x: nat, z: nat, n: nat, h: nat, c: nat)
    requires z <= 1 && n <= 1 && h <= 1 && c <= 1 && x == z * 0x80 + n * 0x40 + h * 0x20
    ensures Or(x, c * 0x10) == x + c * 0x10
  {
    assert Pow2(5) == 0x20;
    var m := z * 4 + n * 2 + h;
    assert x == m * 0x20;
    OrOfDisjointAt(m, c * 0x10, 5, 0x20);
  }

  /** The OR of the four shifted flags is their sum when each is 0 or 1. */
  lemma PackedBits(z: nat, n: nat, h: nat, c: nat)
    requires z <= 1 && n <= 1 && h <= 1 && c <= 1
    ensures Or(Or(Or(z * 0x80, n * 0x40), h * 0x20), c * 0x10) == z * 0x80 + n * 0x40 + h * 0x20 + c * 0x10
  {
    PackedZN(z, n);
    PackedZNH(Or(z * 0x80, n * 0x40), z, n, h);
    PackedZNHC(Or(Or(z * 0x80, n * 0x40), h * 0x20), z, n, h, c);
  }

  /** The flag byte of PUSH AF, for flags that hold 0 or 1, is Z in bit 7,
      N in bit 6, H in bit 5 and C in bit 4. */
  lemma PackedFlags(f: Flags)
    requires f.z <= 1 && f.n <= 1 && f.h <= 1 && f.c <= 1
    ensures PackFlags(f) == f.z * 0x80 + f.n * 0x40 + f.h * 0x20 + f.c * 0x10
  {
    var x := Or(Or(Or(f.z * 0x80, f.n * 0x40), f.h * 0x20), f.c * 0x10);
    PackedBits(f.z, f.n, f.h, f.c);
    WrapSmall8(x);
  }

  /** RLA (0x17) rotates A left through the carry as the prefixed RL A
      does: the same byte and the same new carry, but Z is forced to 0. */
  lemma RlaIsRlWithoutZero(s: Core)
    requires s.f.c <= 1
    ensures ExecuteRow1(s, 0x17).Some?
    ensures var t := ExecuteRow1(s, 0x17).value;
            var r := ShiftOps.Rl(s.a, s.f);
            t.a == r.value && t.f == r.f.(z := 0)
  {
    RotateAValue(s.a, s.f.c);
  }

  // ---------------------------------------------------------------------
  // Interrupt dispatch

  /** Subtracting 1 from an odd number clears bit 0 and keeps the others. */
  lemma {:induction false} ClearLowBit(x: nat)
    requires x % 2 == 1
    ensures forall k: nat :: Bit(x - 1, k) == if k == 0 then 0 else Bit(x, k)
  {
    forall k: nat ensures Bit(x - 1, k) == if k == 0 then 0 else Bit(x, k) {
      if k > 0 {
        BitOfHalf(x - 1, k - 1);
        BitOfHalf(x, k - 1);
        assert (x - 1) / 2 == x / 2;
      }
    }
  }

  /** Bit 0 of a byte is its parity. */
  lemma LowBit(x: nat)
    ensures Bit(x, 0) == x % 2
  {
  }

  /** Without IME, or with IF clear, the interrupt check changes nothing. */
  lemma DispatchIdle(s: State)
    requires s.core.ime == 0 || s.iflag == 0
    ensures Dispatch(s) == s
  {
  }

  /** With IME set and IF nonzero the interrupt check clears IME and pushes
      PC, high byte at SP - 1 and low byte at SP - 2, whatever bit of IF is
      set; IE and the counters stay as they were. */
  lemma DispatchPushesPC(s: State)
    requires s.core.ime != 0 && s.iflag > 0
    ensures var t := Dispatch(s);
            t.core.ime == 0 && t.core.sp == Wrap16(s.core.sp - 2) &&
            Read(t.core.mem, Wrap16(s.core.sp - 1)) == s.core.pc / 0x100 &&
            Read(t.core.mem, Wrap16(s.core.sp - 2)) == s.core.pc % 0x100 &&
            t.ie == s.ie && t.cycleCount == s.cycleCount && t.lcdCount == s.lcdCount &&
            t.readyForRender == s.readyForRender
  {
    var pc := FromWord(s.core.pc);
    PushStores(s.core.(ime := 0), pc.hi, pc.lo);
  }

  /** With bit 0 of IF (V-blank) set, the check jumps to the vector 0x0040
      and clears exactly that bit of IF. */
  lemma DispatchVBlank(s: State)
    requires s.core.ime != 0 && s.iflag % 2 == 1
    ensures Dispatch(s).core.pc == VBLANK_INTR_ADDR
    ensures forall k: nat :: Bit(Dispatch(s).iflag, k) == if k == 0 then 0 else Bit(s.iflag, k)
  {
    ClearLowBit(s.iflag);
  }

  /** With IF nonzero but bit 0 clear, PC is pushed but not redirected, and IF
      is kept: the other interrupt classes are never serviced. */
  lemma DispatchOtherInterrupt(s: State)
    requires s.core.ime != 0 && s.iflag > 0 && s.iflag % 2 == 0
    ensures Dispatch(s).core.pc == s.core.pc && Dispatch(s).iflag == s.iflag
  {
  }

  /** Raising V-blank with IME set makes the next interrupt check jump to
      0x0040. */
  lemma RaiseThenDispatch(s: State)
    requires s.core.ime != 0
    ensures Dispatch(s.(iflag := RaiseInterrupt(s.iflag, VBlank))).core.pc == VBLANK_INTR_ADDR
  {
    var r := RaiseInterrupt(s.iflag, VBlank);
    assert Bit(r, 0) == 1;
    LowBit(r);
  }

  /** Raising a class twice is raising it once. */
  lemma RaiseIdempotent(iflag: u8, i: Interrupt)
    ensures RaiseInterrupt(RaiseInterrupt(iflag, i), i) == RaiseInterrupt(iflag, i)
  {
    var once := RaiseInterrupt(iflag, i);
    var twice := RaiseInterrupt(once, i);
    assert Pow2(8) == 0x100;
    forall k: nat | k < 8 ensures Bit(twice, k) == Bit(once, k) {}
    BitsDetermine(twice, once, 8);
  }

  /** Raising two classes gives the same IF in either order. */
  lemma RaiseCommutes(iflag: u8, i: Interrupt, j: Interrupt)
    ensures RaiseInterrupt(RaiseInterrupt(iflag, i), j) == RaiseInterrupt(RaiseInterrupt(iflag, j), i)
  {
    var ij := RaiseInterrupt(RaiseInterrupt(iflag, i), j);
    var ji := RaiseInterrupt(RaiseInterrupt(iflag, j), i);
    assert Pow2(8) == 0x100;
    forall k: nat | k < 8 ensures Bit(ij, k) == Bit(ji, k) {}
    BitsDetermine(ij, ji, 8);
  }

  // ---------------------------------------------------------------------
  // The line counter and the render gate

  /** Inside a line (the counter stays at or below 456) only the counters move. */
  lemma TickWithinLine(s: State, c: u8)
    requires s.lcdCount + c <= LCD_LINE_CYCLES
    ensures Tick(s, c) == s.(cycleCount := Wrap64(s.cycleCount + c), lcdCount := s.lcdCount + c)
  {
  }

  /** Past the end of a line, LY advances modulo 154, 456 cycles are taken
      off the counter, and the gate is raised exactly when the new LY is 144;
      no other byte of memory changes. */
  lemma TickEndOfLine(s: State, c: u8)
    requires LCD_LINE_CYCLES < s.lcdCount + c < 0x1_0000_0000
    ensures var t := Tick(s, c);
            var ly := (Read(s.core.mem, LCDC_Y_CORDINATE) + 1) % LCD_VERT_LINES;
            t.lcdCount == s.lcdCount + c - LCD_LINE_CYCLES &&
            t.cycleCount == Wrap64(s.cycleCount + c) &&
            t.core == s.core.(mem := Write(s.core.mem, LCDC_Y_CORDINATE, ly)) &&
            Read(t.core.mem, LCDC_Y_CORDINATE) == ly &&
            (t.readyForRender <==> s.readyForRender || ly == FIRST_VBLANK_LINE) &&
            t.ie == s.ie && t.iflag == s.iflag
  {
  }

  /** The interrupt check touches no counter and leaves the gate alone. */
  lemma DispatchKeepsCounters(s: State)
    ensures Dispatch(s).cycleCount == s.cycleCount && Dispatch(s).lcdCount == s.lcdCount
    ensures Dispatch(s).readyForRender == s.readyForRender && Dispatch(s).ie == s.ie
  {
  }

  /** The end of a step adds its charge to the 64-bit cycle counter, modulo
      2^64, whatever the line counter does. */
  lemma TickCharges(s: State, c: u8)
    ensures Tick(s, c).cycleCount == Wrap64(s.cycleCount + c)
  {
  }

  /** A step that costs at most 32 cycles keeps the line counter at or below
      456 when it starts there. */
  lemma TickKeepsLineBound(s: State, c: u8)
    requires s.lcdCount <= LCD_LINE_CYCLES && c <= 32
    ensures Tick(s, c).lcdCount <= LCD_LINE_CYCLES
  {
  }

  /** LY stays below 154 once it is there. */
  lemma TickKeepsLineNumber(s: State, c: u8)
    requires Read(s.core.mem, LCDC_Y_CORDINATE) < LCD_VERT_LINES
    ensures Read(Tick(s, c).core.mem, LCDC_Y_CORDINATE) < LCD_VERT_LINES
  {
  }

  // ---------------------------------------------------------------------
  // Whole steps

  /** While `ready_for_render` is raised, `step` changes nothing. */
  lemma StepWhileReady(s: State)
    requires s.readyForRender
    ensures Step(s) == Done(s)
  {
  }

  /** A completed step is the end-of-step charge of `OP_CYCLES` of the
      opcode it fetched, applied to a state that still has the starting cycle
      counter; with TickCharges, the step adds that charge to `cycle_count`. */
  lemma StepCharges(s: State) returns (s2: State)
    requires !s.readyForRender
    ensures Step(s).Done? ==>
      s2.cycleCount == s.cycleCount && Step(s).next == Tick(s2, OpCycles(FetchedOpcode(s)))
  {
    var s1 := Dispatch(s);
    DispatchKeepsCounters(s);
    var op := Read(s1.core.mem, s1.core.pc);
    var c2 := s1.core.(pc := Wrap16(s1.core.pc + 1));
    var r := Execute(c2, op);
    if r.Some? {
      s2 := s1.(core := r.value);
      assert Step(s) == Done(Tick(s2, OpCycles(op)));
    } else {
      s2 := s1;
      assert Step(s) == Stuck(op, s1.(core := c2));
    }
  }

  /** An unimplemented opcode leaves the machine spinning: the state it
      spins in has the counters, the gate and IE of the start, and the
      opcode is the one fetched, for which Execute has nothing. */
  lemma StuckChargesNothing(s: State)
    requires Step(s).Stuck?
    ensures var f := Step(s).frozen;
            Step(s).op == FetchedOpcode(s) &&
            f.cycleCount == s.cycleCount && f.lcdCount == s.lcdCount &&
            f.readyForRender == s.readyForRender == false && f.ie == s.ie
    ensures Execute(Dispatch(s).core.(pc := Wrap16(Dispatch(s).core.pc + 1)), Step(s).op).None?
  {
  }

  /** Every step keeps the line counter at or below 456. */
  lemma StepKeepsLineBound(s: State)
    requires s.lcdCount <= LCD_LINE_CYCLES
    ensures Step(s).Done? ==> Step(s).next.lcdCount <= LCD_LINE_CYCLES
    ensures Step(s).Stuck? ==> Step(s).frozen.lcdCount <= LCD_LINE_CYCLES
  {
    if !s.readyForRender {
      var s1 := Dispatch(s);
      var op := Read(s1.core.mem, s1.core.pc);
      var c2 := s1.core.(pc := Wrap16(s1.core.pc + 1));
      var r := Execute(c2, op);
      if r.Some? {
        var t := Tick(s1.(core := r.value), OpCycles(op));
        TickKeepsLineBound(s1.(core := r.value), OpCycles(op));
        assert Step(s) == Done(t);
      } else {
        assert Step(s) == Stuck(op, s1.(core := c2));
      }
    }
  }

  // ---------------------------------------------------------------------
  // The prefixed operations

  /** Writing a CB target and reading it back gives the byte written. */
  lemma CbReadAfterWrite(s: Core, r: nat, v: u8)
    requires r < 8
    ensures CbTarget(SetCbTarget(s, r, v), r) == v
  {
  }

  /** Writing one CB target leaves every other target as it was, except that
      writing H or L moves the address of the target (HL). */
  lemma CbWriteKeepsOthers(s: Core, r: nat, q: nat, v: u8)
    requires r < 8 && q < 8 && r != q && !(q == 6 && (r == 4 || r == 5))
    ensures CbTarget(SetCbTarget(s, r, v), q) == CbTarget(s, q)
  {
    if r == 6 && q == 4 {
    }
  }

  /** A CB write changes no control register, and memory only for (HL). */
  lemma CbWriteFrame(s: Core, r: nat, v: u8)
    requires r < 8
    ensures var t := SetCbTarget(s, r, v);
            t.pc == s.pc && t.sp == s.sp && t.f == s.f && t.ime == s.ime &&
            (r != 6 ==> t.mem == s.mem) &&
            (r == 6 ==> t.mem == Write(s.mem, s.hl.Word(), v))
  {
  }

  /** BIT b (the prefixed opcodes 0x40 to 0x7F) writes nothing back: only
      PC and the flags change. */
  lemma CbBitWritesNothing(s: Core)
    requires Imm8(s) / 0x40 == 1
    ensures var op := Imm8(s);
            ShiftOperationCB(s) ==
              s.(pc := Wrap16(s.pc + 1), f := ShiftOps.TestBit(CbTarget(s, op % 8), (op / 8) % 8, s.f))
  {
  }

  /** A prefixed operation stores its result in the target it selected and
      leaves the other targets, SP and IME alone. */
  lemma CbTouchesOnlyTarget(s: Core)
    ensures var op := Imm8(s);
            var t := ShiftOperationCB(s);
            var r := op % 8;
            t.pc == Wrap16(s.pc + 1) && t.sp == s.sp && t.ime == s.ime &&
            CbTarget(t, r) == ShiftOps.Apply(op, CbTarget(s, r), s.f).value &&
            forall q: nat :: q < 8 && q != r && !(q == 6 && (r == 4 || r == 5)) ==>
              CbTarget(t, q) == CbTarget(s, q)
  {
    var op := Imm8(s);
    var r := op % 8;
    var s1 := s.(pc := Wrap16(s.pc + 1));
    var res := ShiftOps.Apply(op, CbTarget(s1, r), s1.f);
    var s2 := s1.(f := res.f);
    assert CbTarget(s1, r) == CbTarget(s, r);
    forall q: nat | q < 8 ensures CbTarget(s2, q) == CbTarget(s, q) {
    }
    if res.writeback {
      CbReadAfterWrite(s2, r, res.value);
      forall q: nat | q < 8 && q != r && !(q == 6 && (r == 4 || r == 5))
        ensures CbTarget(SetCbTarget(s2, r, res.value), q) == CbTarget(s, q)
      {
        CbWriteKeepsOthers(s2, r, q, res.value);
      }
    }
  }
}
