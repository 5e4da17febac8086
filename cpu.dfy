/** Class CPU of `GBEmulator/Gameboy.h` and its methods in
    `GBEmulator/Gameboy.cpp`. The fields are those of the C++ class; the
    memory map is the 64 KiB array the CPU shares with the GPU. Every
    method updates the fields in place, statement by statement as the
    source does, and is proved to leave the object in the state that the
    functions of module CpuSpec compute from the old one. */
module Cpu {
  import opened Bits
  import opened Hardware
  import opened Registers
  import opened Alu
  import opened Wrappers
  import ShiftOps
  import opened CpuSpec

  /** The fields no instruction touches: IE, IF, the two counters and the render gate. */
  datatype Timing = Timing(ie: u8, iflag: u8, cycleCount: u64, lcdCount: u32, readyForRender: bool)

  class Cpu {
    var a: u8
    var bc: Pair
    var de: Pair
    var hl: Pair
    var sp: u16
    var pc: u16
    const memoryMap: array<u8>
    var fz: u8
    var fh: u8
    var fn: u8
    var fc: u8
    var ime: u8
    var ie: u8
    var iflag: u8
    var cycleCount: u64
    var lcdCount: u32
    var readyForRender: bool

    /** The memory map covers the whole address space. */
    ghost predicate Valid() {
      memoryMap.Length == MEMORY_SIZE
    }

    /** The fields an instruction can change, as a value. */
    function CoreView(): Core
      requires Valid()
      reads this, memoryMap
    {
      Core(a, bc, de, hl, sp, pc, Flags(fz, fn, fh, fc), ime, memoryMap[..])
    }

    function TimingView(): Timing
      reads this
    {
      Timing(ie, iflag, cycleCount, lcdCount, readyForRender)
    }

    /** The whole object as a value. */
    function StateView(): State
      requires Valid()
      reads this, memoryMap
    {
      State(CoreView(), ie, iflag, cycleCount, lcdCount, readyForRender)
    }

    /** `CPU::CPU`: PC and both counters start at 0 and no frame is ready.
        The constructor leaves the registers, flags, IME, IE and IF
        uninitialised; their arbitrary initial contents are the parameters
        `regs`, `ie0` and `if0`. The memory map is the one the owner passes
        to `set_memmap` right after construction; it never changes after. */
    constructor(regs: Core, ie0: u8, if0: u8, memmap: array<u8>)
      requires memmap.Length == MEMORY_SIZE
      ensures Valid() && memoryMap == memmap
      ensures StateView() == State(regs.(pc := 0, mem := memmap[..]), ie0, if0, 0, 0, false)
    {
      a, bc, de, hl, sp := regs.a, regs.bc, regs.de, regs.hl, regs.sp;
      fz, fn, fh, fc := regs.f.z, regs.f.n, regs.f.h, regs.f.c;
      ime, ie, iflag := regs.ime, ie0, if0;
      memoryMap := memmap;
      pc := 0;
      cycleCount := 0;
      lcdCount := 0;
      readyForRender := false;
    }

    /** `memory_map[PC++]`. */
    method Fetch() returns (n: u8)
      requires Valid()
      modifies this
      ensures Valid() && TimingView() == old(TimingView())
      ensures n == Imm8(old(CoreView()))
      ensures CoreView() == old(CoreView()).(pc := Wrap16(old(pc) + 1))
    {
      n := memoryMap[pc];
      pc := Wrap16(pc + 1);
    }

    /** `memory_map[addr] = v`. */
    method Store(addr: u16, v: u8)
      requires Valid()
      modifies memoryMap
      ensures Valid() && TimingView() == old(TimingView())
      ensures CoreView() == old(CoreView()).(mem := Write(old(CoreView()).mem, addr, v))
    {
      memoryMap[addr] := v;
    }

    /** `memory_map[--SP] = v`. */
    method PushByte(v: u8)
      requires Valid()
      modifies this, memoryMap
      ensures Valid() && TimingView() == old(TimingView())
      ensures CoreView() == old(CoreView()).(sp := Wrap16(old(sp) - 1),
                                             mem := Write(old(CoreView()).mem, Wrap16(old(sp) - 1), v))
    {
      sp := Wrap16(sp - 1);
      Store(sp, v);
    }

    /** `memory_map[SP++]`. */
    method PopByte() returns (v: u8)
      requires Valid()
      modifies this
      ensures Valid() && TimingView() == old(TimingView())
      ensures v == Read(old(CoreView()).mem, old(sp))
      ensures CoreView() == old(CoreView()).(sp := Wrap16(old(sp) + 1))
    {
      v := memoryMap[sp];
      sp := Wrap16(sp + 1);
    }

    /** Two `PushByte`s: the high byte first, at SP - 1, then the low byte at SP - 2. */
    method Push(hi: u8, lo: u8)
      requires Valid()
      modifies this, memoryMap
      ensures Valid() && TimingView() == old(TimingView())
      ensures CoreView() == CpuSpec.Push(old(CoreView()), hi, lo)
    {
      PushByte(hi);
      PushByte(lo);
      WrapAdd16(old(sp) - 1, -1);
    }

    /** The two operand bytes, `memory_map[PC++] | memory_map[PC++] << 8`. */
    method FetchWord() returns (nn: u16)
      requires Valid()
      modifies this
      ensures Valid() && TimingView() == old(TimingView())
      ensures nn == Imm16(old(CoreView()))
      ensures CoreView() == old(CoreView()).(pc := Wrap16(old(pc) + 2))
    {
      var lo := Fetch();
      var hi := Fetch();
      nn := Join(lo, hi);
      WrapAdd16(old(pc) + 1, 1);
    }

    /** `RP.b8[LO] = memory_map[PC++]; RP.b8[HI] = memory_map[PC++];` */
    method FetchPair() returns (p: Pair)
      requires Valid()
      modifies this
      ensures Valid() && TimingView() == old(TimingView())
      ensures p == LoadPair(old(CoreView()))
      ensures CoreView() == old(CoreView()).(pc := Wrap16(old(pc) + 2))
    {
      var lo := Fetch();
      var hi := Fetch();
      p := Pair(hi, lo);
      WrapAdd16(old(pc) + 1, 1);
    }

    /** JR cc, e: the displacement is fetched, and added to PC when `cond` holds. */
    method JumpRelative(cond: bool)
      requires Valid()
      modifies this
      ensures Valid() && TimingView() == old(TimingView())
      ensures CoreView() == JumpRelativeIf(old(CoreView()), cond)
    {
      var e := Fetch();
      if cond {
        pc := Wrap16(pc + Signed(e));
      }
    }

    /** The flags of an ALU result. */
    method SetFlags(f: Flags)
      requires Valid()
      modifies this
      ensures Valid() && TimingView() == old(TimingView())
      ensures CoreView() == old(CoreView()).(f := f)
    {
      fz, fn, fh, fc := f.z, f.n, f.h, f.c;
    }

    /** The opcodes 0x00 to 0x0F of the `switch (op)` in `CPU::step`. */
    method ExecuteRow0(op: u8) returns (implemented: bool)
      requires Valid()
      modifies this, memoryMap
      ensures Valid() && TimingView() == old(TimingView())
      ensures implemented <==> CpuSpec.ExecuteRow0(old(CoreView()), op).Some?
      ensures implemented ==> CpuSpec.ExecuteRow0(old(CoreView()), op).value == CoreView()
      ensures !implemented ==> CoreView() == old(CoreView())
    {
      if op % 0x10 < 8 {
        implemented := ExecuteRow0Low(op);
      } else {
        implemented := ExecuteRow0High(op);
      }
    }

    /** The half of the range above whose low nibble is 0 to 7. */
    method ExecuteRow0Low(op: u8) returns (implemented: bool)
      requires Valid() && op % 0x10 < 8
      modifies this, memoryMap
      ensures Valid() && TimingView() == old(TimingView())
      ensures implemented <==> CpuSpec.ExecuteRow0(old(CoreView()), op).Some?
      ensures implemented ==> CpuSpec.ExecuteRow0(old(CoreView()), op).value == CoreView()
      ensures !implemented ==> CoreView() == old(CoreView())
    {
      ghost var s := CoreView();
      implemented := true;
      match op
      case 0x00 =>
      case 0x01 =>
        bc := FetchPair();
      case 0x02 =>
        Store(bc.Word(), a);
      case 0x04 =>
        var r := Inc(bc.hi, Flags(fz, fn, fh, fc));
        bc := bc.(hi := r.value);
        SetFlags(r.f);
      case 0x05 =>
        var r := DecB(bc.hi, Flags(fz, fn, fh, fc));
        bc := bc.(hi := r.value);
        SetFlags(r.f);
      case 0x06 =>
        var n := Fetch();
        bc := bc.(hi := n);
      case _ =>
        assert op != 0x0C && op != 0x0D && op != 0x0E;
        assert CpuSpec.ExecuteRow0(s, op) == None;
        implemented := false;
    }

    /** The half of the range above whose low nibble is 8 to F. */
    method ExecuteRow0High(op: u8) returns (implemented: bool)
      requires Valid() && op % 0x10 >= 8
      modifies this, memoryMap
      ensures Valid() && TimingView() == old(TimingView())
      ensures implemented <==> CpuSpec.ExecuteRow0(old(CoreView()), op).Some?
      ensures implemented ==> CpuSpec.ExecuteRow0(old(CoreView()), op).value == CoreView()
      ensures !implemented ==> CoreView() == old(CoreView())
    {
      ghost var s := CoreView();
      implemented := true;
      match op
      case 0x0C =>
        var r := Inc(bc.lo, Flags(fz, fn, fh, fc));
        bc := bc.(lo := r.value);
        SetFlags(r.f);
      case 0x0D =>
        var r := Dec(bc.lo, Flags(fz, fn, fh, fc));
        bc := bc.(lo := r.value);
        SetFlags(r.f);
      case 0x0E =>
        var n := Fetch();
        bc := bc.(lo := n);
      case _ =>
        assert op != 0x00 && op != 0x01 && op != 0x02 && op != 0x04 && op != 0x05 && op != 0x06;
        assert CpuSpec.ExecuteRow0(s, op) == None;
        implemented := false;
    }

    /** The opcodes 0x10 to 0x1F. */
    method ExecuteRow1(op: u8) returns (implemented: bool)
      requires Valid()
      modifies this, memoryMap
      ensures Valid() && TimingView() == old(TimingView())
      ensures implemented <==> CpuSpec.ExecuteRow1(old(CoreView()), op).Some?
      ensures implemented ==> CpuSpec.ExecuteRow1(old(CoreView()), op).value == CoreView()
      ensures !implemented ==> CoreView() == old(CoreView())
    {
      if op % 0x10 < 8 {
        implemented := ExecuteRow1Low(op);
      } else {
        implemented := ExecuteRow1High(op);
      }
    }

    /** RLA: `RA = RA << 1 | FC` with the old bit 7 moving into C. */
    method RotateLeftA()
      requires Valid()
      modifies this
      ensures Valid() && TimingView() == old(TimingView())
      ensures CoreView() == CpuSpec.RotateLeftA(old(CoreView()))
    {
      var carry := (a / 0x80) % 2;
      a := RotateA(a, fc);
      SetFlags(Flags(0, 0, 0, carry));
    }

    /** The half of the range above whose low nibble is 0 to 7. */
    method ExecuteRow1Low(op: u8) returns (implemented: bool)
      requires Valid() && op % 0x10 < 8
      modifies this, memoryMap
      ensures Valid() && TimingView() == old(TimingView())
      ensures implemented <==> CpuSpec.ExecuteRow1(old(CoreView()), op).Some?
      ensures implemented ==> CpuSpec.ExecuteRow1(old(CoreView()), op).value == CoreView()
      ensures !implemented ==> CoreView() == old(CoreView())
    {
      ghost var s := CoreView();
      implemented := true;
      match op
      case 0x11 =>
        de := FetchPair();
      case 0x13 =>
        var nn := Wrap16(de.Word() + 1);
        de := FromWord(nn);
      case 0x15 =>
        var r := Dec(de.hi, Flags(fz, fn, fh, fc));
        de := de.(hi := r.value);
        SetFlags(r.f);
      case 0x16 =>
        var n := Fetch();
        de := de.(hi := n);
      case 0x17 =>
        RotateLeftA();
      case _ =>
        assert op != 0x18 && op != 0x1A && op != 0x1D && op != 0x1E;
        assert CpuSpec.ExecuteRow1(s, op) == None;
        implemented := false;
    }

    /** The half of the range above whose low nibble is 8 to F. */
    method ExecuteRow1High(op: u8) returns (implemented: bool)
      requires Valid() && op % 0x10 >= 8
      modifies this, memoryMap
      ensures Valid() && TimingView() == old(TimingView())
      ensures implemented <==> CpuSpec.ExecuteRow1(old(CoreView()), op).Some?
      ensures implemented ==> CpuSpec.ExecuteRow1(old(CoreView()), op).value == CoreView()
      ensures !implemented ==> CoreView() == old(CoreView())
    {
      ghost var s := CoreView();
      implemented := true;
      match op
      case 0x18 =>
        JumpRelative(true);
      case 0x1A =>
        a := memoryMap[de.Word()];
      case 0x1D =>
        var r := Dec(de.lo, Flags(fz, fn, fh, fc));
        de := de.(lo := r.value);
        SetFlags(r.f);
      case 0x1E =>
        var n := Fetch();
        de := de.(lo := n);
      case _ =>
        assert op != 0x11 && op != 0x13 && op != 0x15 && op != 0x16 && op != 0x17;
        assert CpuSpec.ExecuteRow1(s, op) == None;
        implemented := false;
    }

    /** The opcodes 0x20 to 0x2F. */
    method ExecuteRow2(op: u8) returns (implemented: bool)
      requires Valid()
      modifies this, memoryMap
      ensures Valid() && TimingView() == old(TimingView())
      ensures implemented <==> CpuSpec.ExecuteRow2(old(CoreView()), op).Some?
      ensures implemented ==> CpuSpec.ExecuteRow2(old(CoreView()), op).value == CoreView()
      ensures !implemented ==> CoreView() == old(CoreView())
    {
      if op % 0x10 < 8 {
        implemented := ExecuteRow2Low(op);
      } else {
        implemented := ExecuteRow2High(op);
      }
    }

    /** The half of the range above whose low nibble is 0 to 7. */
    method ExecuteRow2Low(op: u8) returns (implemented: bool)
      requires Valid() && op % 0x10 < 8
      modifies this, memoryMap
      ensures Valid() && TimingView() == old(TimingView())
      ensures implemented <==> CpuSpec.ExecuteRow2(old(CoreView()), op).Some?
      ensures implemented ==> CpuSpec.ExecuteRow2(old(CoreView()), op).value == CoreView()
      ensures !implemented ==> CoreView() == old(CoreView())
    {
      ghost var s := CoreView();
      implemented := true;
      match op
      case 0x20 =>
        JumpRelative(fz == 0);
      case 0x21 =>
        hl := FetchPair();
      case 0x22 =>
        Store(hl.Word(), a);
        var nn := Wrap16(hl.Word() + 1);
        hl := FromWord(nn);
      case 0x23 =>
        var nn := Wrap16(hl.Word() + 1);
        hl := FromWord(nn);
      case 0x24 =>
        var r := Inc(hl.hi, Flags(fz, fn, fh, fc));
        hl := hl.(hi := r.value);
        SetFlags(r.f);
      case 0x27 =>
        // The corrected digits are computed and never stored.
        var d1 := a / 0x10;
        var d2 := a % 0x10;
        if fn != 0 {
          if fh != 0 {
            d2 := Wrap8(d2 - 6);
          }
          if fc != 0 {
            d1 := Wrap8(d1 - 6);
          }
          if d2 > 9 {
            d2 := Wrap8(d2 - 6);
          }
          if d1 > 9 {
            d1 := Wrap8(d1 - 6);
            fc := 1;
          }
        }
      case _ =>
        assert op != 0x28 && op != 0x2E;
        assert CpuSpec.ExecuteRow2(s, op) == None;
        implemented := false;
    }

    /** The half of the range above whose low nibble is 8 to F. */
    method ExecuteRow2High(op: u8) returns (implemented: bool)
      requires Valid() && op % 0x10 >= 8
      modifies this, memoryMap
      ensures Valid() && TimingView() == old(TimingView())
      ensures implemented <==> CpuSpec.ExecuteRow2(old(CoreView()), op).Some?
      ensures implemented ==> CpuSpec.ExecuteRow2(old(CoreView()), op).value == CoreView()
      ensures !implemented ==> CoreView() == old(CoreView())
    {
      ghost var s := CoreView();
      implemented := true;
      match op
      case 0x28 =>
        JumpRelative(fz != 0);
      case 0x2E =>
        var n := Fetch();
        hl := hl.(lo := n);
      case _ =>
        assert op != 0x20 && op != 0x21 && op != 0x22 && op != 0x23 && op != 0x24 && op != 0x27;
        assert CpuSpec.ExecuteRow2(s, op) == None;
        implemented := false;
    }

    /** The opcodes 0x30 to 0x3F. */
    method ExecuteRow3(op: u8) returns (implemented: bool)
      requires Valid()
      modifies this, memoryMap
      ensures Valid() && TimingView() == old(TimingView())
      ensures implemented <==> CpuSpec.ExecuteRow3(old(CoreView()), op).Some?
      ensures implemented ==> CpuSpec.ExecuteRow3(old(CoreView()), op).value == CoreView()
      ensures !implemented ==> CoreView() == old(CoreView())
    {
      if op % 0x10 < 8 {
        implemented := ExecuteRow3Low(op);
      } else {
        implemented := ExecuteRow3High(op);
      }
    }

    /** The half of the range above whose low nibble is 0 to 7. */
    method ExecuteRow3Low(op: u8) returns (implemented: bool)
      requires Valid() && op % 0x10 < 8
      modifies this, memoryMap
      ensures Valid() && TimingView() == old(TimingView())
      ensures implemented <==> CpuSpec.ExecuteRow3(old(CoreView()), op).Some?
      ensures implemented ==> CpuSpec.ExecuteRow3(old(CoreView()), op).value == CoreView()
      ensures !implemented ==> CoreView() == old(CoreView())
    {
      ghost var s := CoreView();
      implemented := true;
      match op
      case 0x31 =>
        var nn := FetchWord();
        sp := nn;
        assert CoreView() == s.(sp := Imm16(s), pc := Wrap16(s.pc + 2));
      case 0x32 =>
        Store(hl.Word(), a);
        var nn := Wrap16(hl.Word() - 1);
        hl := FromWord(nn);
        assert CoreView() == s.(mem := Write(s.mem, s.hl.Word(), s.a), hl := FromWord(nn));
      case _ =>
        assert op != 0x3C && op != 0x3D && op != 0x3E && op != 0x3F;
        assert CpuSpec.ExecuteRow3(s, op) == None;
        implemented := false;
    }

    /** The half of the range above whose low nibble is 8 to F. */
    method ExecuteRow3High(op: u8) returns (implemented: bool)
      requires Valid() && op % 0x10 >= 8
      modifies this, memoryMap
      ensures Valid() && TimingView() == old(TimingView())
      ensures implemented <==> CpuSpec.ExecuteRow3(old(CoreView()), op).Some?
      ensures implemented ==> CpuSpec.ExecuteRow3(old(CoreView()), op).value == CoreView()
      ensures !implemented ==> CoreView() == old(CoreView())
    {
      ghost var s := CoreView();
      implemented := true;
      match op
      case 0x3C =>
        var r := Inc(a, Flags(fz, fn, fh, fc));
        a := r.value;
        SetFlags(r.f);
        assert CoreView() == WithA(s, r);
      case 0x3D =>
        var r := Dec(a, Flags(fz, fn, fh, fc));
        a := r.value;
        SetFlags(r.f);
        assert CoreView() == WithA(s, r);
      case 0x3E =>
        var n := Fetch();
        a := n;
        assert CoreView() == s.(a := Imm8(s), pc := Wrap16(s.pc + 1));
      case 0x3F =>
        SetFlags(Flags(fz, 0, 0, ComplementCarry(fc)));
        assert CoreView() == s.(f := s.f.(n := 0, h := 0, c := ComplementCarry(s.f.c)));
      case _ =>
        assert op != 0x31 && op != 0x32;
        assert CpuSpec.ExecuteRow3(s, op) == None;
        implemented := false;
    }

    /** The opcodes 0x40 to 0x7F: loads between registers and through HL. */
    method ExecuteRows4To7(op: u8) returns (implemented: bool)
      requires Valid() && 4 <= op / 0x10 <= 7
      modifies this, memoryMap
      ensures Valid() && TimingView() == old(TimingView())
      ensures implemented <==> CpuSpec.Execute(old(CoreView()), op).Some?
      ensures implemented ==> CpuSpec.Execute(old(CoreView()), op).value == CoreView()
      ensures !implemented ==> CoreView() == old(CoreView())
    {
      if op % 0x10 < 8 {
        implemented := ExecuteRows4To7Low(op);
      } else {
        implemented := ExecuteRows4To7High(op);
      }
    }

    /** The half of the range above whose low nibble is 0 to 7. */
    method ExecuteRows4To7Low(op: u8) returns (implemented: bool)
      requires Valid() && op % 0x10 < 8 && 4 <= op / 0x10 <= 7
      modifies this, memoryMap
      ensures Valid() && TimingView() == old(TimingView())
      ensures implemented <==> CpuSpec.Execute(old(CoreView()), op).Some?
      ensures implemented ==> CpuSpec.Execute(old(CoreView()), op).value == CoreView()
      ensures !implemented ==> CoreView() == old(CoreView())
    {
      ghost var s := CoreView();
      implemented := true;
      match op
      case 0x47 => bc := bc.(hi := a);
      case 0x57 => de := de.(hi := a);
      case 0x66 => hl := hl.(hi := memoryMap[hl.Word()]);
      case 0x67 => hl := hl.(hi := a);
      case 0x77 => Store(hl.Word(), a);
      case _ =>
        assert op != 0x4F && op != 0x58 && op != 0x59 && op != 0x78 && op != 0x7B && op != 0x7C && op != 0x7D && op != 0x7E;
        assert CpuSpec.Execute(s, op) == None;
        implemented := false;
    }

    /** The half of the range above whose low nibble is 8 to F. */
    method ExecuteRows4To7High(op: u8) returns (implemented: bool)
      requires Valid() && op % 0x10 >= 8 && 4 <= op / 0x10 <= 7
      modifies this, memoryMap
      ensures Valid() && TimingView() == old(TimingView())
      ensures implemented <==> CpuSpec.Execute(old(CoreView()), op).Some?
      ensures implemented ==> CpuSpec.Execute(old(CoreView()), op).value == CoreView()
      ensures !implemented ==> CoreView() == old(CoreView())
    {
      ghost var s := CoreView();
      implemented := true;
      match op
      case 0x4F => bc := bc.(lo := a);
      case 0x58 => de := de.(lo := bc.hi);
      case 0x59 => de := de.(lo := de.hi);
      case 0x78 => a := bc.hi;
      case 0x7B => a := de.lo;
      case 0x7C => a := hl.hi;
      case 0x7D => a := hl.lo;
      case 0x7E => a := memoryMap[hl.Word()];
      case _ =>
        assert op != 0x47 && op != 0x57 && op != 0x66 && op != 0x67 && op != 0x77;
        assert CpuSpec.Execute(s, op) == None;
        implemented := false;
    }

    /** The opcodes 0x80 to 0xBF: the 8-bit arithmetic on A. */
    method ExecuteRows8ToB(op: u8) returns (implemented: bool)
      requires Valid() && 8 <= op / 0x10 <= 0xB
      modifies this, memoryMap
      ensures Valid() && TimingView() == old(TimingView())
      ensures implemented <==> CpuSpec.Execute(old(CoreView()), op).Some?
      ensures implemented ==> CpuSpec.Execute(old(CoreView()), op).value == CoreView()
      ensures !implemented ==> CoreView() == old(CoreView())
    {
      if op % 0x10 < 8 {
        implemented := ExecuteRows8ToBLow(op);
      } else {
        implemented := ExecuteRows8ToBHigh(op);
      }
    }

    /** The half of the range above whose low nibble is 0 to 7. */
    method ExecuteRows8ToBLow(op: u8) returns (implemented: bool)
      requires Valid() && op % 0x10 < 8 && 8 <= op / 0x10 <= 0xB
      modifies this, memoryMap
      ensures Valid() && TimingView() == old(TimingView())
      ensures implemented <==> CpuSpec.Execute(old(CoreView()), op).Some?
      ensures implemented ==> CpuSpec.Execute(old(CoreView()), op).value == CoreView()
      ensures !implemented ==> CoreView() == old(CoreView())
    {
      ghost var s := CoreView();
      implemented := true;
      match op
      case 0x86 =>
        var n := memoryMap[hl.Word()];
        var r := Add(a, n, 0);
        SetFlags(r.f);
        a := r.value;
      case 0x90 =>
        var r := Sub(a, bc.hi);
        SetFlags(r.f);
        a := r.value;
      case 0xA7 =>
        SetFlags(AndSelfFlags(a));
      case 0xB7 =>
        SetFlags(OrSelfFlags(a));
      case _ =>
        assert op != 0xAF && op != 0xBE;
        assert CpuSpec.Execute(s, op) == None;
        implemented := false;
    }

    /** The half of the range above whose low nibble is 8 to F. */
    method ExecuteRows8ToBHigh(op: u8) returns (implemented: bool)
      requires Valid() && op % 0x10 >= 8 && 8 <= op / 0x10 <= 0xB
      modifies this, memoryMap
      ensures Valid() && TimingView() == old(TimingView())
      ensures implemented <==> CpuSpec.Execute(old(CoreView()), op).Some?
      ensures implemented ==> CpuSpec.Execute(old(CoreView()), op).value == CoreView()
      ensures !implemented ==> CoreView() == old(CoreView())
    {
      ghost var s := CoreView();
      implemented := true;
      match op
      case 0xAF =>
        a := 0;
        SetFlags(XorSelf().f);
      case 0xBE =>
        var n := memoryMap[hl.Word()];
        SetFlags(Sub(a, n).f);
      case _ =>
        assert op != 0x86 && op != 0x90 && op != 0xA7 && op != 0xB7;
        assert CpuSpec.Execute(s, op) == None;
        implemented := false;
    }

    /** RET: `NN = memory_map[SP++]; NN |= memory_map[SP++] << 8; PC = NN`. */
    method Return()
      requires Valid()
      modifies this
      ensures Valid() && TimingView() == old(TimingView())
      ensures CoreView() == CpuSpec.Return(old(CoreView()))
    {
      var lo := PopByte();
      var hi := PopByte();
      pc := Join(lo, hi);
      WrapAdd16(old(sp) + 1, 1);
    }

    /** The opcodes 0xC0 to 0xCF: returns, jumps, calls, the stack, the prefix and ADC. */
    method ExecuteRowC(op: u8) returns (implemented: bool)
      requires Valid()
      modifies this, memoryMap
      ensures Valid() && TimingView() == old(TimingView())
      ensures implemented <==> CpuSpec.ExecuteRowC(old(CoreView()), op).Some?
      ensures implemented ==> CpuSpec.ExecuteRowC(old(CoreView()), op).value == CoreView()
      ensures !implemented ==> CoreView() == old(CoreView())
    {
      if op % 0x10 < 8 {
        implemented := ExecuteRowCLow(op);
      } else {
        implemented := ExecuteRowCHigh(op);
      }
    }

    /** RET cc. */
    method ReturnIf(cond: bool)
      requires Valid()
      modifies this
      ensures Valid() && TimingView() == old(TimingView())
      ensures CoreView() == CpuSpec.ReturnIf(old(CoreView()), cond)
    {
      if cond {
        Return();
      }
    }

    /** POP rr: the low byte first, then the high byte. */
    method PopPair() returns (p: Pair)
      requires Valid()
      modifies this
      ensures Valid() && TimingView() == old(TimingView())
      ensures p == PoppedPair(old(CoreView()))
      ensures CoreView() == old(CoreView()).(sp := Wrap16(old(sp) + 2))
    {
      var lo := PopByte();
      var hi := PopByte();
      p := Pair(hi, lo);
      WrapAdd16(old(sp) + 1, 1);
    }

    /** CALL nn: `NN` is read, `PC >> 8` and then `PC & 0xFF` are pushed, `PC = NN`. */
    method Call()
      requires Valid()
      modifies this, memoryMap
      ensures Valid() && TimingView() == old(TimingView())
      ensures CoreView() == CpuSpec.Call(old(CoreView()))
    {
      var nn := FetchWord();
      var ret := FromWord(pc);
      Push(ret.hi, ret.lo);
      pc := nn;
    }

    /** ADC A, n. */
    method AdcImmediate()
      requires Valid()
      modifies this
      ensures Valid() && TimingView() == old(TimingView())
      ensures CoreView() == CpuSpec.AdcImmediate(old(CoreView()))
    {
      var n := Fetch();
      var r := Add(a, n, fc);
      SetFlags(r.f);
      a := r.value;
    }

    /** The half of the range above whose low nibble is 0 to 7. */
    method ExecuteRowCLow(op: u8) returns (implemented: bool)
      requires Valid() && op % 0x10 < 8
      modifies this, memoryMap
      ensures Valid() && TimingView() == old(TimingView())
      ensures implemented <==> CpuSpec.ExecuteRowC(old(CoreView()), op).Some?
      ensures implemented ==> CpuSpec.ExecuteRowC(old(CoreView()), op).value == CoreView()
      ensures !implemented ==> CoreView() == old(CoreView())
    {
      ghost var s := CoreView();
      implemented := true;
      match op
      case 0xC0 =>
        ReturnIf(fz == 0);
      case 0xC1 =>
        bc := PopPair();
      case 0xC3 =>
        var nn := FetchWord();
        pc := nn;
      case 0xC5 =>
        Push(bc.hi, bc.lo);
      case _ =>
        assert op != 0xC8 && op != 0xC9 && op != 0xCB && op != 0xCD && op != 0xCE;
        assert CpuSpec.ExecuteRowC(s, op) == None;
        implemented := false;
    }

    /** The half of the range above whose low nibble is 8 to F. */
    method ExecuteRowCHigh(op: u8) returns (implemented: bool)
      requires Valid() && op % 0x10 >= 8
      modifies this, memoryMap
      ensures Valid() && TimingView() == old(TimingView())
      ensures implemented <==> CpuSpec.ExecuteRowC(old(CoreView()), op).Some?
      ensures implemented ==> CpuSpec.ExecuteRowC(old(CoreView()), op).value == CoreView()
      ensures !implemented ==> CoreView() == old(CoreView())
    {
      ghost var s := CoreView();
      implemented := true;
      match op
      case 0xC8 =>
        ReturnIf(fz != 0);
      case 0xC9 =>
        Return();
      case 0xCB =>
        ShiftOperationCB();
      case 0xCD =>
        Call();
      case 0xCE =>
        AdcImmediate();
      case _ =>
        assert op != 0xC0 && op != 0xC1 && op != 0xC3 && op != 0xC5;
        assert CpuSpec.ExecuteRowC(s, op) == None;
        implemented := false;
    }

    /** The opcodes 0xD0 to 0xEF: PUSH, the high-page stores and AND. */
    method ExecuteRowsDToE(op: u8) returns (implemented: bool)
      requires Valid() && 0xD <= op / 0x10 <= 0xE
      modifies this, memoryMap
      ensures Valid() && TimingView() == old(TimingView())
      ensures implemented <==> CpuSpec.Execute(old(CoreView()), op).Some?
      ensures implemented ==> CpuSpec.Execute(old(CoreView()), op).value == CoreView()
      ensures !implemented ==> CoreView() == old(CoreView())
    {
      if op % 0x10 < 8 {
        implemented := ExecuteRowsDToELow(op);
      } else {
        implemented := ExecuteRowsDToEHigh(op);
      }
    }

    /** The half of the range above whose low nibble is 0 to 7. */
    method ExecuteRowsDToELow(op: u8) returns (implemented: bool)
      requires Valid() && op % 0x10 < 8 && 0xD <= op / 0x10 <= 0xE
      modifies this, memoryMap
      ensures Valid() && TimingView() == old(TimingView())
      ensures implemented <==> CpuSpec.Execute(old(CoreView()), op).Some?
      ensures implemented ==> CpuSpec.Execute(old(CoreView()), op).value == CoreView()
      ensures !implemented ==> CoreView() == old(CoreView())
    {
      ghost var s := CoreView();
      implemented := true;
      match op
      case 0xD5 =>
        Push(de.hi, de.lo);
      case 0xE0 =>
        var n := Fetch();
        Store(HighPage(n), a);
      case 0xE2 =>
        Store(LowPage(bc.lo), a);
      case 0xE5 =>
        Push(hl.hi, hl.lo);
      case 0xE6 =>
        var n := Fetch();
        var r := LogicalAnd(a, n);
        a := r.value;
        SetFlags(r.f);
      case _ =>
        assert op != 0xEA;
        assert CpuSpec.Execute(s, op) == None;
        implemented := false;
    }

    /** The half of the range above whose low nibble is 8 to F. */
    method ExecuteRowsDToEHigh(op: u8) returns (implemented: bool)
      requires Valid() && op % 0x10 >= 8 && 0xD <= op / 0x10 <= 0xE
      modifies this, memoryMap
      ensures Valid() && TimingView() == old(TimingView())
      ensures implemented <==> CpuSpec.Execute(old(CoreView()), op).Some?
      ensures implemented ==> CpuSpec.Execute(old(CoreView()), op).value == CoreView()
      ensures !implemented ==> CoreView() == old(CoreView())
    {
      ghost var s := CoreView();
      implemented := true;
      match op
      case 0xEA =>
        var nn := FetchWord();
        Store(nn, a);
      case _ =>
        assert op != 0xD5 && op != 0xE0 && op != 0xE2 && op != 0xE5 && op != 0xE6;
        assert CpuSpec.Execute(s, op) == None;
        implemented := false;
    }

    /** The opcodes 0xF0 to 0xFF: the high-page load, DI, PUSH AF, the loads
        through SP and CP. */
    method ExecuteRowF(op: u8) returns (implemented: bool)
      requires Valid() && op / 0x10 == 0xF
      modifies this, memoryMap
      ensures Valid() && TimingView() == old(TimingView())
      ensures implemented <==> CpuSpec.Execute(old(CoreView()), op).Some?
      ensures implemented ==> CpuSpec.Execute(old(CoreView()), op).value == CoreView()
      ensures !implemented ==> CoreView() == old(CoreView())
    {
      if op % 0x10 < 8 {
        implemented := ExecuteRowFLow(op);
      } else {
        implemented := ExecuteRowFHigh(op);
      }
    }

    /** The half of the range above whose low nibble is 0 to 7. */
    method ExecuteRowFLow(op: u8) returns (implemented: bool)
      requires Valid() && op % 0x10 < 8 && op / 0x10 == 0xF
      modifies this, memoryMap
      ensures Valid() && TimingView() == old(TimingView())
      ensures implemented <==> CpuSpec.Execute(old(CoreView()), op).Some?
      ensures implemented ==> CpuSpec.Execute(old(CoreView()), op).value == CoreView()
      ensures !implemented ==> CoreView() == old(CoreView())
    {
      ghost var s := CoreView();
      implemented := true;
      match op
      case 0xF0 =>
        var n := Fetch();
        a := memoryMap[HighPage(n)];
      case 0xF3 =>
        ime := 0;
      case 0xF5 =>
        Push(a, PackFlags(Flags(fz, fn, fh, fc)));
      case _ =>
        assert op != 0xF9 && op != 0xFA && op != 0xFE;
        assert CpuSpec.ExecuteRowF(s, op) == None;
        implemented := false;
    }

    /** The half of the range above whose low nibble is 8 to F. */
    method ExecuteRowFHigh(op: u8) returns (implemented: bool)
      requires Valid() && op % 0x10 >= 8 && op / 0x10 == 0xF
      modifies this, memoryMap
      ensures Valid() && TimingView() == old(TimingView())
      ensures implemented <==> CpuSpec.Execute(old(CoreView()), op).Some?
      ensures implemented ==> CpuSpec.Execute(old(CoreView()), op).value == CoreView()
      ensures !implemented ==> CoreView() == old(CoreView())
    {
      ghost var s := CoreView();
      implemented := true;
      match op
      case 0xF9 =>
        sp := hl.Word();
      case 0xFA =>
        var nn := FetchWord();
        a := memoryMap[nn];
      case 0xFE =>
        var n := Fetch();
        SetFlags(Sub(a, n).f);
      case _ =>
        assert op != 0xF0 && op != 0xF3 && op != 0xF5;
        assert CpuSpec.ExecuteRowF(s, op) == None;
        implemented := false;
    }

    /** The read of the CB target `R`: B, C, D, E, H, L, the byte at HL, A. */
    method CbRead(r: u8) returns (val: u8)
      requires Valid() && r < 8
      ensures val == CbTarget(CoreView(), r)
    {
      match r
      case 0 => val := bc.hi;
      case 1 => val := bc.lo;
      case 2 => val := de.hi;
      case 3 => val := de.lo;
      case 4 => val := hl.hi;
      case 5 => val := hl.lo;
      case 6 => val := memoryMap[hl.Word()];
      case _ => val := a;
    }

    /** The write-back to the CB target `R`. */
    method CbWrite(r: u8, val: u8)
      requires Valid() && r < 8
      modifies this, memoryMap
      ensures Valid() && TimingView() == old(TimingView())
      ensures CoreView() == SetCbTarget(old(CoreView()), r, val)
    {
      match r
      case 0 => bc := bc.(hi := val);
      case 1 => bc := bc.(lo := val);
      case 2 => de := de.(hi := val);
      case 3 => de := de.(lo := val);
      case 4 => hl := hl.(hi := val);
      case 5 => hl := hl.(lo := val);
      case 6 => Store(hl.Word(), val);
      case _ => a := val;
    }

    /** `CPU::shift_operation_CB`: the second opcode byte selects the target
        `R = op & 7` and the operation; the byte is read, transformed, the
        flags set, and the byte written back unless the operation was BIT. */
    method ShiftOperationCB()
      requires Valid()
      modifies this, memoryMap
      ensures Valid() && TimingView() == old(TimingView())
      ensures CoreView() == CpuSpec.ShiftOperationCB(old(CoreView()))
    {
      var op := Fetch();
      var r := op % 8;
      var val := CbRead(r);
      var res := ShiftOps.Apply(op, val, Flags(fz, fn, fh, fc));
      SetFlags(res.f);
      if res.writeback {
        CbWrite(r, res.value);
      }
    }

    /** The `switch (op)` of `CPU::step`, PC already past the opcode. */
    method Execute(op: u8) returns (implemented: bool)
      requires Valid()
      modifies this, memoryMap
      ensures Valid() && TimingView() == old(TimingView())
      ensures implemented <==> CpuSpec.Execute(old(CoreView()), op).Some?
      ensures implemented ==> CpuSpec.Execute(old(CoreView()), op).value == CoreView()
      ensures !implemented ==> CoreView() == old(CoreView())
    {
      var row := op / 0x10;
      if row == 0 {
        implemented := ExecuteRow0(op);
      } else if row == 1 {
        implemented := ExecuteRow1(op);
      } else if row == 2 {
        implemented := ExecuteRow2(op);
      } else if row == 3 {
        implemented := ExecuteRow3(op);
      } else if row < 8 {
        implemented := ExecuteRows4To7(op);
      } else if row < 0xC {
        implemented := ExecuteRows8ToB(op);
      } else if row == 0xC {
        implemented := ExecuteRowC(op);
      } else if row < 0xF {
        implemented := ExecuteRowsDToE(op);
      } else {
        implemented := ExecuteRowF(op);
      }
    }

    /** The interrupt check at the top of `CPU::step`. */
    method Dispatch()
      requires Valid()
      modifies this, memoryMap
      ensures Valid()
      ensures StateView() == CpuSpec.Dispatch(old(StateView()))
    {
      if ime != 0 && iflag > 0 {
        ime := 0;
        var ret := FromWord(pc);
        Push(ret.hi, ret.lo);
        if iflag % 2 == 1 {
          pc := VBLANK_INTR_ADDR;
          iflag := iflag - 1;
        }
      }
    }

    /** `CPU::step`. The `default` case of the source spins in `while (1)`;
        here the method returns `stuck`, with the object in the state the
        loop spins in. */
    method Step() returns (stuck: bool)
      requires Valid()
      modifies this, memoryMap
      ensures Valid()
      ensures CpuSpec.Step(old(StateView())) == if stuck then Stuck(FetchedOpcode(old(StateView())), StateView())
                                                 else Done(StateView())
    {
      stuck := false;
      if readyForRender {
        return;
      }
      Dispatch();
      var op := Fetch();
      var implemented := Execute(op);
      if !implemented {
        stuck := true;
        return;
      }
      Tick(OpCycles(op));
    }

    /** The end of `CPU::step`: the two counters are charged and the line
        check runs. */
    method Tick(cycles: u8)
      requires Valid()
      modifies this, memoryMap
      ensures Valid()
      ensures StateView() == CpuSpec.Tick(old(StateView()), cycles)
    {
      cycleCount := Wrap64(cycleCount + cycles);
      lcdCount := Wrap32(lcdCount + cycles);
      EndOfLine();
    }

    /** The line check at the end of `step`: past 456 cycles, LY moves to
        the next line and the frame is ready once LY reaches 144. */
    method EndOfLine()
      requires Valid()
      modifies this, memoryMap
      ensures Valid()
      ensures StateView() == CpuSpec.EndOfLine(old(StateView()))
    {
      if lcdCount > LCD_LINE_CYCLES {
        Store(LCDC_Y_CORDINATE, (memoryMap[LCDC_Y_CORDINATE] + 1) % LCD_VERT_LINES);
        lcdCount := lcdCount - LCD_LINE_CYCLES;
        if memoryMap[LCDC_Y_CORDINATE] == FIRST_VBLANK_LINE {
          readyForRender := true;
        }
      }
    }

    /** `CPU::set_interrupt_flag`: `IF |= 1 << intrpt`. */
    method SetInterruptFlag(intrpt: Interrupt)
      requires Valid()
      modifies this
      ensures Valid()
      ensures StateView() == old(StateView()).(iflag := RaiseInterrupt(old(iflag), intrpt))
    {
      iflag := RaiseInterrupt(iflag, intrpt);
    }
  }
}
