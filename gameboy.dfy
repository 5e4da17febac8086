/** Class Gameboy of `GBEmulator/Gameboy.h` and its constructor in
    `GBEmulator/Gameboy.cpp`: the 64 KiB memory image built from the ROM and
    the boot ROM, the save RAM sized from the cartridge header, and the CPU
    and the GPU that share the memory image. */
module Machine {
  import opened Bits
  import opened Hardware
  import CpuSpec
  import Cpu
  import Gpu
  import Cartridge

  /** `uint32_t ram_sizes[]`: the save-RAM size in bytes for header codes 0 to 4. */
  const RAM_SIZES: seq<u32> := [0x00, 0x800, 0x2000, 0x8000, 0x20000]

  /** `ram_sizes[code]`; the table has five entries, so the code must be below 5. */
  function SaveSize(code: u8): (size: u32)
    requires code < |RAM_SIZES|
  {
    RAM_SIZES[code]
  }

  /** The save size and the decoder's RAM bank count (of 8 KiB banks) agree
      exactly for codes 0 and 4; for codes 1 to 3 the decoder gives 0 banks
      while the save size is 2, 8 and 32 KiB. */
  lemma SaveSizeAgreesWithBanks(code: u8)
    requires code < |RAM_SIZES|
    ensures SaveSize(code) == Cartridge.RamBankCount(code).value * 0x2000 <==> code == 0 || code == 4
  {
  }

  /** `memcpy(dst, src, n)` applied to a memory image: the first `n` bytes
      come from `src`, the rest stay. */
  function Overlay(m: Memory, src: seq<u8>, n: nat): (r: Memory)
    requires n <= |src| && n <= MEMORY_SIZE
  {
    seq(MEMORY_SIZE, a requires 0 <= a < MEMORY_SIZE => if a < n then src[a] else m[a])
  }

  /** The memory image the constructor builds: zero-filled, then the ROM
      copied in, then the boot ROM copied over its first 256 bytes. */
  function MemoryImage(rom: seq<u8>, size: nat, bootRom: seq<u8>): Memory
    requires size <= MEMORY_SIZE && size <= |rom| && 0x100 <= |bootRom|
  {
    Overlay(Overlay(seq(MEMORY_SIZE, _ => 0), rom, size), bootRom, 0x100)
  }

  /** The memory image holds the boot ROM below 0x100, the ROM from 0x100 up
      to its size, and 0 above. */
  lemma MemoryImageLayout(rom: seq<u8>, size: nat, bootRom: seq<u8>, a: nat)
    requires size <= MEMORY_SIZE && size <= |rom| && 0x100 <= |bootRom| && a < MEMORY_SIZE
    ensures MemoryImage(rom, size, bootRom)[a] ==
      if a < 0x100 then bootRom[a] else if a < size then rom[a] else 0
  {
  }

  /** The ROM bytes that the boot ROM does not cover are all in the image. */
  lemma MemoryImageKeepsRom(rom: seq<u8>, size: nat, bootRom: seq<u8>)
    requires size <= MEMORY_SIZE && size <= |rom| && 0x100 <= |bootRom|
    ensures size > 0x100 ==> MemoryImage(rom, size, bootRom)[0x100..size] == rom[0x100..size]
    ensures MemoryImage(rom, size, bootRom)[..0x100] == bootRom[..0x100]
  {
    var m := MemoryImage(rom, size, bootRom);
    if size > 0x100 {
      assert forall a | 0x100 <= a < size :: m[a] == rom[a];
      assert forall i | 0 <= i < size - 0x100 :: m[0x100..size][i] == m[0x100 + i];
    }
    assert forall a | 0 <= a < 0x100 :: m[a] == bootRom[a];
  }

  /** `memset(dst, v, n)`. */
  method Memset(dst: array<u8>, v: u8, n: nat)
    requires n <= dst.Length
    modifies dst
    ensures forall a | 0 <= a < dst.Length :: dst[a] == if a < n then v else old(dst[a])
  {
    for i := 0 to n
      invariant forall a | 0 <= a < dst.Length :: dst[a] == if a < i then v else old(dst[a])
    {
      dst[i] := v;
    }
  }

  /** `memcpy(dst, src, n)`, for two distinct arrays. */
  method Memcpy(dst: array<u8>, src: array<u8>, n: nat)
    requires n <= dst.Length && n <= src.Length && dst != src
    modifies dst
    ensures forall a | 0 <= a < dst.Length :: dst[a] == if a < n then src[a] else old(dst[a])
  {
    for i := 0 to n
      invariant forall a | 0 <= a < dst.Length :: dst[a] == if a < i then src[a] else old(dst[a])
    {
      dst[i] := src[i];
    }
  }

  class Gameboy {
    const memoryMap: array<u8>
    const romPtr: array<u8>
    const romSize: nat
    const savePtr: array<u8>
    const saveSize: nat
    const cpu: Cpu.Cpu
    const gpu: Gpu.Gpu
    var isRendered: bool

    /** The CPU and the GPU share this object's memory map. */
    ghost predicate Valid() {
      memoryMap.Length == MEMORY_SIZE && savePtr.Length == saveSize
      && cpu.Valid() && gpu.Valid()
      && cpu.memoryMap == memoryMap && gpu.memoryMap == memoryMap
    }

    /** `Gameboy::Gameboy(rom, size, boot_rom)`. The header byte at
        `ROM_RAM_SIZE` picks the save size; the ROM (at most 64 KiB) is
        copied over a zeroed memory map, and the boot ROM over its first 256
        bytes. `cpu` and `gpu` are constructed with the finished memory map,
        which they receive through `set_memmap` in the source; neither
        constructor reads memory, so the order does not matter. `regs`,
        `ie0` and `if0` are the CPU's uninitialised register contents. */
    constructor(rom: array<u8>, size: nat, bootRom: array<u8>,
                regs: CpuSpec.Core, ie0: u8, if0: u8)
      requires size <= MEMORY_SIZE && size <= rom.Length && 0x100 <= bootRom.Length
      requires ROM_RAM_SIZE < rom.Length && rom[ROM_RAM_SIZE] < |RAM_SIZES|
      ensures Valid() && !isRendered
      ensures romPtr == rom && romSize == size
      ensures saveSize == SaveSize(rom[ROM_RAM_SIZE])
      ensures fresh(memoryMap) && fresh(savePtr) && fresh(cpu) && fresh(gpu)
      ensures memoryMap[..] == MemoryImage(rom[..], size, bootRom[..])
      ensures cpu.StateView() ==
        CpuSpec.State(regs.(pc := 0, mem := memoryMap[..]), ie0, if0, 0, 0, false)
      ensures gpu.View() ==
        Gpu.Buffers(seq(Gpu.BG_SIZE, _ => 0), seq(Gpu.FRAME_SIZE, _ => 0))
    {
      isRendered := false;
      romPtr := rom;
      romSize := size;
      var saveBytes := RAM_SIZES[rom[ROM_RAM_SIZE]];
      saveSize := saveBytes;
      savePtr := new u8[saveBytes];
      var mm := new u8[0x10000];
      Memset(mm, 0, 0x10000);
      Memcpy(mm, rom, size);
      Memcpy(mm, bootRom, 0x100);
      assert mm[..] == MemoryImage(rom[..], size, bootRom[..]);
      memoryMap := mm;
      cpu := new Cpu.Cpu(regs, ie0, if0, mm);
      gpu := new Gpu.Gpu(mm);
    }

    /** `Gameboy::stepCPU()`: it only marks the frame as rendered. */
    method StepCpu()
      modifies this
      ensures isRendered
    {
      isRendered := true;
    }
  }
}
