/** The address, timing and layout constants of `GBEmulator/Gameboy.h`, and
    the 64 KiB memory map that the CPU and the GPU share. */
module Hardware {
  import opened Bits

  /** Interrupt vector of the V-blank interrupt. */
  const VBLANK_INTR_ADDR: u16 := 0x0040
  /** First and last byte of the cartridge title in the header. */
  const ROM_TITLE_START: nat := 0x0134
  const ROM_TITLE_END: nat := 0x0143
  /** Header byte that holds the save-RAM size code. */
  const ROM_RAM_SIZE: nat := 0x0149
  /** Memory-mapped LCD registers. */
  const LCDC: u16 := 0xFF40
  const LCD_SCROLL_Y: u16 := 0xFF42
  const LCD_SCROLL_X: u16 := 0xFF43
  const LCDC_Y_CORDINATE: u16 := 0xFF44
  /** 154 lines per frame (144 visible, 10 of vertical blank), 456 cycles per line. */
  const LCD_VERT_LINES: nat := 154
  const LCD_LINE_CYCLES: nat := 456
  /** The line compared against in `CPU::step`: reaching it makes a frame ready. */
  const FIRST_VBLANK_LINE: u8 := 144

  /** The whole address space: exactly 0x10000 bytes. */
  const MEMORY_SIZE: nat := 0x10000
  type Memory = m: seq<u8> | |m| == MEMORY_SIZE witness seq(MEMORY_SIZE, _ => 0)

  /** `memory_map[addr]`. */
  function Read(m: Memory, addr: u16): u8 {
    m[addr]
  }

  /** `memory_map[addr] = v`. */
  function Write(m: Memory, addr: u16, v: u8): Memory {
    m[addr := v]
  }
}
