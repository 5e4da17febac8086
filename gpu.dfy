/** The background renderer of `GBEmulator/Gameboy.cpp` (class `GPU`). It
    decodes the 32 x 32 background tile map into a 256 x 256 picture of
    2-bit colour numbers (`total_frame`), then copies the 160 x 144 window
    that the scroll registers select into the visible frame (`frame_buffer`). */
module Gpu {
  import opened Bits
  import opened Hardware
  import opened Wrappers

  /** The visible frame is 160 x 144 pixels, one byte each. */
  const FRAME_WIDTH: nat := 160
  const FRAME_HEIGHT: nat := 144
  const FRAME_SIZE: nat := 160 * 144
  /** The background picture is 256 x 256 pixels: 32 x 32 tiles of 8 x 8. */
  const BG_SIDE: nat := 256
  const BG_SIZE: nat := 256 * 256

  /** `(lcdc >> n) & 0x01`: one control bit of the LCDC register. */
  function LcdcFlag(lcdc: u8, n: nat): (r: nat)
    ensures r <= 1 && r == Bit(lcdc, n)
  {
    LowBitOps(Shr(lcdc, n));
    And(Shr(lcdc, n), 1)
  }

  /** Start of the tile map that LCDC bit 3 selects. */
  function BgMapBase(lcdc: u8): (base: nat)
    ensures base == 0x9800 || base == 0x9C00
    ensures base == 0x9C00 <==> Bit(lcdc, 3) == 1
  {
    0x9800 + 0x400 * LcdcFlag(lcdc, 3)
  }

  /** The tile number at row `i`, column `j` of the selected tile map. */
  function MapEntry(mem: Memory, lcdc: u8, i: nat, j: nat): u8
    requires i < 32 && j < 32
  {
    Read(mem, BgMapBase(lcdc) + i * 32 + j)
  }

  /** `tile_top_addr`: 0x9000 when LCDC bit 4 is clear, 0x8000 when set. */
  function TileDataBase(lcdc: u8): nat {
    0x9000 - 0x1000 * LcdcFlag(lcdc, 4)
  }

  /** The tile index: signed (`(int8_t)tilenum`) when LCDC bit 4 is clear,
      unsigned otherwise. */
  function TileOffset(tiledataSelect: nat, tilenum: u8): int {
    if tiledataSelect == 0 then Signed(tilenum) else tilenum
  }

  /** The first of the 16 bytes of a tile, as the source evidently intends:
      the signed index is added to 0x9000 as a signed number. */
  function TileAddress(lcdc: u8, tilenum: u8): (addr: nat)
    ensures 0x8000 <= addr && addr + 16 <= 0x9800
    ensures Bit(lcdc, 4) == 1 ==> addr + 16 <= 0x9000
    ensures Bit(lcdc, 4) == 0 ==> 0x8800 <= addr
    ensures addr % 16 == 0
  {
    TileDataBase(lcdc) + 16 * TileOffset(LcdcFlag(lcdc, 4), tilenum)
  }

  /** The tile address as written: `tile_id` is a `uint16_t`, so a negative
      signed index becomes `0x10000 + index` before it is scaled by 16. */
  function TileAddressAsWritten(lcdc: u8, tilenum: u8): nat {
    TileDataBase(lcdc) + 16 * Wrap16(TileOffset(LcdcFlag(lcdc, 4), tilenum))
  }

  /** The two agree exactly when the index is unsigned or below 0x80; in
      every other case the address as written lies past the memory map. */
  lemma TileAddressAsWrittenDiffers(lcdc: u8, tilenum: u8)
    ensures TileAddressAsWritten(lcdc, tilenum) == TileAddress(lcdc, tilenum)
        <==> Bit(lcdc, 4) == 1 || tilenum < 0x80
    ensures Bit(lcdc, 4) == 0 && tilenum >= 0x80 ==>
        TileAddressAsWritten(lcdc, tilenum) >= MEMORY_SIZE
  {
    if Bit(lcdc, 4) == 0 && tilenum >= 0x80 {
      assert Wrap16(Signed(tilenum)) == tilenum - 0x100 + 0x1_0000;
    }
  }

  /** With the background on and tile data at 0x9000 (LCDC 0x81), tile number
      0x80 is read from 0x108800, far past the 64 KiB memory map. */
  lemma SignedTileReadsPastMemory()
    ensures TileAddressAsWritten(0x81, 0x80) == 0x10_8800
    ensures TileAddress(0x81, 0x80) == 0x8800
  {
    assert Shr(0x81, 4) == 0x08;
    assert LcdcFlag(0x81, 4) == 0;
  }

  /** Pixel `l` (0 is the leftmost) of a tile line whose two bytes are `b1`
      and `b2`: `((b2 >> (7 - l)) & 1) + (((b1 >> (7 - l)) & 1) << 1)`. The
      second byte gives the low bit of the colour number, the first the high. */
  function TilePixel(b1: u8, b2: u8, l: nat): (px: nat)
    requires l < 8
    ensures px <= 3
    ensures px % 2 == Bit(b2, 7 - l) && px / 2 == Bit(b1, 7 - l)
  {
    LowBitOps(Shr(b2, 7 - l));
    LowBitOps(Shr(b1, 7 - l));
    ShlIsMul(And(Shr(b1, 7 - l), 1), 1);
    And(Shr(b2, 7 - l), 1) + Shl(And(Shr(b1, 7 - l), 1), 1)
  }

  /** The background pixel on line `y`, column `x` of the 256 x 256 picture. */
  function BgPixel(mem: Memory, lcdc: u8, y: nat, x: nat): (px: u8)
    requires y < BG_SIDE && x < BG_SIDE
    ensures px <= 3
  {
    var addr := TileAddress(lcdc, MapEntry(mem, lcdc, y / 8, x / 8)) + 2 * (y % 8);
    TilePixel(Read(mem, addr), Read(mem, addr + 1), x % 8)
  }

  /** `total_frame` after the background is drawn: row-major, 256 per line. */
  function Background(mem: Memory, lcdc: u8): (bg: seq<u8>)
    ensures |bg| == BG_SIZE
  {
    seq(BG_SIZE, p requires 0 <= p < BG_SIZE => BgPixel(mem, lcdc, p / BG_SIDE, p % BG_SIDE))
  }

  /** Line `k`, pixel `l` of the tile at map row `i`, column `j` lands at
      `total_frame[(8i + k) * 256 + 8j + l]` and is decoded from bytes
      `2k` and `2k + 1` of that tile. */
  lemma BackgroundAt(mem: Memory, lcdc: u8, i: nat, j: nat, k: nat, l: nat)
    requires i < 32 && j < 32 && k < 8 && l < 8
    ensures (8 * i + k) * BG_SIDE + 8 * j + l < BG_SIZE
    ensures var addr := TileAddress(lcdc, MapEntry(mem, lcdc, i, j)) + 2 * k;
      Background(mem, lcdc)[(8 * i + k) * BG_SIDE + 8 * j + l]
        == TilePixel(Read(mem, addr), Read(mem, addr + 1), l)
  {
    PixelIndex(i, j, k, l);
  }

  /** How the flat index of a tile pixel splits back into line and column. */
  lemma PixelIndex(i: nat, j: nat, k: nat, l: nat)
    requires i < 32 && j < 32 && k < 8 && l < 8
    ensures var p := (8 * i + k) * BG_SIDE + 8 * j + l;
      p < BG_SIZE && p / BG_SIDE == 8 * i + k && p % BG_SIDE == 8 * j + l
      && (8 * i + k) / 8 == i && (8 * i + k) % 8 == k
      && (8 * j + l) / 8 == j && (8 * j + l) % 8 == l
  {
    var p := (8 * i + k) * BG_SIDE + 8 * j + l;
    DivUnique(p, BG_SIDE, 8 * i + k, 8 * j + l);
    DivUnique(8 * i + k, 8, i, k);
    DivUnique(8 * j + l, 8, j, l);
  }

  /** The visible pixel on line `y`, column `x`: the background pixel at the
      scrolled position while that position stays inside the first 160 x 144
      pixels of the background, 0 beyond. */
  function ViewPixel(bg: seq<u8>, scrollX: u8, scrollY: u8, y: nat, x: nat): u8
    requires |bg| == BG_SIZE && y < FRAME_HEIGHT && x < FRAME_WIDTH
  {
    if scrollX + x < FRAME_WIDTH && scrollY + y < FRAME_HEIGHT
    then bg[(scrollY + y) * BG_SIDE + scrollX + x]
    else 0
  }

  /** `frame_buffer` after the copy: row-major, 160 per line. */
  function Viewport(bg: seq<u8>, scrollX: u8, scrollY: u8): (frame: seq<u8>)
    requires |bg| == BG_SIZE
    ensures |frame| == FRAME_SIZE
  {
    seq(FRAME_SIZE, q requires 0 <= q < FRAME_SIZE =>
      ViewPixel(bg, scrollX, scrollY, q / FRAME_WIDTH, q % FRAME_WIDTH))
  }

  /** Pixel `x` of line `y` of the frame, in the source's own terms. */
  lemma ViewportAt(bg: seq<u8>, scrollX: u8, scrollY: u8, y: nat, x: nat)
    requires |bg| == BG_SIZE && y < FRAME_HEIGHT && x < FRAME_WIDTH
    ensures y * FRAME_WIDTH + x < FRAME_SIZE
    ensures Viewport(bg, scrollX, scrollY)[y * FRAME_WIDTH + x] ==
      if scrollX + x < FRAME_WIDTH && scrollY + y < FRAME_HEIGHT
      then bg[(scrollY + y) * BG_SIDE + scrollX + x]
      else 0
  {
    FrameIndex(y, x);
  }

  /** How the flat index of a frame pixel splits back into line and column. */
  lemma FrameIndex(y: nat, x: nat)
    requires y < FRAME_HEIGHT && x < FRAME_WIDTH
    ensures y * FRAME_WIDTH + x < FRAME_SIZE
    ensures (y * FRAME_WIDTH + x) / FRAME_WIDTH == y
    ensures (y * FRAME_WIDTH + x) % FRAME_WIDTH == x
  {
    DivUnique(y * FRAME_WIDTH + x, FRAME_WIDTH, y, x);
  }

  /** The clearing loop of the `bg_display == 0` branch as written: it runs
      to 256 * 256, so it is defined only on a buffer of at least that size. */
  function ClearAsWritten(frame: seq<u8>): (r: Option<seq<u8>>)
    ensures r.Some? ==> |r.value| == |frame|
  {
    if |frame| < BG_SIZE then None
    else Some(seq(|frame|, q requires 0 <= q < |frame| => if q < BG_SIZE then 0 else frame[q]))
  }

  /** On the 160 x 144 frame buffer the loop as written writes 42496 bytes
      past its end. */
  lemma ClearAsWrittenOverruns(frame: seq<u8>)
    requires |frame| == FRAME_SIZE
    ensures ClearAsWritten(frame) == None
    ensures BG_SIZE - FRAME_SIZE == 42496
  {
  }

  /** The two buffers the renderer owns. */
  datatype Buffers = Buffers(totalFrame: seq<u8>, frameBuffer: seq<u8>) {
    predicate Valid() {
      |totalFrame| == BG_SIZE && |frameBuffer| == FRAME_SIZE
    }
  }

  /** What `draw_frame` leaves in the buffers, given the memory map. With the
      display off (LCDC bit 7 clear) nothing changes; with the background off
      (LCDC bit 0 clear) `total_frame` keeps its old contents. */
  function DrawnFrame(mem: Memory, before: Buffers): (after: Buffers)
    requires before.Valid()
    ensures after.Valid()
  {
    var lcdc := Read(mem, LCDC);
    if LcdcFlag(lcdc, 7) == 0 then before
    else
      var total := if LcdcFlag(lcdc, 0) != 0 then Background(mem, lcdc) else before.totalFrame;
      Buffers(total, Viewport(total, Read(mem, LCD_SCROLL_X), Read(mem, LCD_SCROLL_Y)))
  }

  /** With the display off the frame is left exactly as it was. */
  lemma DisplayOffKeepsFrame(mem: Memory, before: Buffers)
    requires before.Valid() && Bit(Read(mem, LCDC), 7) == 0
    ensures DrawnFrame(mem, before) == before
  {
  }

  /** Drawing twice from the same memory gives what drawing once gives. */
  lemma DrawFrameIdempotent(mem: Memory, before: Buffers)
    requires before.Valid()
    ensures DrawnFrame(mem, DrawnFrame(mem, before)) == DrawnFrame(mem, before)
  {
  }

  /** With display and background on, the result does not depend on the old
      buffers at all, and every visible pixel is a colour number 0 to 3. */
  lemma DrawnFrameFromMemory(mem: Memory, b1: Buffers, b2: Buffers)
    requires b1.Valid() && b2.Valid()
    requires Bit(Read(mem, LCDC), 7) == 1 && Bit(Read(mem, LCDC), 0) == 1
    ensures DrawnFrame(mem, b1) == DrawnFrame(mem, b2)
    ensures forall q | 0 <= q < FRAME_SIZE :: DrawnFrame(mem, b1).frameBuffer[q] <= 3
  {
    var lcdc := Read(mem, LCDC);
    var bg := Background(mem, lcdc);
    forall q | 0 <= q < FRAME_SIZE
      ensures DrawnFrame(mem, b1).frameBuffer[q] <= 3
    {
      var y, x := q / FRAME_WIDTH, q % FRAME_WIDTH;
      if Read(mem, LCD_SCROLL_X) + x < FRAME_WIDTH && Read(mem, LCD_SCROLL_Y) + y < FRAME_HEIGHT {
        var p := (Read(mem, LCD_SCROLL_Y) + y) * BG_SIDE + Read(mem, LCD_SCROLL_X) + x;
        assert bg[p] == BgPixel(mem, lcdc, p / BG_SIDE, p % BG_SIDE);
      }
    }
  }

  /** `class GPU`: the memory map it reads and the two buffers it draws into. */
  class Gpu {
    const memoryMap: array<u8>
    const frameWidth: u8
    const frameHeight: u8
    const totalFrame: array<u8>
    const frameBuffer: array<u8>

    ghost predicate Valid() {
      memoryMap.Length == MEMORY_SIZE && totalFrame.Length == BG_SIZE
      && frameBuffer.Length == FRAME_SIZE
      && frameWidth as nat == FRAME_WIDTH && frameHeight as nat == FRAME_HEIGHT
      && memoryMap != totalFrame && memoryMap != frameBuffer && totalFrame != frameBuffer
    }

    /** The buffers that the renderer owns, as values. */
    ghost function View(): (b: Buffers)
      requires Valid()
      reads totalFrame, frameBuffer
      ensures b.Valid()
    {
      Buffers(totalFrame[..], frameBuffer[..])
    }

    /** `GPU::GPU()` followed by `set_memmap(memmap)`: a 160 x 144 frame and a
        256 x 256 background, both cleared. */
    constructor(memmap: array<u8>)
      requires memmap.Length == MEMORY_SIZE
      ensures Valid() && memoryMap == memmap
      ensures fresh(totalFrame) && fresh(frameBuffer)
      ensures totalFrame[..] == seq(BG_SIZE, _ => 0)
      ensures frameBuffer[..] == seq(FRAME_SIZE, _ => 0)
    {
      frameHeight := 144;
      frameWidth := 160;
      frameBuffer := new u8[160 * 144](_ => 0);
      totalFrame := new u8[256 * 256](_ => 0);
      memoryMap := memmap;
    }

    /** `GPU::draw_frame()`. */
    method DrawFrame()
      requires Valid()
      modifies totalFrame, frameBuffer
      ensures View() == DrawnFrame(memoryMap[..], old(View()))
    {
      ghost var mem: Memory := memoryMap[..];
      var displayEnable := LcdcFlag(memoryMap[LCDC], 7);
      if displayEnable == 0 {
        return;
      }
      var tiledataSelect := LcdcFlag(memoryMap[LCDC], 4);
      var bgTilemapSelect := LcdcFlag(memoryMap[LCDC], 3);
      var bgDisplay := LcdcFlag(memoryMap[LCDC], 0);
      if bgDisplay != 0 {
        var bgTopAddr := 0x9800 + 0x400 * bgTilemapSelect;
        var tileTopAddr := 0x9000 - 0x1000 * tiledataSelect;
        DrawBackground(mem, bgTopAddr, tileTopAddr, tiledataSelect);
      } else {
        ClearFrame();
      }
      var scrollY := memoryMap[LCD_SCROLL_Y];
      var scrollX := memoryMap[LCD_SCROLL_X];
      DrawViewport(scrollX, scrollY);
    }

    /** The `bg_display` branch: every tile of the map into `total_frame`. */
    method DrawBackground(ghost mem: Memory, bgTopAddr: nat, tileTopAddr: nat, tiledataSelect: nat)
      requires Valid() && mem == memoryMap[..]
      requires bgTopAddr == BgMapBase(mem[LCDC])
      requires tileTopAddr == TileDataBase(mem[LCDC])
      requires tiledataSelect == LcdcFlag(mem[LCDC], 4)
      modifies totalFrame
      ensures totalFrame[..] == Background(mem, mem[LCDC])
    {
      ghost var bg := Background(mem, mem[LCDC]);
      for i := 0 to 32
        invariant forall p | 0 <= p < BG_SIZE && RowsDone(p, i, 0) :: totalFrame[p] == bg[p]
      {
        for j := 0 to 32
          invariant forall p | 0 <= p < BG_SIZE && RowsDone(p, i, j) :: totalFrame[p] == bg[p]
        {
          DrawTile(mem, bg, bgTopAddr, tileTopAddr, tiledataSelect, i, j);
          assert forall p | 0 <= p < BG_SIZE ::
            RowsDone(p, i, j + 1) <==> RowsDone(p, i, j) || TileDone(p, i, j, 8);
        }
        assert forall p | 0 <= p < BG_SIZE :: RowsDone(p, i, 32) <==> RowsDone(p, i + 1, 0);
      }
      assert forall p | 0 <= p < BG_SIZE :: RowsDone(p, 32, 0);
    }

    /** One tile: its number from the map, then its eight lines of two bytes. */
    method DrawTile(ghost mem: Memory, ghost bg: seq<u8>,
                    bgTopAddr: nat, tileTopAddr: nat, tiledataSelect: nat, i: nat, j: nat)
      requires Valid() && mem == memoryMap[..] && bg == Background(mem, mem[LCDC])
      requires bgTopAddr == BgMapBase(mem[LCDC])
      requires tileTopAddr == TileDataBase(mem[LCDC])
      requires tiledataSelect == LcdcFlag(mem[LCDC], 4)
      requires i < 32 && j < 32
      modifies totalFrame
      ensures forall p | 0 <= p < BG_SIZE && TileDone(p, i, j, 8) :: totalFrame[p] == bg[p]
      ensures forall p | 0 <= p < BG_SIZE && !TileDone(p, i, j, 8) ::
        totalFrame[p] == old(totalFrame[p])
    {
      ghost var lcdc := mem[LCDC];
      var tilenum := memoryMap[bgTopAddr + i * 32 + j];
      assert tilenum == MapEntry(mem, lcdc, i, j);
      var tileId: int;
      if tiledataSelect == 0 {
        tileId := Signed(tilenum);
      } else {
        tileId := tilenum;
      }
      var tileAddr := tileTopAddr + 16 * tileId;
      assert tileAddr == TileAddress(lcdc, tilenum);
      for k := 0 to 8
        invariant tileAddr == TileAddress(lcdc, tilenum) + 2 * k
        invariant forall p | 0 <= p < BG_SIZE && TileDone(p, i, j, k) :: totalFrame[p] == bg[p]
        invariant forall p | 0 <= p < BG_SIZE && !TileDone(p, i, j, k) ::
          totalFrame[p] == old(totalFrame[p])
      {
        var b1 := memoryMap[tileAddr];
        tileAddr := tileAddr + 1;
        var b2 := memoryMap[tileAddr];
        tileAddr := tileAddr + 1;
        TileLinePixels(mem, bg, b1, b2, i, j, k);
        DrawTileLine(bg, b1, b2, i, j, k);
        forall p | 0 <= p < BG_SIZE
          ensures TileDone(p, i, j, k + 1) <==> TileDone(p, i, j, k) || InLine(p, i, j, k)
        {
          TileRegionStep(i, j, k, p);
        }
      }
    }

    /** Line `k` of the tile at map row `i`, column `j`: eight pixels. */
    method DrawTileLine(ghost bg: seq<u8>, b1: u8, b2: u8, i: nat, j: nat, k: nat)
      requires Valid() && |bg| == BG_SIZE && i < 32 && j < 32 && k < 8
      requires forall l | 0 <= l < 8 :: bg[(8 * i + k) * BG_SIDE + 8 * j + l] == TilePixel(b1, b2, l)
      modifies totalFrame
      ensures forall p | 0 <= p < BG_SIZE && InLine(p, i, j, k) :: totalFrame[p] == bg[p]
      ensures forall p | 0 <= p < BG_SIZE && !InLine(p, i, j, k) ::
        totalFrame[p] == old(totalFrame[p])
    {
      PlotLine(8 * i + k, 8 * j, b1, b2);
      ghost var start := (8 * i + k) * BG_SIDE + 8 * j;
      forall p | 0 <= p < BG_SIZE && InLine(p, i, j, k)
        ensures totalFrame[p] == bg[p]
      {
        var l := p - start;
        assert totalFrame[start + l] == TilePixel(b1, b2, l) == bg[start + l];
      }
    }

    /** The eight pixels of one tile line, from the bytes `b1` and `b2`,
        written to background row `y` from column `x0` on. */
    method PlotLine(y: nat, x0: nat, b1: u8, b2: u8)
      requires Valid() && y < BG_SIDE && x0 + 8 <= BG_SIDE
      modifies totalFrame
      ensures forall l | 0 <= l < 8 :: totalFrame[y * BG_SIDE + x0 + l] == TilePixel(b1, b2, l)
      ensures forall p | 0 <= p < BG_SIZE && !(y * BG_SIDE + x0 <= p < y * BG_SIDE + x0 + 8) ::
        totalFrame[p] == old(totalFrame[p])
    {
      ghost var start := y * BG_SIDE + x0;
      for l := 0 to 8
        invariant forall m | 0 <= m < l :: totalFrame[start + m] == TilePixel(b1, b2, m)
        invariant forall p | 0 <= p < BG_SIZE && !(start <= p < start + l) ::
          totalFrame[p] == old(totalFrame[p])
      {
        var px := And(Shr(b2, 7 - l), 1);
        px := px + Shl(And(Shr(b1, 7 - l), 1), 1);
        var x := x0 + l;
        totalFrame[y * 256 + x] := px;
      }
    }

    /** The `else` branch as evidently intended: the whole frame buffer, and
        nothing past it, cleared to colour 0. */
    method ClearFrame()
      requires Valid()
      modifies frameBuffer
      ensures frameBuffer[..] == seq(FRAME_SIZE, _ => 0)
    {
      for i := 0 to frameBuffer.Length
        invariant forall q | 0 <= q < i :: frameBuffer[q] == 0
      {
        frameBuffer[i] := 0;
      }
    }

    /** The copy of the scrolled window of `total_frame` into `frame_buffer`. */
    method DrawViewport(scrollX: u8, scrollY: u8)
      requires Valid()
      modifies frameBuffer
      ensures frameBuffer[..] == Viewport(totalFrame[..], scrollX, scrollY)
    {
      ghost var bg := totalFrame[..];
      for y := 0 to frameHeight
        invariant forall q | 0 <= q < y * FRAME_WIDTH ::
          frameBuffer[q] == ViewPixel(bg, scrollX, scrollY, q / FRAME_WIDTH, q % FRAME_WIDTH)
      {
        for x := 0 to frameWidth
          invariant forall q | 0 <= q < y * FRAME_WIDTH + x ::
            frameBuffer[q] == ViewPixel(bg, scrollX, scrollY, q / FRAME_WIDTH, q % FRAME_WIDTH)
        {
          FrameIndex(y, x);
          if scrollX + x < frameWidth && scrollY + y < frameHeight {
            frameBuffer[y * frameWidth + x] := totalFrame[(scrollY + y) * 256 + (scrollX + x)];
          } else {
            frameBuffer[y * frameWidth + x] := 0;
          }
        }
      }
    }
  }

  /** Pixel `p` lies on a line above `8 i`, or in line `8 i` to `8 i + 7`
      left of column `8 j`: the part of `total_frame` drawn before tile `(i, j)`. */
  predicate RowsDone(p: nat, i: nat, j: nat) {
    p < 8 * i * BG_SIDE || (p < (8 * i + 8) * BG_SIDE && p % BG_SIDE < 8 * j)
  }

  /** Pixel `p` lies in the first `k` lines of tile `(i, j)`. */
  predicate TileDone(p: nat, i: nat, j: nat, k: nat) {
    8 * i * BG_SIDE <= p < (8 * i + k) * BG_SIDE && 8 * j <= p % BG_SIDE < 8 * j + 8
  }

  /** Pixel `p` lies in line `k` of tile `(i, j)`. */
  predicate InLine(p: nat, i: nat, j: nat, k: nat) {
    (8 * i + k) * BG_SIDE + 8 * j <= p < (8 * i + k) * BG_SIDE + 8 * j + 8
  }

  /** The eight background pixels of line `k` of tile (`i`, `j`) are the
      tile pixels of the two bytes that hold that line. */
  lemma TileLinePixels(mem: Memory, bg: seq<u8>, b1: u8, b2: u8, i: nat, j: nat, k: nat)
    requires bg == Background(mem, mem[LCDC]) && i < 32 && j < 32 && k < 8
    requires var addr := TileAddress(mem[LCDC], MapEntry(mem, mem[LCDC], i, j)) + 2 * k;
      b1 == Read(mem, addr) && b2 == Read(mem, addr + 1)
    ensures (8 * i + k) * BG_SIDE + 8 * j + 8 <= BG_SIZE
    ensures forall l | 0 <= l < 8 :: bg[(8 * i + k) * BG_SIDE + 8 * j + l] == TilePixel(b1, b2, l)
  {
    forall l | 0 <= l < 8
      ensures bg[(8 * i + k) * BG_SIDE + 8 * j + l] == TilePixel(b1, b2, l)
    {
      BackgroundAt(mem, mem[LCDC], i, j, k, l);
    }
    BackgroundAt(mem, mem[LCDC], i, j, k, 7);
  }

  /** The first `k + 1` lines of a tile are its first `k` lines and line `k`. */
  lemma TileRegionStep(i: nat, j: nat, k: nat, p: nat)
    requires i < 32 && j < 32 && k < 8
    ensures TileDone(p, i, j, k + 1) <==> TileDone(p, i, j, k) || InLine(p, i, j, k)
  {
    var y := 8 * i + k;
    if y * BG_SIDE <= p < (y + 1) * BG_SIDE {
      DivUnique(p, BG_SIDE, y, p - y * BG_SIDE);
    }
  }
}
