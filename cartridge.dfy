/** The cartridge header decoder of `GBEmulator/Cartridge.cpp`: the record
    of `GBEmulator/Cartridge.h`, the two size-code tables, and the
    constructor that copies the header fields out of the ROM image. */
module Cartridge {
  import opened Bits
  import opened Hardware
  import opened Wrappers

  /** The header offsets other than the title. They are fixed by the
      cartridge format, but none of their macros (`MANUFACTURE_CODE_ADDR`,
      `ROM_SIZE_ADDR`, ...) is defined in the files of this model, so the
      model takes them as a parameter. */
  datatype HeaderLayout = HeaderLayout(
    manufactureCode: nat, cgbFlag: nat, newLicenseCode: nat, sgbFlag: nat,
    cartridgeType: nat, romSize: nat, ramSize: nat, oldLicenseCode: nat,
    destinationCode: nat, maskRomVersion: nat, headerChecksum: nat,
    globalChecksum: nat)
  {
    /** Every byte the decoder reads lies inside a ROM image of `n` bytes. */
    predicate FitsIn(n: nat) {
      ROM_TITLE_START + 16 <= n && manufactureCode + 4 <= n
      && cgbFlag < n && newLicenseCode < n && sgbFlag < n && cartridgeType < n
      && romSize < n && ramSize < n && oldLicenseCode < n && destinationCode < n
      && maskRomVersion < n && headerChecksum < n && globalChecksum < n
    }
  }

  /** The fields the constructor may leave unassigned keep whatever the
      object's storage held before; these are those prior contents. */
  datatype Prior = Prior(
    romSizeBytes: u8, romSizeBanknum: u16, ramSizeBytes: u8, ramSizeBanknum: u16)

  /** `class Cartridge`. The `char` arrays are kept as the bytes they hold. */
  datatype Header = Header(
    title: seq<u8>, manufacturerCode: seq<u8>, cgbFlag: u8,
    newLicenseeCode: u16, sgbFlag: u8, cartridgeType: u8,
    romSizeId: u8, romSizeBytes: u8, romSizeBanknum: u16,
    ramSizeId: u8, ramSizeBytes: u8, ramSizeBanknum: u16,
    oldLicenseCode: u8, destinationCode: u8, maskRomVersion: u8,
    headerChecksum: u8, globalChecksum: u16)

  /** The number of 16 KiB ROM banks for a ROM-size code; `None` for a code
      the if-chain does not list, which leaves the field unassigned. */
  function RomBankCount(code: u8): (r: Option<u16>)
    ensures r.Some? <==> code < 0x08 || 0x52 <= code <= 0x54
    ensures code == 0 ==> r == Some(0)
    ensures 1 <= code < 0x08 ==> r == Some(Pow2(code + 1)) && 4 <= r.value <= 256
    ensures code == 0x52 ==> r == Some(72)
    ensures code == 0x53 ==> r == Some(80)
    ensures code == 0x54 ==> r == Some(96)
  {
    if code == 0x00 then Some(0)
    else if code < 0x08 then
      ShlIsMul(1, code + 1);
      SmallPow2(code + 1);
      Some(Shl(1, code + 1))
    else if code == 0x52 then Some(72)
    else if code == 0x53 then Some(80)
    else if code == 0x54 then Some(96)
    else None
  }

  /** `1 << n` for the shifts of the ROM table lies between 4 and 256. */
  lemma SmallPow2(n: nat)
    requires 2 <= n <= 8
    ensures 4 <= Pow2(n) <= 256
  {
    assert Pow2(2) == 4 && Pow2(8) == 256;
    if n < 8 {
      Pow2Grows(n, 8);
    }
    if n > 2 {
      Pow2Grows(2, n);
    }
  }

  /** The number of 8 KiB RAM banks for a RAM-size code; `None` for a code
      the if-chain does not list. */
  function RamBankCount(code: u8): (r: Option<u16>)
    ensures r.Some? <==> code <= 0x05
    ensures code <= 0x03 ==> r == Some(0)
    ensures code == 0x04 ==> r == Some(16)
    ensures code == 0x05 ==> r == Some(8)
  {
    if code < 0x03 then Some(0)
    else if code == 0x03 then Some(0)
    else if code == 0x04 then Some(16)
    else if code == 0x05 then Some(8)
    else None
  }

  /** For codes 1 to 7 the ROM holds `32 KiB << code` bytes, as the
      cartridge format defines; code 0 (one 32 KiB ROM) is given 0 banks. */
  lemma {:induction false} RomBytes(code: u8)
    requires 1 <= code < 0x08
    ensures RomBankCount(code).value * 0x4000 == 0x8000 * Pow2(code)
  {
    assert Pow2(code + 1) == 2 * Pow2(code);
  }

  /** `for (int i = 0; i < n; i++) field[i] = rom[start + i];` */
  method CopyBytes(rom: array<u8>, start: nat, n: nat) returns (field: seq<u8>)
    requires start + n <= rom.Length
    ensures |field| == n && forall i | 0 <= i < n :: field[i] == rom[start + i]
  {
    var a := new u8[n];
    for i := 0 to n
      invariant forall x | 0 <= x < i :: a[x] == rom[start + x]
    {
      a[i] := rom[start + i];
    }
    field := a[..];
  }

  /** `Cartridge::Cartridge(rom)`: the two `for` loops copy the title and the
      manufacturer code, every other field is one header byte. */
  method Decode(rom: array<u8>, layout: HeaderLayout, prior: Prior) returns (h: Header)
    requires layout.FitsIn(rom.Length)
    ensures |h.title| == 16 && forall i | 0 <= i < 16 :: h.title[i] == rom[ROM_TITLE_START + i]
    ensures |h.manufacturerCode| == 4
    ensures forall i | 0 <= i < 4 :: h.manufacturerCode[i] == rom[layout.manufactureCode + i]
    ensures h.cgbFlag == rom[layout.cgbFlag] && h.sgbFlag == rom[layout.sgbFlag]
    ensures h.newLicenseeCode == rom[layout.newLicenseCode] && h.newLicenseeCode < 0x100
    ensures h.cartridgeType == rom[layout.cartridgeType]
    ensures h.romSizeId == rom[layout.romSize] && h.ramSizeId == rom[layout.ramSize]
    ensures h.romSizeBanknum == RomBankCount(h.romSizeId).GetOr(prior.romSizeBanknum)
    ensures h.ramSizeBanknum == RamBankCount(h.ramSizeId).GetOr(prior.ramSizeBanknum)
    ensures h.romSizeBytes == prior.romSizeBytes && h.ramSizeBytes == prior.ramSizeBytes
    ensures h.oldLicenseCode == rom[layout.oldLicenseCode]
    ensures h.destinationCode == rom[layout.destinationCode]
    ensures h.maskRomVersion == rom[layout.maskRomVersion]
    ensures h.headerChecksum == rom[layout.headerChecksum]
    ensures h.globalChecksum == rom[layout.globalChecksum] && h.globalChecksum < 0x100
  {
    var title := CopyBytes(rom, ROM_TITLE_START, 16);
    var manufacturerCode := CopyBytes(rom, layout.manufactureCode, 4);
    var cgbFlag := rom[layout.cgbFlag];
    var newLicenseeCode: u16 := rom[layout.newLicenseCode];
    var sgbFlag := rom[layout.sgbFlag];
    var cartridgeType := rom[layout.cartridgeType];
    var romSizeId := rom[layout.romSize];
    var romSizeBanknum := RomBankCount(romSizeId).GetOr(prior.romSizeBanknum);
    var ramSizeId := rom[layout.ramSize];
    var ramSizeBanknum := RamBankCount(ramSizeId).GetOr(prior.ramSizeBanknum);
    h := Header(
      title, manufacturerCode, cgbFlag, newLicenseeCode, sgbFlag, cartridgeType,
      romSizeId, prior.romSizeBytes, romSizeBanknum,
      ramSizeId, prior.ramSizeBytes, ramSizeBanknum,
      rom[layout.oldLicenseCode], rom[layout.destinationCode], rom[layout.maskRomVersion],
      rom[layout.headerChecksum], rom[layout.globalChecksum]);
  }
}
