/** Section types, the per-type memory layout tables and the section record of
 *  the RGBDS linker (src/link/section.c).
 */
module Sections {

  /** A C `uint16_t`. */
  type u16 = x: int | 0 <= x < 0x1_0000

  /** A C `uint32_t`. */
  type u32 = x: int | 0 <= x < 0x1_0000_0000

  /** The C operator `&` on non-negative integers, bit by bit from the least
   *  significant end. The result has no bit that either operand lacks, so it
   *  is no larger than either.
   */
  function BitAnd(a: nat, b: nat): (r: nat)
    ensures r <= a && r <= b
    decreases a
  {
    if a == 0 || b == 0 then 0
    else 2 * BitAnd(a / 2, b / 2) + (if a % 2 == 1 && b % 2 == 1 then 1 else 0)
  }

  /** `2` to the power `k`. */
  function Pow2(k: nat): (r: nat)
    ensures r >= 1
  {
    if k == 0 then 1 else 2 * Pow2(k - 1)
  }

  /** A mask of the `k` low bits keeps exactly the remainder modulo `2^k`, so
   *  `org & alignMask == 0` says that `org` is a multiple of the alignment.
   */
  lemma {:induction false} BitAndLowMask(a: nat, k: nat)
    ensures BitAnd(a, Pow2(k) - 1) == a % Pow2(k)
    decreases k
  {
    if k > 0 {
      BitAndLowMask(a / 2, k - 1);
      LowMaskStep(a, Pow2(k - 1));
    }
  }

  /** One more low bit in the mask: one more bit of the remainder. */
  lemma LowMaskStep(a: nat, p: nat)
    requires p >= 1 && BitAnd(a / 2, p - 1) == (a / 2) % p
    ensures BitAnd(a, 2 * p - 1) == a % (2 * p)
  {
    if a > 0 {
      BitAndOddMask(a, p);
      DivModDouble(a, p);
    } else {
      ModUnique(a, 2 * p, 0, 0);
    }
  }

  /** An odd mask keeps the lowest bit and masks the rest with its upper bits. */
  lemma BitAndOddMask(a: nat, p: nat)
    requires a > 0 && p >= 1
    ensures BitAnd(a, 2 * p - 1) == 2 * BitAnd(a / 2, p - 1) + a % 2
  {
    var mask := 2 * p - 1;
    assert mask / 2 == p - 1 && mask % 2 == 1;
  }

  /** The remainder modulo `2p` from the remainder of the halved value. */
  lemma DivModDouble(a: nat, p: nat)
    requires p >= 1
    ensures a % (2 * p) == 2 * ((a / 2) % p) + a % 2
  {
    var q := (a / 2) / p;
    var r := (a / 2) % p;
    assert a / 2 == q * p + r;
    assert a == q * (2 * p) + (2 * r + a % 2);
    ModUnique(a, 2 * p, q, 2 * r + a % 2);
  }

  /** A quotient and remainder in range are the quotient and remainder. */
  lemma ModUnique(a: int, d: int, q: int, r: int)
    requires d > 0 && 0 <= r < d && a == q * d + r
    ensures a % d == r
  {
    var q0, r0 := a / d, a % d;
    assert a == q0 * d + r0;
    assert (q - q0) * d == r0 - r;
    if q > q0 {
      MulAtLeast(q - q0, d);
    } else if q < q0 {
      MulAtLeast(q0 - q, d);
    }
  }

  lemma {:induction false} MulAtLeast(x: int, d: int)
    requires x >= 1 && d > 0
    ensures x * d >= d
    decreases x
  {
    if x > 1 {
      MulAtLeast(x - 1, d);
      assert x * d == (x - 1) * d + d;
    }
  }

  /** The eight memory regions a section can be placed in. */
  datatype SectionType = Rom0 | RomX | VRam | SRam | WRam0 | WRamX | Oam | HRam

  /** First address of each type's window (the `startaddr` table). */
  function StartAddr(t: SectionType): (r: u16)
    // every window fits below the top of the 16-bit address space
    ensures r + MaxSize(t) <= 0x1_0000
  {
    match t
    case Rom0  => 0x0000
    case RomX  => 0x4000
    case VRam  => 0x8000
    case SRam  => 0xA000
    case WRam0 => 0xC000
    case WRamX => 0xD000
    case Oam   => 0xFE00
    case HRam  => 0xFF80
  }

  /** Largest size a section of each type may have (the `maxsize` table). */
  function MaxSize(t: SectionType): (r: u16)
    // no window is empty, and none is larger than one 16 KiB ROM bank
    ensures 0 < r <= 0x4000
  {
    match t
    case Rom0  => 0x4000
    case RomX  => 0x4000
    case VRam  => 0x2000
    case SRam  => 0x2000
    case WRam0 => 0x1000
    case WRamX => 0x1000
    case Oam   => 0x00A0
    case HRam  => 0x007F
  }

  /** Last address of each type's window. The definition of `endaddr` lives in a
   *  header that is not part of this model; it is taken to be
   *  `startaddr + maxsize - 1`, which makes every window non-empty and keeps it
   *  inside the 16-bit address space.
   */
  function EndAddr(t: SectionType): (r: u16)
    ensures StartAddr(t) <= r
    ensures r - StartAddr(t) + 1 == MaxSize(t)
  {
    StartAddr(t) + MaxSize(t) - 1
  }

  /** The windows of distinct section types never overlap. */
  lemma WindowsDisjoint(t: SectionType, u: SectionType)
    requires t != u
    ensures EndAddr(t) < StartAddr(u) || EndAddr(u) < StartAddr(t)
  {
  }

  /** The inclusive bank range of one section type (one row of `bankranges`). */
  datatype BankRange = BankRange(min: u32, max: u32)

  /** The `bankranges` table. Its entries are the `BANK_MIN_*`/`BANK_MAX_*`
   *  constants of a header that is not part of this model, so the table is a
   *  parameter of everything that reads it.
   */
  datatype BankTable = BankTable(
    rom0: BankRange, romx: BankRange, vram: BankRange, sram: BankRange,
    wram0: BankRange, wramx: BankRange, oam: BankRange, hram: BankRange)

  /** The row of `bankranges` for type `t`; in a well-formed table it is a
   *  non-empty range.
   */
  function Banks(table: BankTable, t: SectionType): (r: BankRange)
    ensures WellFormed(table) ==> r.min <= r.max
  {
    match t
    case Rom0  => table.rom0
    case RomX  => table.romx
    case VRam  => table.vram
    case SRam  => table.sram
    case WRam0 => table.wram0
    case WRamX => table.wramx
    case Oam   => table.oam
    case HRam  => table.hram
  }

  /** The one thing assumed of the header constants: every range is non-empty. */
  predicate WellFormed(table: BankTable)
  {
    && table.rom0.min <= table.rom0.max && table.romx.min <= table.romx.max
    && table.vram.min <= table.vram.max && table.sram.min <= table.sram.max
    && table.wram0.min <= table.wram0.max && table.wramx.min <= table.wramx.max
    && table.oam.min <= table.oam.max && table.hram.min <= table.hram.max
  }

  /** A section as read from an object file (`kind` is the C field `type`): its
   *  placement constraints and the flags saying which of them are fixed.
   *  `alignMask` holds the low address bits that must be zero.
   */
  datatype Section = Section(
    name: string,
    kind: SectionType,
    size: u16,
    isAddressFixed: bool,
    org: u16,
    isBankFixed: bool,
    bank: u32,
    isAlignFixed: bool,
    alignMask: u16)
}
