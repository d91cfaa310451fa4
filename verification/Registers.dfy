/**
  The task file registers of an ATA drive (dktp/controller/ata/ata_disk.c): how the driver loads the
  address of a transfer, and how it reads back the block at which the drive stopped.

  LBA48 is the 48-bit Address feature set, section 6.20 of ATA/ATAPI-6: the count and address registers
  are two deep, and the high order bit (HOB) of device control selects the older value for reading.
 */
module Registers {

  type Byte = x: int | 0 <= x < 256

  const TWO_TO_28: nat := 0x1000_0000
  const TWO_TO_32: nat := 0x1_0000_0000
  const TWO_TO_48: nat := 0x1_0000_0000_0000

  /** A register with the value written before the last. */
  datatype Reg = Reg(now: Byte, before: Byte)

  datatype TaskFile = TaskFile(count: Reg, sect: Reg, lcyl: Reg, hcyl: Reg, drvhd: Byte, hob: bool)

  function Low(x: nat): Byte { x % 256 }

  function Put(r: Reg, x: nat): Reg { Reg(Low(x), r.now) }

  function Get(r: Reg, hob: bool): Byte { if hob then r.before else r.now }

  /** ad_drive_bits: the drive selector and mode bits, above the four bits for a head or an address. */
  type DriveBits = x: int | 0 <= x < 256 && x % 16 == 0

  function Quot(x: nat, d: nat): nat requires d > 0 { x / d }

  function Rem(x: nat, d: nat): (r: nat)
    requires d > 0
    ensures r < d
  {
    x % d
  }

  /** Mode bits with a number in the low four bits. */
  function WithNibble(bits: DriveBits, n: nat): (x: Byte)
    ensures x % 16 == n % 16
  {
    bits + n % 16
  }

  // ---------------------------------------------------------------- loading

  /** ata_disk_load_regs_lba28 */
  function LoadLba28(t: TaskFile, start: nat, count: nat, bits: DriveBits): TaskFile {
    t.(count := Put(t.count, count), sect := Put(t.sect, start), lcyl := Put(t.lcyl, start / 256),
       hcyl := Put(t.hcyl, start / 65536), drvhd := WithNibble(bits, start / 16777216))
  }

  /** ata_disk_load_regs_lba48: the high halves first. */
  function LoadLba48(t: TaskFile, start: nat, count: nat, bits: DriveBits): TaskFile {
    var hi := start / 16777216;
    t.(count := Put(Put(t.count, count / 256), count),
       sect := Put(Put(t.sect, hi), start),
       lcyl := Put(Put(t.lcyl, hi / 256), start / 256),
       hcyl := Put(Put(t.hcyl, hi / 65536), start / 65536), drvhd := bits)
  }

  /** ata_disk_load_regs_chs */
  function LoadChs(t: TaskFile, start: nat, count: nat, bits: DriveBits, heads: nat, sectors: nat): TaskFile
    requires heads > 0 && sectors > 0
  {
    var track := Quot(start, sectors);
    var cyl := Quot(track, heads);
    t.(sect := Put(t.sect, Rem(start, sectors) + 1), count := Put(t.count, count),
       hcyl := Put(t.hcyl, cyl / 256), lcyl := Put(t.lcyl, cyl), drvhd := WithNibble(bits, Rem(track, heads)))
  }

  // ---------------------------------------------------------------- reading back

  /** ata_last_block_xferred_lba28 */
  function LastLba28(t: TaskFile): nat {
    ((t.drvhd % 16 * 256 + Get(t.hcyl, t.hob)) * 256 + Get(t.lcyl, t.hob)) * 256 + Get(t.sect, t.hob)
  }

  /** ata_last_block_xferred_lba48 */
  function LastLba48(t: TaskFile): nat {
    ((((Get(t.hcyl, true) * 256 + Get(t.lcyl, true)) * 256 + Get(t.sect, true)) * 256
      + Get(t.hcyl, false)) * 256 + Get(t.lcyl, false)) * 256 + Get(t.sect, false)
  }

  /** ata_last_block_xferred_chs; -1 when the sector register holds 0. */
  function LastChs(t: TaskFile, heads: nat, sectors: nat): int {
    ((Get(t.lcyl, t.hob) + 256 * Get(t.hcyl, t.hob)) * heads + t.drvhd % 16) * sectors + Get(t.sect, t.hob) - 1
  }

  // ---------------------------------------------------------------- round trips

  /** Three bytes hold a number modulo 2 to the 24. */
  lemma ThreeBytes(x: nat)
    ensures (Low(x / 65536) * 256 + Low(x / 256)) * 256 + Low(x) == x % 16777216
  {
    assert x == 256 * (x / 256) + x % 256;
    assert x / 256 == 256 * (x / 65536) + x / 256 % 256;
    assert x / 65536 == 256 * (x / 16777216) + x / 65536 % 256;
  }

  /** A 28-bit address comes back exactly when it is one. */
  lemma RoundTripLba28(t: TaskFile, start: nat, count: nat, bits: DriveBits)
    requires !t.hob
    ensures LastLba28(LoadLba28(t, start, count, bits)) == start <==> start < TWO_TO_28
  {
    var t', hi := LoadLba28(t, start, count, bits), start / 16777216;
    ThreeBytes(start);
    assert t'.drvhd % 16 == hi % 16;
    assert LastLba28(t') == hi % 16 * 16777216 + start % 16777216;
    HighPart(start, hi, start % 16777216, 16);
  }

  /** A 48-bit address comes back through the two values of each register exactly when it is one. */
  lemma RoundTripLba48(t: TaskFile, start: nat, count: nat, bits: DriveBits)
    ensures LastLba48(LoadLba48(t, start, count, bits)) == start <==> start < TWO_TO_48
  {
    var t', hi := LoadLba48(t, start, count, bits), start / 16777216;
    ThreeBytes(start);
    ThreeBytes(hi);
    assert LastLba48(t') == hi % 16777216 * 16777216 + start % 16777216;
    HighPart(start, hi, start % 16777216, 16777216);
  }

  /** Reducing the part above the low 24 bits modulo m loses nothing exactly when it is below m. */
  lemma HighPart(x: nat, hi: nat, lo: nat, m: nat)
    requires x == hi * 16777216 + lo && lo < 16777216 && (m == 16 || m == 16777216)
    ensures hi % m * 16777216 + lo == x <==> x < m * 16777216
  {
  }

  lemma DivMod(x: nat, d: nat)
    requires d > 0
    ensures x == Quot(x, d) * d + Rem(x, d)
  {
  }

  lemma MulMono(a: int, b: int, c: nat)
    requires a <= b
    ensures a * c <= b * c
  {
  }

  lemma MulNext(a: int, c: int)
    ensures (a + 1) * c == a * c + c
  {
  }

  /** x = a * d + r with a remainder r: comparing x with a multiple of d compares a. */
  lemma Quotient(x: int, a: int, d: nat, r: int, b: int)
    requires x == a * d + r && 0 <= r < d
    ensures a < b <==> x < b * d
  {
    if a < b {
      MulMono(a + 1, b, d);
      MulNext(a, d);
    } else {
      MulMono(b, a, d);
    }
  }

  function Address(cyl: nat, head: nat, sector: nat, heads: nat, sectors: nat): nat {
    (cyl * heads + head) * sectors + sector
  }

  lemma AddressInjective(c: nat, cyl: nat, head: nat, sector: nat, heads: nat, sectors: nat)
    requires c < cyl && heads > 0 && sectors > 0
    ensures Address(c, head, sector, heads, sectors) < Address(cyl, head, sector, heads, sectors)
  {
    MulMono(c + 1, cyl, heads);
    MulNext(c, heads);
    MulMono(c * heads + head + 1, cyl * heads + head, sectors);
    MulNext(c * heads + head, sectors);
  }

  /** What the registers hold after a load. */
  lemma ChsLoaded(t: TaskFile, start: nat, count: nat, bits: DriveBits, heads: nat, sectors: nat)
    requires !t.hob && 0 < heads <= 16 && 0 < sectors <= 255
    ensures var t', track := LoadChs(t, start, count, bits, heads, sectors), Quot(start, sectors);
      && t'.sect.now == Rem(start, sectors) + 1 && t'.drvhd % 16 == Rem(track, heads)
      && t'.lcyl.now + 256 * t'.hcyl.now == Quot(track, heads) % 65536
  {
    TwoBytes(Quot(Quot(start, sectors), heads));
  }

  lemma TwoBytes(x: nat)
    ensures Low(x) + 256 * Low(x / 256) == x % 65536
  {
    assert x == 256 * (x / 256) + x % 256;
    assert x / 256 == 256 * (x / 65536) + x / 256 % 256;
  }

  lemma ChsRead(t: TaskFile, start: nat, count: nat, bits: DriveBits, heads: nat, sectors: nat)
    requires !t.hob && 0 < heads <= 16 && 0 < sectors <= 255
    ensures var track := Quot(start, sectors);
      LastChs(LoadChs(t, start, count, bits, heads, sectors), heads, sectors)
        == Address(Quot(track, heads) % 65536, Rem(track, heads), Rem(start, sectors), heads, sectors)
  {
    ChsLoaded(t, start, count, bits, heads, sectors);
  }

  /** A cylinder, head and sector come back exactly when the cylinder has 16 bits. */
  lemma RoundTripChs(t: TaskFile, start: nat, count: nat, bits: DriveBits, heads: nat, sectors: nat)
    requires !t.hob && 0 < heads <= 16 && 0 < sectors <= 255
    ensures LastChs(LoadChs(t, start, count, bits, heads, sectors), heads, sectors) == start
      <==> start < 65536 * heads * sectors
  {
    var track := Quot(start, sectors);
    ChsRead(t, start, count, bits, heads, sectors);
    DivMod(start, sectors);
    DivMod(track, heads);
    AddressBack(start, track, Quot(track, heads), Rem(track, heads), Rem(start, sectors), heads, sectors);
  }

  lemma AddressBack(start: nat, track: nat, cyl: nat, head: nat, sector: nat, heads: nat, sectors: nat)
    requires start == track * sectors + sector && sector < sectors && track == cyl * heads + head && head < heads
    ensures Address(cyl % 65536, head, sector, heads, sectors) == start <==> start < 65536 * heads * sectors
  {
    Quotient(track, cyl, heads, head, 65536);
    Quotient(start, track, sectors, sector, 65536 * heads);
    if cyl >= 65536 {
      AddressInjective(cyl % 65536, cyl, head, sector, heads, sectors);
    }
  }

  // ---------------------------------------------------------------- residual

  /** ata_disk_get_resid, in 32-bit unsigned arithmetic: apCount is the count in the packet. */
  function Resid(start: nat, apCount: nat, stop: nat): nat {
    (start + apCount - stop) % TWO_TO_32 * 512 % TWO_TO_32
  }

  /** ata_disk_iosetup puts the count in the packet modulo 256, unless the drive takes 48-bit addresses. */
  function PacketCount(sectors: nat, ext48: bool): nat { if ext48 then sectors else sectors % 256 }

  /** The residual is the bytes from the failing sector on, except for a transfer of exactly 256 sectors
      in 28-bit mode. */
  lemma ResidExact(start: nat, sectors: nat, stop: nat, ext48: bool)
    requires start <= stop < start + sectors && 1 <= sectors <= (if ext48 then 65535 else 256)
    ensures Resid(start, PacketCount(sectors, ext48), stop) == (start + sectors - stop) * 512 <==>
            ext48 || sectors < 256
  {
    var d := start + PacketCount(sectors, ext48) - stop;
    if ext48 || sectors < 256 {
      assert d % TWO_TO_32 == d;
    } else {
      assert d == start - stop && -256 < d <= 0;
    }
  }

  // ---------------------------------------------------------------- the driver's own code

  /** The drive's registers, as the driver writes and reads them. */
  class Drive {
    var count: Reg
    var sect: Reg
    var lcyl: Reg
    var hcyl: Reg
    var drvhd: Byte
    var hob: bool

    constructor ()
      ensures !hob
    {
      count, sect, lcyl, hcyl := Reg(0, 0), Reg(0, 0), Reg(0, 0), Reg(0, 0);
      drvhd, hob := 0, false;
    }

    ghost function View(): TaskFile reads this { TaskFile(count, sect, lcyl, hcyl, drvhd, hob) }

    /** ata_disk_load_regs_lba28 */
    method LoadRegsLba28(start: nat, n: nat, bits: DriveBits)
      modifies this
      ensures View() == LoadLba28(old(View()), start, n, bits)
    {
      var lba := start;
      DivTwice(start);
      DivThrice(start);
      count := Put(count, n);
      sect := Put(sect, lba);
      lba := lba / 256;
      lcyl := Put(lcyl, lba);
      lba := lba / 256;
      hcyl := Put(hcyl, lba);
      lba := lba / 256;
      drvhd := WithNibble(bits, lba);
    }

    /** ata_disk_load_regs_lba48: seccnt, lbalow and lbahi as 16-bit and 32-bit variables. */
    method LoadRegsLba48(start: nat, n: nat, bits: DriveBits)
      modifies this
      ensures View() == LoadLba48(old(View()), start, n, bits)
    {
      var seccnt := n % 65536;
      var lbalow, lbahi := start % TWO_TO_32, start / 16777216 % TWO_TO_32;
      Truncated(n, start);
      count := Put(count, seccnt / 256);
      count := Put(count, seccnt);
      sect := Put(sect, lbahi);
      lcyl := Put(lcyl, lbahi / 256);
      hcyl := Put(hcyl, lbahi / 256 / 256);
      sect := Put(sect, lbalow);
      lcyl := Put(lcyl, lbalow / 256);
      hcyl := Put(hcyl, lbalow / 256 / 256);
      drvhd := bits;
    }

    /** ata_last_block_xferred_lba48 */
    method LastBlockXferredLba48() returns (lba: nat)
      modifies `hob
      ensures lba == LastLba48(old(View())) && !hob
    {
      hob := true;
      lba := Get(hcyl, hob);
      lba := lba * 256 + Get(lcyl, hob);
      lba := lba * 256 + Get(sect, hob);
      lba := lba * 256;
      hob := false;
      lba := lba + Get(hcyl, hob);
      lba := lba * 256 + Get(lcyl, hob);
      lba := lba * 256 + Get(sect, hob);
    }
  }

  /** The widths of the variables do not matter for the bytes that are written. */
  lemma Truncated(n: nat, start: nat)
    ensures Low(n % 65536 / 256) == Low(n / 256) && Low(n % 65536) == Low(n)
    ensures var lo, hi := start % TWO_TO_32, start / 16777216;
      && Low(lo) == Low(start) && Low(lo / 256) == Low(start / 256) && Low(lo / 256 / 256) == Low(start / 65536)
      && Low(hi % TWO_TO_32) == Low(hi) && Low(hi % TWO_TO_32 / 256) == Low(hi / 256)
      && Low(hi % TWO_TO_32 / 256 / 256) == Low(hi / 65536)
  {
    CountDigits(n);
    LowDigits(start);
    LowDigits(start / 16777216);
  }

  lemma DivAdd(x: nat, k: nat)
    ensures (x + 256 * k) / 256 == x / 256 + k
  {
  }

  lemma LowAdd(x: nat, k: nat)
    ensures Low(x + 256 * k) == Low(x)
  {
  }

  lemma DivTwice(x: nat)
    ensures x / 65536 == x / 256 / 256
  {
  }

  lemma DivThrice(x: nat)
    ensures x / 16777216 == x / 256 / 256 / 256
  {
    DivTwice(x);
  }

  /** A multiple of 2 to the 24 does not show in the low three digits. */
  lemma DigitsAdd(y: nat, q: nat)
    ensures var x := y + 16777216 * q;
      Low(x) == Low(y) && Low(x / 256) == Low(y / 256) && Low(x / 256 / 256) == Low(y / 256 / 256)
  {
    LowAdd(y, 65536 * q);
    DivAdd(y, 65536 * q);
    LowAdd(y / 256, 256 * q);
    DivAdd(y / 256, 256 * q);
    LowAdd(y / 256 / 256, q);
  }

  lemma LowDigits(x: nat)
    ensures var y := x % TWO_TO_32;
      Low(y) == Low(x) && Low(y / 256) == Low(x / 256) && Low(y / 256 / 256) == Low(x / 65536)
  {
    DigitsAdd(x % TWO_TO_32, 256 * (x / TWO_TO_32));
    DivTwice(x);
    assert x == x % TWO_TO_32 + 16777216 * (256 * (x / TWO_TO_32));
  }

  lemma CountDigits(n: nat)
    ensures Low(n % 65536 / 256) == Low(n / 256) && Low(n % 65536) == Low(n)
  {
    LowAdd(n % 65536, 256 * (n / 65536));
    DivAdd(n % 65536, 256 * (n / 65536));
    LowAdd(n % 65536 / 256, n / 65536);
    assert n == n % 65536 + 256 * (256 * (n / 65536));
  }
}
