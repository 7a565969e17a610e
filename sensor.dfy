/**
 * The MPU6050 side of main.c: sixteen-bit two's-complement axis values read
 * as a high and a low byte (MPU6050_ReadAxis, main.c:111-129), and the six
 * readings main takes on every pass of its loop (main.c:150-157).
 */
module Sensor {

  const ACCEL_XOUT_H: nat := 0x3B
  const GYRO_XOUT_H: nat := 0x43

  type Int16 = x: int | -0x8000 <= x < 0x8000

  /** One pass's readings: accelerometer then gyroscope, raw sensor units. */
  datatype Sample = Sample(ax: Int16, ay: Int16, az: Int16, gx: Int16, gy: Int16, gz: Int16)

  /** The bits `hi << 8 | lo` as the sixteen-bit word main.c:123-127 assembles. */
  function Word(hi: bv8, lo: bv8): bv16 {
    ((hi as bv16) << 8) | (lo as bv16)
  }

  lemma WordValue(hi: bv8, lo: bv8)
    ensures Word(hi, lo) as int == hi as int * 256 + lo as int
  {
    var h, l := hi as bv16, lo as bv16;
    assert Word(hi, lo) == h * 256 + l;
    assert h as int == hi as int && l as int == lo as int;
    WordSumValue(h, l);
  }

  lemma WordSumValue(h: bv16, l: bv16)
    requires h < 256 && l < 256
    ensures (h * 256 + l) as int == h as int * 256 + l as int
  {
  }

  /**
   * `axisData = hi << 8; axisData |= lo;` on an int16_t (main.c:123-127).
   * The int promotion around `|=` does not change the low sixteen bits that
   * int16_t keeps, so the word is read back as two's complement. Converting
   * `I2C0_MDR_R << 8` (32768 or more when hi >= 0x80) to int16_t is
   * implementation-defined in C; it is taken here as modulo 2^16.
   */
  function AxisFromBytes(hi: bv8, lo: bv8): (v: Int16)
    ensures v == hi as int * 256 + lo as int - (if hi >= 0x80 then 0x10000 else 0)
  {
    var word := Word(hi, lo);
    WordValue(hi, lo);
    if word < 0x8000 then word as int else word as int - 0x10000
  }

  /** The sixteen-bit pattern of v, as an unsigned number. */
  function Unsigned(v: Int16): (u: nat)
    ensures u < 0x10000 && u % 0x10000 == v % 0x10000
  {
    if v < 0 then v + 0x10000 else v
  }

  lemma DivMod256(h: int, l: int)
    requires 0 <= l < 256
    ensures (h * 256 + l) / 256 == h && (h * 256 + l) % 256 == l
  {
  }

  /** Two bytes with the same value are the same byte. */
  lemma SameByte(a: bv8, b: bv8)
    requires a as int == b as int
    ensures a == b
  {
  }

  lemma UnsignedOfAxis(hi: bv8, lo: bv8)
    ensures Unsigned(AxisFromBytes(hi, lo)) == hi as int * 256 + lo as int
  {
    assert (hi >= 0x80) == (hi as int >= 128);
  }

  /** Different register contents are never read as the same value. */
  lemma AxisInjective(hi: bv8, lo: bv8, hi': bv8, lo': bv8)
    requires AxisFromBytes(hi, lo) == AxisFromBytes(hi', lo')
    ensures hi == hi' && lo == lo'
  {
    UnsignedOfAxis(hi, lo);
    UnsignedOfAxis(hi', lo');
    SameBytes(hi, lo, hi', lo');
  }

  lemma SameBytes(hi: bv8, lo: bv8, hi': bv8, lo': bv8)
    requires hi as int * 256 + lo as int == hi' as int * 256 + lo' as int
    ensures hi == hi' && lo == lo'
  {
    SamePair(hi as int, lo as int, hi' as int, lo' as int);
    SameByte(hi, hi');
    SameByte(lo, lo');
  }

  lemma SamePair(h: int, l: int, h': int, l': int)
    requires 0 <= l < 256 && 0 <= l' < 256 && h * 256 + l == h' * 256 + l'
    ensures h == h' && l == l'
  {
    DivMod256(h, l);
    DivMod256(h', l');
  }

  /** The byte whose value is x, built from x's bits. */
  function ByteOf(x: nat): bv8
    requires x < 256
  {
    if x == 0 then 0 else ByteOf(x / 2) * 2 + (if x % 2 == 0 then 0 else 1)
  }

  lemma {:induction false} ByteOfValue(x: nat)
    requires x < 256
    ensures ByteOf(x) as int == x
  {
    if x != 0 {
      ByteOfValue(x / 2);
      ByteStep(ByteOf(x / 2), if x % 2 == 0 then 0 else 1);
    }
  }

  lemma ByteStep(h: bv8, bit: bv8)
    requires h < 128 && bit < 2
    ensures (h * 2 + bit) as int == h as int * 2 + bit as int
  {
  }

  /** The value read from bytes whose values are those of v's two's-complement pattern is v. */
  lemma AxisOfPattern(v: Int16, hi: bv8, lo: bv8)
    requires hi as int == Unsigned(v) / 256 && lo as int == Unsigned(v) % 256
    ensures AxisFromBytes(hi, lo) == v
  {
    var u := Unsigned(v);
    assert u == (u / 256) * 256 + u % 256;
  }

  /** Every int16 value is read from some pair of register bytes. */
  lemma AxisOnto(v: Int16)
    ensures exists hi: bv8, lo: bv8 :: AxisFromBytes(hi, lo) == v
  {
    var x, y := Unsigned(v) / 256, Unsigned(v) % 256;
    ByteOfValue(x);
    ByteOfValue(y);
    AxisOfPattern(v, ByteOf(x), ByteOf(y));
  }

  /**
   * MPU6050_ReadAxis(reg): the sensor sends the register at reg and then the
   * next one, high byte first. The bank holds the register file by address,
   * as one snapshot taken for the whole pass.
   */
  function ReadAxis(bank: seq<bv8>, reg: nat): (v: Int16)
    requires reg + 1 < |bank|
    ensures v == bank[reg] as int * 256 + bank[reg + 1] as int - (if bank[reg] >= 0x80 then 0x10000 else 0)
    ensures (v < 0) == (bank[reg] >= 0x80)
    ensures v as int % 256 == bank[reg + 1] as int
  {
    AxisFromBytes(bank[reg], bank[reg + 1])
  }

  /** The six reads of main.c:150-157. */
  function ReadSample(bank: seq<bv8>): (s: Sample)
    requires GYRO_XOUT_H + 5 < |bank|
    ensures s.ax == AxisFromBytes(bank[0x3B], bank[0x3C]) && s.ay == AxisFromBytes(bank[0x3D], bank[0x3E])
    ensures s.az == AxisFromBytes(bank[0x3F], bank[0x40])
    ensures s.gx == AxisFromBytes(bank[0x43], bank[0x44]) && s.gy == AxisFromBytes(bank[0x45], bank[0x46])
    ensures s.gz == AxisFromBytes(bank[0x47], bank[0x48])
  {
    Sample(ReadAxis(bank, ACCEL_XOUT_H), ReadAxis(bank, ACCEL_XOUT_H + 2), ReadAxis(bank, ACCEL_XOUT_H + 4),
           ReadAxis(bank, GYRO_XOUT_H), ReadAxis(bank, GYRO_XOUT_H + 2), ReadAxis(bank, GYRO_XOUT_H + 4))
  }
}
