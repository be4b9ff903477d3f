/**
 * The arithmetic of mma8451_get_acceleration: reassembling and sign-extending the output
 * registers, and the scale each (range, width) pair selects.
 *
 * The driver divides in double precision; here the division is exact, in `real`.
 */
module Samples {
  import opened Defs

  /** Standard gravity in m/s^2 (GRAVITY_ACCEL). */
  const GRAVITY_ACCEL: real := 9.80665

  /** RANGE_DIV_*: counts per m/s^2, the divisor for each range and sample width. */
  const RANGE_DIV_2G_14BIT: real := COUNTS_2G_14BIT as real / GRAVITY_ACCEL
  const RANGE_DIV_4G_14BIT: real := COUNTS_4G_14BIT as real / GRAVITY_ACCEL
  const RANGE_DIV_8G_14BIT: real := COUNTS_8G_14BIT as real / GRAVITY_ACCEL
  const RANGE_DIV_2G_8BIT: real := COUNTS_2G_8BIT as real / GRAVITY_ACCEL
  const RANGE_DIV_4G_8BIT: real := COUNTS_4G_8BIT as real / GRAVITY_ACCEL
  const RANGE_DIV_8G_8BIT: real := COUNTS_8G_8BIT as real / GRAVITY_ACCEL

  /** mma8451_acceleration: one reading per axis. */
  datatype Acceleration = Acceleration(x: real, y: real, z: real)

  // ---------------------------------------------------------------------------------------
  // 14-bit samples

  /**
   * `(msb << 6) | (lsb >> 2)` evaluated on the promoted (non-negative) ints: the shifts
   * multiply by 64 and divide by 4, and the two parts occupy disjoint bits, so `|` adds.
   */
  function Raw14(msb: bv8, lsb: bv8): (raw: int)
    ensures 0 <= raw < 0x4000
  {
    msb as int * 64 + lsb as int / 4
  }

  /** The 14-bit sample: raw values above 0x1FFF have 0x4000 subtracted. */
  function Count14(msb: bv8, lsb: bv8): (c: int)
    ensures -8192 <= c <= 8191
  {
    var raw := Raw14(msb, lsb);
    raw - if raw > MAX_14BIT_VALUE then MAX_14BIT_SIGNED else 0
  }

  /** The pair read as one big-endian two's-complement 16-bit number. */
  function Int16(msb: bv8, lsb: bv8): int {
    msb as int * 256 + lsb as int - (if msb >= 0x80 then 0x10000 else 0)
  }

  /** The 14-bit sample is the left-justified 16-bit two's-complement word shifted right by two. */
  lemma Count14IsShiftedInt16(msb: bv8, lsb: bv8)
    ensures Count14(msb, lsb) == Int16(msb, lsb) / 4
  {
  }

  /** The low two bits of the LSB register never reach the sample. */
  lemma Count14IgnoresLowBits(msb: bv8, lsb: bv8)
    ensures Count14(msb, lsb) == Count14(msb, lsb & 0xFC)
  {
    LowBitsCleared(lsb);
    assert Raw14(msb, lsb) == Raw14(msb, lsb & 0xFC);
  }

  /** Zero, the largest and the smallest sample. */
  lemma Count14Examples()
    ensures Count14(0x00, 0x00) == 0
    ensures Count14(0x7F, 0xFC) == 8191
    ensures Count14(0x80, 0x00) == -8192
    ensures Count14(0xFF, 0xFC) == -1
  {
  }

  /** Two pairs give the same sample exactly when they agree on all bits but the low two of the LSB. */
  lemma Count14Injective(m1: bv8, l1: bv8, m2: bv8, l2: bv8)
    ensures Count14(m1, l1) == Count14(m2, l2) <==> m1 == m2 && l1 & 0xFC == l2 & 0xFC
  {
    SameQuarter(l1, l2);
    if Count14(m1, l1) == Count14(m2, l2) {
      SameCountSamePair(m1, l1, m2, l2);
    }
  }

  lemma SameCountSamePair(m1: bv8, l1: bv8, m2: bv8, l2: bv8)
    requires Count14(m1, l1) == Count14(m2, l2)
    ensures m1 == m2 && l1 as int / 4 == l2 as int / 4
  {
    SameRawSamePair(m1 as int, l1 as int, m2 as int, l2 as int);
    ByteInjective(m1, m2);
  }

  /** The reassembly and sign extension of Count14, on the promoted register values. */
  lemma SameRawSamePair(a1: int, b1: int, a2: int, b2: int)
    requires 0 <= a1 < 256 && 0 <= b1 < 256 && 0 <= a2 < 256 && 0 <= b2 < 256
    requires a1 * 64 + b1 / 4 > MAX_14BIT_VALUE <==> a2 * 64 + b2 / 4 > MAX_14BIT_VALUE
    requires a1 * 64 + b1 / 4 == a2 * 64 + b2 / 4
    ensures a1 == a2 && b1 / 4 == b2 / 4
  {
  }

  /** Two bytes have the same quotient by four exactly when they agree above the low two bits. */
  lemma SameQuarter(l1: bv8, l2: bv8)
    ensures l1 as int / 4 == l2 as int / 4 <==> l1 & 0xFC == l2 & 0xFC
  {
    LowBitsCleared(l1);
    LowBitsCleared(l2);
    if l1 & 0xFC != l2 & 0xFC && (l1 & 0xFC) as int == (l2 & 0xFC) as int {
      ByteInjective(l1 & 0xFC, l2 & 0xFC);
    }
  }

  lemma LowBitsCleared(l: bv8)
    ensures (l & 0xFC) as int == l as int / 4 * 4
  {
  }

  lemma ByteInjective(a: bv8, b: bv8)
    requires a as int == b as int
    ensures a == b
  {
  }

  // ---------------------------------------------------------------------------------------
  // 8-bit samples

  /** The promoted (non-negative) value of an 8-bit sample register. */
  function Raw8(b: bv8): (raw: int)
    ensures 0 <= raw < 0x100
  {
    b as int
  }

  /** The 8-bit sample: raw bytes above 0x7F have 0xFF subtracted. */
  function Count8(b: bv8): (c: int)
    ensures -127 <= c <= 127
  {
    var raw := Raw8(b);
    raw - if raw > MAX_8BIT_VALUE then MAX_8BIT_SIGNED else 0
  }

  /** The byte read as an 8-bit two's-complement number. */
  function Int8(b: bv8): int {
    if b >= 0x80 then b as int - 0x100 else b as int
  }

  /** Subtracting 0xFF instead of 0x100 puts every negative byte one count above its two's-complement value. */
  lemma Count8AgainstTwosComplement(b: bv8)
    ensures b <= 0x7F ==> Count8(b) == Int8(b)
    ensures b > 0x7F ==> Count8(b) == Int8(b) + 1
  {
  }

  /** 0x00 and 0xFF both read as zero, -128 is never produced, and the extremes are ±127. */
  lemma Count8Collisions()
    ensures Count8(0x00) == 0 && Count8(0xFF) == 0
    ensures forall b: bv8 :: Count8(b) != -128
    ensures Count8(0x80) == -127 && Count8(0x7F) == 127
  {
  }

  /** Different bytes give different samples, except that 0x00 and 0xFF both give zero. */
  lemma Count8Injective(b1: bv8, b2: bv8)
    ensures Count8(b1) == Count8(b2) <==> b1 == b2 || (b1 == 0x00 && b2 == 0xFF) || (b1 == 0xFF && b2 == 0x00)
  {
    if Count8(b1) == Count8(b2) {
      SameCount8SameByte(b1, b2);
    }
    Count8Collisions();
  }

  lemma SameCount8SameByte(b1: bv8, b2: bv8)
    requires Count8(b1) == Count8(b2)
    ensures b1 == b2 || (b1 == 0x00 && b2 == 0xFF) || (b1 == 0xFF && b2 == 0x00)
  {
    Count8OfRaw(b1);
    Count8OfRaw(b2);
    SameSigned8(Raw8(b1), Raw8(b2));
    RawDeterminesByte(b1, b2);
  }

  lemma Count8OfRaw(b: bv8)
    ensures Count8(b) == Raw8(b) - if Raw8(b) > MAX_8BIT_VALUE then MAX_8BIT_SIGNED else 0
  {
  }

  lemma RawDeterminesByte(b1: bv8, b2: bv8)
    ensures Raw8(b1) == Raw8(b2) ==> b1 == b2
    ensures Raw8(b1) == 0x00 ==> b1 == 0x00
    ensures Raw8(b1) == 0xFF ==> b1 == 0xFF
    ensures Raw8(b2) == 0x00 ==> b2 == 0x00
    ensures Raw8(b2) == 0xFF ==> b2 == 0xFF
  {
  }

  /** The sign conversion of Count8, on the promoted register values. */
  lemma SameSigned8(r1: int, r2: int)
    requires 0 <= r1 < 256 && 0 <= r2 < 256
    requires (r1 - if r1 > MAX_8BIT_VALUE then MAX_8BIT_SIGNED else 0) == (r2 - if r2 > MAX_8BIT_VALUE then MAX_8BIT_SIGNED else 0)
    ensures r1 == r2 || (r1 == 0 && r2 == 0xFF) || (r1 == 0xFF && r2 == 0)
  {
  }

  /** The sign-extension constants: 0x4000 is twice 0x1FFF + 1, but 0xFF is not twice 0x7F + 1. */
  lemma SignConstants()
    ensures MAX_14BIT_SIGNED == 2 * (MAX_14BIT_VALUE + 1)
    ensures MAX_8BIT_SIGNED != 2 * (MAX_8BIT_VALUE + 1)
    ensures MAX_8BIT_SIGNED == 2 * (MAX_8BIT_VALUE + 1) - 1
  {
  }

  // ---------------------------------------------------------------------------------------
  // Scaling

  /**
   * Counts per g that mma8451_get_acceleration divides by (through RANGE_DIV_*): a data size
   * equal to OUTPUT_14BIT selects the 14-bit table, any other value the 8-bit one, and a
   * range other than 2G, 4G or 8G selects no divisor.
   */
  function CountsPerG(range: bv32, dataSize: bv32): (n: Option<nat>)
    ensures n.Some? <==> range <= RANGE_8G
    ensures n.Some? ==> n.value > 0
  {
    if dataSize == OUTPUT_14BIT then
      if range == RANGE_2G then Some(COUNTS_2G_14BIT)
      else if range == RANGE_4G then Some(COUNTS_4G_14BIT)
      else if range == RANGE_8G then Some(COUNTS_8G_14BIT)
      else None
    else
      if range == RANGE_2G then Some(COUNTS_2G_8BIT)
      else if range == RANGE_4G then Some(COUNTS_4G_8BIT)
      else if range == RANGE_8G then Some(COUNTS_8G_8BIT)
      else None
  }

  /** Counts per g halve as the range doubles, and the 14-bit table is 64 times the 8-bit one. */
  lemma CountsPerGTables(dataSize: bv32, range: bv32)
    requires range <= RANGE_8G
    ensures range < RANGE_8G ==> CountsPerG(range, dataSize).value == 2 * CountsPerG(range + 1, dataSize).value
    ensures CountsPerG(range, OUTPUT_14BIT).value == 64 * CountsPerG(range, OUTPUT_8BIT).value
    ensures dataSize != OUTPUT_14BIT ==> CountsPerG(range, dataSize) == CountsPerG(range, OUTPUT_8BIT)
  {
  }

  /**
   * The divisor mma8451_get_acceleration applies: RANGE_DIV_* of the handle's range, from the
   * 14-bit set when the data size is OUTPUT_14BIT and from the 8-bit set otherwise.
   */
  function RangeDivisor(range: bv32, dataSize: bv32): (d: Option<real>)
    ensures d.Some? <==> CountsPerG(range, dataSize).Some?
    ensures d.Some? ==> d.value == CountsPerG(range, dataSize).value as real / GRAVITY_ACCEL
  {
    if dataSize == OUTPUT_14BIT then
      if range == RANGE_2G then Some(RANGE_DIV_2G_14BIT)
      else if range == RANGE_4G then Some(RANGE_DIV_4G_14BIT)
      else if range == RANGE_8G then Some(RANGE_DIV_8G_14BIT)
      else None
    else
      if range == RANGE_2G then Some(RANGE_DIV_2G_8BIT)
      else if range == RANGE_4G then Some(RANGE_DIV_4G_8BIT)
      else if range == RANGE_8G then Some(RANGE_DIV_8G_8BIT)
      else None
  }

  /** One axis after scaling: the count divided by the selected divisor, or the bare count. */
  function Scaled(count: int, range: bv32, dataSize: bv32): real {
    match RangeDivisor(range, dataSize)
    case None => count as real
    case Some(d) => count as real / d
  }

  /**
   * A scaled reading is the count as a fraction of counts-per-g, times standard gravity: an
   * acceleration in m/s^2. With no divisor selected it stays a bare count.
   */
  lemma ScaledIsAcceleration(count: int, range: bv32, dataSize: bv32)
    ensures CountsPerG(range, dataSize).Some? ==>
              Scaled(count, range, dataSize) * CountsPerG(range, dataSize).value as real == count as real * GRAVITY_ACCEL
    ensures CountsPerG(range, dataSize).None? ==> Scaled(count, range, dataSize) == count as real
  {
  }

  /** The most negative 14-bit sample reads as exactly minus the full scale of each range. */
  lemma FullScale14()
    ensures Scaled(Count14(0x80, 0x00), RANGE_2G, OUTPUT_14BIT) == -2.0 * GRAVITY_ACCEL
    ensures Scaled(Count14(0x80, 0x00), RANGE_4G, OUTPUT_14BIT) == -4.0 * GRAVITY_ACCEL
    ensures Scaled(Count14(0x80, 0x00), RANGE_8G, OUTPUT_14BIT) == -8.0 * GRAVITY_ACCEL
  {
    Count14Examples();
  }

  /**
   * Because of the 0xFF subtrahend the most negative 8-bit sample is -127, one count short of
   * minus the full scale, while the most positive one is the full scale less one count.
   */
  lemma FullScale8(b: bv8)
    ensures Scaled(Count8(0x80), RANGE_2G, OUTPUT_8BIT) == -127.0 / 64.0 * GRAVITY_ACCEL
    ensures Scaled(Count8(0x7F), RANGE_2G, OUTPUT_8BIT) == 127.0 / 64.0 * GRAVITY_ACCEL
    ensures Scaled(Count8(b), RANGE_2G, OUTPUT_8BIT) > -2.0 * GRAVITY_ACCEL
  {
  }

  /** The reading three signed counts scale to, one axis at a time. */
  function Reading(x: int, y: int, z: int, range: bv32, dataSize: bv32): Acceleration {
    Acceleration(Scaled(x, range, dataSize), Scaled(y, range, dataSize), Scaled(z, range, dataSize))
  }

  /** The reading a 14-bit block (X, Y and Z as MSB, LSB pairs) decodes to. */
  function Decode14(block: seq<bv8>, range: bv32, dataSize: bv32): Acceleration
    requires |block| == 6
  {
    Reading(Count14(block[0], block[1]), Count14(block[2], block[3]), Count14(block[4], block[5]), range, dataSize)
  }

  /** The reading an 8-bit block (one byte per axis) decodes to. */
  function Decode8(block: seq<bv8>, range: bv32, dataSize: bv32): Acceleration
    requires |block| == 3
  {
    Reading(Count8(block[0]), Count8(block[1]), Count8(block[2]), range, dataSize)
  }
}
