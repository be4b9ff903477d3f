/**
 * The register codec of the MMA8451 driver, stated as functions on bytes.
 *
 * `Unpack` and `Pack` are the split and the join that mma8451_get_register and
 * mma8451_set_register perform on the generic overlay. Each register with composite fields
 * has a `Decode…` (what its get_* function leaves in the caller's struct) and an `Encode…`
 * (the byte its set_* function writes). Both are stated as bit slices of the byte, and the
 * driver's methods are proved equal to them. The `…Update` functions give the byte each
 * high-level read-modify-write setter writes back.
 */
module Codec {
  import opened Defs
  import opened Fields

  // ---------------------------------------------------------------------------------------
  // The generic overlay

  /** Split a byte into one 0/1 field per bit: field bitK is 1 exactly when bit K is set. */
  function Unpack(v: bv8): (g: Generic)
    ensures g.IsBinary()
    ensures (g.bit7 == 1 <==> v & 0x80 != 0) && (g.bit6 == 1 <==> v & 0x40 != 0)
    ensures (g.bit5 == 1 <==> v & 0x20 != 0) && (g.bit4 == 1 <==> v & 0x10 != 0)
    ensures (g.bit3 == 1 <==> v & 0x08 != 0) && (g.bit2 == 1 <==> v & 0x04 != 0)
    ensures (g.bit1 == 1 <==> v & 0x02 != 0) && (g.bit0 == 1 <==> v & 0x01 != 0)
  {
    Generic((v >> 7) & 1, (v >> 6) & 1, (v >> 5) & 1, (v >> 4) & 1,
            (v >> 3) & 1, (v >> 2) & 1, (v >> 1) & 1, v & 1)
  }

  /** Join the lowest bit of each field into one byte, bit7 as the most significant. */
  function Pack(g: Generic): (v: bv8)
    ensures Unpack(v) == g.Masked()
  {
    ((g.bit7 & 1) << 7) | ((g.bit6 & 1) << 6) | ((g.bit5 & 1) << 5) | ((g.bit4 & 1) << 4) |
    ((g.bit3 & 1) << 3) | ((g.bit2 & 1) << 2) | ((g.bit1 & 1) << 1) | (g.bit0 & 1)
  }

  /** Reading a byte into the overlay and writing the overlay back gives the same byte. */
  lemma PackUnpack(v: bv8)
    ensures Pack(Unpack(v)) == v
  {
  }

  /** Only the lowest bit of each field reaches the register. */
  lemma PackMasked(g: Generic)
    ensures Pack(g) == Pack(g.Masked())
    ensures g.IsBinary() ==> Unpack(Pack(g)) == g
  {
  }

  // ---------------------------------------------------------------------------------------
  // Registers with composite fields

  /** F_STATUS after mma8451_get_f_status: f_cnt is the low six bits (the FIFO sample count). */
  function DecodeFStatus(v: bv8): (r: FStatus)
    ensures Pack(r.Bits()) == v
    ensures r.fCnt <= 0x3F
  {
    FStatus.ZERO.WithBits(Unpack(v)).(fCnt := v & 0x3F)
  }

  /** F_SETUP after mma8451_get_f_setup: f_mode is bits 7..6, f_wmrk bits 5..0. */
  function DecodeFSetup(v: bv8): (r: FSetup)
    ensures EncodeFSetup(r) == v
  {
    FSetup.ZERO.WithBits(Unpack(v)).(fMode := (v >> 6) as bv32, fWmrk := v & 0x3F)
  }

  /** The byte mma8451_set_f_setup writes: f_mode mod 4 over f_wmrk mod 64. */
  function EncodeFSetup(s: FSetup): bv8 {
    (((s.fMode & 3) as bv8) << 6) | (s.fWmrk & 0x3F)
  }

  /** Writing F_SETUP keeps only the low bits of each composite that fit its field. */
  lemma FSetupMasking(s: FSetup)
    ensures DecodeFSetup(EncodeFSetup(s)).fMode == s.fMode & 3
    ensures DecodeFSetup(EncodeFSetup(s)).fWmrk == s.fWmrk & 0x3F
  {
  }

  /** SYSMOD after mma8451_get_sysmod: fgt is bits 6..2, mode bits 1..0. */
  function DecodeSysmod(v: bv8): (r: Sysmod)
    ensures Pack(r.Bits()) == v
    ensures r.fgt <= 0x1F && r.mode <= 3
  {
    Sysmod.ZERO.WithBits(Unpack(v)).(fgt := (v >> 2) & 0x1F, mode := (v & 3) as bv32)
  }

  /** XYZ_DATA_CFG after mma8451_get_xyz_data_cfg: fs (the range) is bits 1..0. */
  function DecodeXyzDataCfg(v: bv8): (r: XyzDataCfg)
    ensures EncodeXyzDataCfg(r) == v
  {
    XyzDataCfg.ZERO.WithBits(Unpack(v)).(fs := (v & 3) as bv32)
  }

  /** The byte mma8451_set_xyz_data_cfg writes: the one-bit fields over fs mod 4. */
  function EncodeXyzDataCfg(s: XyzDataCfg): bv8 {
    ((s.unused1 & 1) << 7) | ((s.unused2 & 1) << 6) | ((s.unused3 & 1) << 5) | ((s.hpfOut & 1) << 4) |
    ((s.unused4 & 1) << 3) | ((s.unused5 & 1) << 2) | ((s.fs & 3) as bv8)
  }

  lemma XyzDataCfgMasking(s: XyzDataCfg)
    ensures DecodeXyzDataCfg(EncodeXyzDataCfg(s)).fs == s.fs & 3
    ensures DecodeXyzDataCfg(EncodeXyzDataCfg(s)).hpfOut == s.hpfOut & 1
  {
  }

  /** PL_BF_ZCOMP after mma8451_get_pl_bf_zcomp: bkfr is bits 7..6, zlock bits 2..0. */
  function DecodePlBfZcomp(v: bv8): (r: PlBfZcomp)
    ensures EncodePlBfZcomp(r) == v
  {
    PlBfZcomp.ZERO.WithBits(Unpack(v)).(bkfr := v >> 6, zlock := v & 7)
  }

  /** The byte mma8451_set_pl_bf_zcomp writes: bkfr mod 4, the unused bits, zlock mod 8. */
  function EncodePlBfZcomp(s: PlBfZcomp): bv8 {
    ((s.bkfr & 3) << 6) | ((s.unused1 & 1) << 5) | ((s.unused2 & 1) << 4) | ((s.unused3 & 1) << 3) |
    (s.zlock & 7)
  }

  lemma PlBfZcompMasking(s: PlBfZcomp)
    ensures DecodePlBfZcomp(EncodePlBfZcomp(s)).bkfr == s.bkfr & 3
    ensures DecodePlBfZcomp(EncodePlBfZcomp(s)).zlock == s.zlock & 7
  {
  }

  /** P_L_THS_REG after mma8451_get_p_l_ths_reg: p_l_ths is bits 7..3, hys bits 2..0. */
  function DecodePLThsReg(v: bv8): (r: PLThsReg)
    ensures EncodePLThsReg(r) == v
  {
    PLThsReg.ZERO.WithBits(Unpack(v)).(plThs := v >> 3, hys := v & 7)
  }

  /** The byte mma8451_set_p_l_ths_reg writes: p_l_ths mod 32 over hys mod 8. */
  function EncodePLThsReg(s: PLThsReg): bv8 {
    ((s.plThs & 0x1F) << 3) | (s.hys & 7)
  }

  lemma PLThsRegMasking(s: PLThsReg)
    ensures DecodePLThsReg(EncodePLThsReg(s)).plThs == s.plThs & 0x1F
    ensures DecodePLThsReg(EncodePLThsReg(s)).hys == s.hys & 7
  {
  }

  /** FF_MT_THS or TRANSIENT_THS after their get_* function: ths is bits 6..0. */
  function DecodeMotionThs(v: bv8): (r: MotionThs)
    ensures EncodeMotionThs(r) == v
  {
    MotionThs.ZERO.WithBits(Unpack(v)).(ths := v & 0x7F)
  }

  /** The byte mma8451_set_ff_mt_ths and mma8451_set_transient_ths write: dbcntm over ths mod 128. */
  function EncodeMotionThs(s: MotionThs): bv8 {
    ((s.dbcntm & 1) << 7) | (s.ths & 0x7F)
  }

  lemma MotionThsMasking(s: MotionThs)
    ensures DecodeMotionThs(EncodeMotionThs(s)).ths == s.ths & 0x7F
    ensures DecodeMotionThs(EncodeMotionThs(s)).dbcntm == s.dbcntm & 1
  {
  }

  /** PULSE_THSX/Y/Z after their get_* function: ths is bits 6..0. */
  function DecodePulseThs(v: bv8): (r: PulseThs)
    ensures EncodePulseThs(r) == v
  {
    PulseThs.ZERO.WithBits(Unpack(v)).(ths := v & 0x7F)
  }

  /** The byte the pulse threshold setters write: the unused bit over ths mod 128. */
  function EncodePulseThs(s: PulseThs): bv8 {
    ((s.unused & 1) << 7) | (s.ths & 0x7F)
  }

  lemma PulseThsMasking(s: PulseThs)
    ensures DecodePulseThs(EncodePulseThs(s)).ths == s.ths & 0x7F
    ensures DecodePulseThs(EncodePulseThs(s)).unused == s.unused & 1
  {
  }

  /** CTRL_REG1 after mma8451_get_ctrl_reg1: aslp_rate is bits 7..6, dr bits 5..3. */
  function DecodeCtrlReg1(v: bv8): (r: CtrlReg1)
    ensures EncodeCtrlReg1(r) == v
  {
    CtrlReg1.ZERO.WithBits(Unpack(v)).(aslpRate := (v >> 6) as bv32, dr := ((v >> 3) & 7) as bv32)
  }

  /** The byte mma8451_set_ctrl_reg1 writes: aslp_rate mod 4, dr mod 8, lnoise, f_read, active. */
  function EncodeCtrlReg1(s: CtrlReg1): bv8 {
    (((s.aslpRate & 3) as bv8) << 6) | (((s.dr & 7) as bv8) << 3) |
    ((s.lnoise & 1) << 2) | ((s.fRead & 1) << 1) | (s.active & 1)
  }

  lemma CtrlReg1Masking(s: CtrlReg1)
    ensures DecodeCtrlReg1(EncodeCtrlReg1(s)).aslpRate == s.aslpRate & 3
    ensures DecodeCtrlReg1(EncodeCtrlReg1(s)).dr == s.dr & 7
    ensures DecodeCtrlReg1(EncodeCtrlReg1(s)).lnoise == s.lnoise & 1
    ensures DecodeCtrlReg1(EncodeCtrlReg1(s)).fRead == s.fRead & 1
    ensures DecodeCtrlReg1(EncodeCtrlReg1(s)).active == s.active & 1
  {
  }

  /** CTRL_REG2 after mma8451_get_ctrl_reg2: smods is bits 4..3, mods bits 1..0. */
  function DecodeCtrlReg2(v: bv8): (r: CtrlReg2)
    ensures EncodeCtrlReg2(r) == v
  {
    CtrlReg2.ZERO.WithBits(Unpack(v)).(smods := ((v >> 3) & 3) as bv32, mods := (v & 3) as bv32)
  }

  /** The byte mma8451_set_ctrl_reg2 writes: st, rst, the unused bit, smods mod 4, slpe, mods mod 4. */
  function EncodeCtrlReg2(s: CtrlReg2): bv8 {
    ((s.st & 1) << 7) | ((s.rst & 1) << 6) | ((s.unused & 1) << 5) | (((s.smods & 3) as bv8) << 3) |
    ((s.slpe & 1) << 2) | ((s.mods & 3) as bv8)
  }

  lemma CtrlReg2Masking(s: CtrlReg2)
    ensures DecodeCtrlReg2(EncodeCtrlReg2(s)).smods == s.smods & 3
    ensures DecodeCtrlReg2(EncodeCtrlReg2(s)).mods == s.mods & 3
    ensures DecodeCtrlReg2(EncodeCtrlReg2(s)).rst == s.rst & 1
  {
  }

  // ---------------------------------------------------------------------------------------
  // Registers made only of one-bit fields

  /** PL_CFG after mma8451_get_pl_cfg. */
  function DecodePlCfg(v: bv8): (r: PlCfg)
    ensures EncodePlCfg(r) == v
  {
    PlCfg.ZERO.WithBits(Unpack(v))
  }

  /** The byte mma8451_set_pl_cfg writes. */
  function EncodePlCfg(s: PlCfg): bv8 {
    Pack(s.Bits())
  }

  /** CTRL_REG4 after mma8451_get_ctrl_reg4. */
  function DecodeCtrlReg4(v: bv8): (r: CtrlReg4)
    ensures EncodeCtrlReg4(r) == v
  {
    CtrlReg4.ZERO.WithBits(Unpack(v))
  }

  /** The byte mma8451_set_ctrl_reg4 writes. */
  function EncodeCtrlReg4(s: CtrlReg4): bv8 {
    Pack(s.Bits())
  }

  /** CTRL_REG5 after mma8451_get_ctrl_reg5. */
  function DecodeCtrlReg5(v: bv8): (r: CtrlReg5)
    ensures EncodeCtrlReg5(r) == v
  {
    CtrlReg5.ZERO.WithBits(Unpack(v))
  }

  /** The byte mma8451_set_ctrl_reg5 writes. */
  function EncodeCtrlReg5(s: CtrlReg5): bv8 {
    Pack(s.Bits())
  }

  // ---------------------------------------------------------------------------------------
  // The read-modify-write setters: the byte each writes back when the register held v

  /** C's `x > 0` stored into a one-bit field. */
  function Flag(on: bool): bv8 { if on then 1 else 0 }

  /** mma8451_set_range: fs (bits 1..0) becomes the range mod 4. */
  function RangeUpdate(v: bv8, scale: bv32): (w: bv8)
    ensures w == (v & 0xFC) | ((scale & 3) as bv8)
  {
    EncodeXyzDataCfg(DecodeXyzDataCfg(v).(fs := scale))
  }

  /** mma8451_set_power_mode: mods (bits 1..0 of CTRL_REG2) becomes the mode mod 4. */
  function PowerModeUpdate(v: bv8, mode: bv32): (w: bv8)
    ensures w == (v & 0xFC) | ((mode & 3) as bv8)
  {
    EncodeCtrlReg2(DecodeCtrlReg2(v).(mods := mode))
  }

  /**
   * mma8451_set_output_size: f_read (bit 1 of CTRL_REG1) becomes the lowest bit of the size,
   * after the size has been narrowed to an unsigned char.
   */
  function OutputSizeUpdate(v: bv8, size: bv32): (w: bv8)
    ensures w == (v & 0xFD) | (((size & 1) as bv8) << 1)
  {
    EncodeCtrlReg1(DecodeCtrlReg1(v).(fRead := (size & 0xFF) as bv8))
  }

  /** mma8451_set_data_rate: dr (bits 5..3 of CTRL_REG1) becomes the rate mod 8. */
  function DataRateUpdate(v: bv8, rate: bv32): (w: bv8)
    ensures w == (v & 0xC7) | (((rate & 7) as bv8) << 3)
  {
    EncodeCtrlReg1(DecodeCtrlReg1(v).(dr := rate))
  }

  /** mma8451_set_low_noise: lnoise (bit 2 of CTRL_REG1) is set exactly when the argument is non-zero. */
  function LowNoiseUpdate(v: bv8, lowNoise: bv8): (w: bv8)
    ensures w & 0xFB == v & 0xFB
    ensures (w & 0x04 != 0) <==> lowNoise > 0
  {
    EncodeCtrlReg1(DecodeCtrlReg1(v).(lnoise := Flag(lowNoise > 0)))
  }

  /** mma8451_set_active: active (bit 0 of CTRL_REG1) is set exactly when the argument is non-zero. */
  function ActiveUpdate(v: bv8, active: bv8): (w: bv8)
    ensures w & 0xFE == v & 0xFE
    ensures (w & 0x01 != 0) <==> active > 0
  {
    EncodeCtrlReg1(DecodeCtrlReg1(v).(active := Flag(active > 0)))
  }

  /** mma8451_set_orientation_detection: pl_en (bit 6 of PL_CFG) is set exactly when the argument is non-zero. */
  function OrientationUpdate(v: bv8, orientation: bv8): (w: bv8)
    ensures w & 0xBF == v & 0xBF
    ensures (w & 0x40 != 0) <==> orientation > 0
  {
    EncodePlCfg(DecodePlCfg(v).(plEn := Flag(orientation > 0)))
  }

  /** mma8451_set_interrupt_enable: int_en_drdy (bit 0 of CTRL_REG4) is set exactly when the argument is non-zero. */
  function InterruptEnableUpdate(v: bv8, enable: bv8): (w: bv8)
    ensures w & 0xFE == v & 0xFE
    ensures (w & 0x01 != 0) <==> enable > 0
  {
    EncodeCtrlReg4(DecodeCtrlReg4(v).(intEnDrdy := Flag(enable > 0)))
  }

  /** mma8451_set_interrupt_pin1: int_cfg_drdy (bit 0 of CTRL_REG5) is set exactly when the argument is non-zero. */
  function InterruptPin1Update(v: bv8, pin1: bv8): (w: bv8)
    ensures w & 0xFE == v & 0xFE
    ensures (w & 0x01 != 0) <==> pin1 > 0
  {
    EncodeCtrlReg5(DecodeCtrlReg5(v).(intCfgDrdy := Flag(pin1 > 0)))
  }

  /** mma8451_reset: rst (bit 6 of CTRL_REG2) is set and every other bit is kept. */
  function ResetUpdate(v: bv8): (w: bv8)
    ensures w == v | 0x40
  {
    EncodeCtrlReg2(DecodeCtrlReg2(v).(rst := 1))
  }

  // ---------------------------------------------------------------------------------------
  // Enumerations against the fields that hold them

  /** Every range constant survives mma8451_set_range and reads back from fs unchanged. */
  lemma RangeFits(v: bv8, scale: bv32)
    requires scale <= RANGE_RESERVED
    ensures DecodeXyzDataCfg(RangeUpdate(v, scale)).fs == scale
  {
  }

  /** Every power mode survives mma8451_set_power_mode and reads back from mods unchanged. */
  lemma PowerModeFits(v: bv8, mode: bv32)
    requires mode <= POWER_MODE_LOW_POWER
    ensures DecodeCtrlReg2(PowerModeUpdate(v, mode)).mods == mode
  {
  }

  /** Every data rate survives mma8451_set_data_rate and reads back from dr unchanged. */
  lemma DataRateFits(v: bv8, rate: bv32)
    requires rate <= DATA_RATE_1_56HZ
    ensures DecodeCtrlReg1(DataRateUpdate(v, rate)).dr == rate
  {
  }

  /** Both output sizes are the value of the f_read bit that selects them. */
  lemma OutputSizeFits(v: bv8, size: bv32)
    requires size == OUTPUT_8BIT || size == OUTPUT_14BIT
    ensures DecodeCtrlReg1(OutputSizeUpdate(v, size)).fRead as bv32 == size
  {
  }

  /** Every FIFO mode and sleep rate fits its two-bit field of F_SETUP and CTRL_REG1. */
  lemma FifoModeAndSleepRateFit(s: FSetup, c: CtrlReg1)
    requires s.fMode <= FIFO_MODE_TRIGGER && c.aslpRate <= ASLP_RATE_1_56HZ
    ensures DecodeFSetup(EncodeFSetup(s)).fMode == s.fMode
    ensures DecodeCtrlReg1(EncodeCtrlReg1(c)).aslpRate == c.aslpRate
  {
  }

  /**
   * Values outside an enumeration lose their high bits: mma8451_set_range(5) writes fs = 1,
   * and mma8451_set_output_size(2) clears f_read, which selects 14-bit samples on the chip.
   */
  lemma OutOfRangeArgumentsTruncate(v: bv8)
    ensures DecodeXyzDataCfg(RangeUpdate(v, 5)).fs == RANGE_4G
    ensures DecodeCtrlReg1(OutputSizeUpdate(v, 2)).fRead as bv32 == OUTPUT_14BIT
  {
  }

  // ---------------------------------------------------------------------------------------
  // Composite fields as numbers
  //
  // The decoders above take each composite as a bit slice of the byte; the lemmas below show
  // that this is the number the driver assembles from the one-bit fields (`Weight`), and that
  // the fields a set_* function derives from a composite are its binary digits (`Digits`).

  /** Each overlay field read from a byte holds the corresponding bit of the byte. */
  lemma UnpackedDigits(v: bv8)
    ensures var g := Unpack(v);
      Bit(g.bit7) == Bit(v >> 7) && Bit(g.bit6) == Bit(v >> 6) && Bit(g.bit5) == Bit(v >> 5) &&
      Bit(g.bit4) == Bit(v >> 4) && Bit(g.bit3) == Bit(v >> 3) && Bit(g.bit2) == Bit(v >> 2) &&
      Bit(g.bit1) == Bit(v >> 1) && Bit(g.bit0) == Bit(v)
  {
  }

  /** Widening a byte to an enumeration-typed field keeps its value. */
  lemma Widen(x: bv8)
    ensures (x as bv32) as int == x as int
  {
  }

  /** The value of each low slice a decoder takes, bit by bit. */
  lemma LowSlices(v: bv8)
    ensures (v & 3) as int == 2 * Bit(v >> 1) + Bit(v)
    ensures (v & 7) as int == 4 * Bit(v >> 2) + 2 * Bit(v >> 1) + Bit(v)
    ensures (v & 0x3F) as int == 32 * Bit(v >> 5) + 16 * Bit(v >> 4) + 8 * Bit(v >> 3) + 4 * Bit(v >> 2) + 2 * Bit(v >> 1) + Bit(v)
    ensures (v & 0x7F) as int == 64 * Bit(v >> 6) + 32 * Bit(v >> 5) + 16 * Bit(v >> 4) + 8 * Bit(v >> 3) + 4 * Bit(v >> 2) + 2 * Bit(v >> 1) + Bit(v)
  {
  }

  /** The value of each shifted slice a decoder takes, bit by bit. */
  lemma HighSlices(v: bv8)
    ensures (v >> 6) as int == 2 * Bit(v >> 7) + Bit(v >> 6)
    ensures (v >> 3) as int == 16 * Bit(v >> 7) + 8 * Bit(v >> 6) + 4 * Bit(v >> 5) + 2 * Bit(v >> 4) + Bit(v >> 3)
    ensures ((v >> 3) & 7) as int == 4 * Bit(v >> 5) + 2 * Bit(v >> 4) + Bit(v >> 3)
    ensures ((v >> 3) & 3) as int == 2 * Bit(v >> 4) + Bit(v >> 3)
    ensures ((v >> 2) & 0x1F) as int == 16 * Bit(v >> 6) + 8 * Bit(v >> 5) + 4 * Bit(v >> 4) + 2 * Bit(v >> 3) + Bit(v >> 2)
  {
  }

  /** After mma8451_get_f_status, f_cnt is the number f_cnt5..f_cnt0 spell. */
  lemma FStatusComposites(v: bv8)
    ensures var r := DecodeFStatus(v); r.fCnt as int == Weight([r.fCnt5, r.fCnt4, r.fCnt3, r.fCnt2, r.fCnt1, r.fCnt0])
  {
    var r := DecodeFStatus(v);
    assert r.Bits() == Unpack(v);
    UnpackedDigits(v);
    LowSlices(v);
    WeightOf6(r.fCnt5, r.fCnt4, r.fCnt3, r.fCnt2, r.fCnt1, r.fCnt0);
  }

  /** After mma8451_get_f_setup, f_mode and f_wmrk are the numbers their bit fields spell. */
  lemma FSetupComposites(v: bv8)
    ensures var r := DecodeFSetup(v); r.fMode as int == Weight([r.fMode1, r.fMode0])
    ensures var r := DecodeFSetup(v); r.fWmrk as int == Weight([r.fWmrk5, r.fWmrk4, r.fWmrk3, r.fWmrk2, r.fWmrk1, r.fWmrk0])
  {
    var r := DecodeFSetup(v);
    assert r.Bits() == Unpack(v);
    UnpackedDigits(v);
    LowSlices(v);
    HighSlices(v);
    Widen(v >> 6);
    WeightOf2(r.fMode1, r.fMode0);
    WeightOf6(r.fWmrk5, r.fWmrk4, r.fWmrk3, r.fWmrk2, r.fWmrk1, r.fWmrk0);
  }

  /** The bit fields mma8451_set_f_setup derives from fMode and fWmrk are the binary digits of each, cut to its width. */
  lemma FSetupSplit(s: FSetup)
    ensures var g := Unpack(EncodeFSetup(s)); [g.bit7, g.bit6] == Digits((s.fMode & 3) as int, 2)
    ensures var g := Unpack(EncodeFSetup(s)); [g.bit5, g.bit4, g.bit3, g.bit2, g.bit1, g.bit0] == Digits((s.fWmrk & 0x3F) as int, 6)
  {
    var v := EncodeFSetup(s);
    var g := Unpack(v);
    assert DecodeFSetup(v).Bits() == g;
    FSetupComposites(v);
    FSetupMasking(s);
    Binary2(g.bit7, g.bit6);
    DigitsOfWeight([g.bit7, g.bit6]);
    Binary6(g.bit5, g.bit4, g.bit3, g.bit2, g.bit1, g.bit0);
    DigitsOfWeight([g.bit5, g.bit4, g.bit3, g.bit2, g.bit1, g.bit0]);
  }

  /** After mma8451_get_sysmod, fgt and mode are the numbers fgt_4..fgt_0 and sysmod1..sysmod0 spell. */
  lemma SysmodComposites(v: bv8)
    ensures var r := DecodeSysmod(v); r.fgt as int == Weight([r.fgt4, r.fgt3, r.fgt2, r.fgt1, r.fgt0])
    ensures var r := DecodeSysmod(v); r.mode as int == Weight([r.sysmod1, r.sysmod0])
  {
    var r := DecodeSysmod(v);
    assert r.Bits() == Unpack(v);
    UnpackedDigits(v);
    LowSlices(v);
    HighSlices(v);
    WeightOf5(r.fgt4, r.fgt3, r.fgt2, r.fgt1, r.fgt0);
    Widen(v & 3);
    WeightOf2(r.sysmod1, r.sysmod0);
  }

  /** After mma8451_get_xyz_data_cfg, fs is the number fs1..fs0 spell. */
  lemma XyzDataCfgComposites(v: bv8)
    ensures var r := DecodeXyzDataCfg(v); r.fs as int == Weight([r.fs1, r.fs0])
  {
    var r := DecodeXyzDataCfg(v);
    assert r.Bits() == Unpack(v);
    UnpackedDigits(v);
    LowSlices(v);
    Widen(v & 3);
    WeightOf2(r.fs1, r.fs0);
  }

  /** The bit fields mma8451_set_xyz_data_cfg derives from fs are the binary digits of each, cut to its width. */
  lemma XyzDataCfgSplit(s: XyzDataCfg)
    ensures var g := Unpack(EncodeXyzDataCfg(s)); [g.bit1, g.bit0] == Digits((s.fs & 3) as int, 2)
  {
    var v := EncodeXyzDataCfg(s);
    var g := Unpack(v);
    assert DecodeXyzDataCfg(v).Bits() == g;
    XyzDataCfgComposites(v);
    XyzDataCfgMasking(s);
    Binary2(g.bit1, g.bit0);
    DigitsOfWeight([g.bit1, g.bit0]);
  }

  /** After mma8451_get_pl_bf_zcomp, bkfr and zlock are the numbers their bit fields spell. */
  lemma PlBfZcompComposites(v: bv8)
    ensures var r := DecodePlBfZcomp(v); r.bkfr as int == Weight([r.bkfr1, r.bkfr0])
    ensures var r := DecodePlBfZcomp(v); r.zlock as int == Weight([r.zlock2, r.zlock1, r.zlock0])
  {
    var r := DecodePlBfZcomp(v);
    assert r.Bits() == Unpack(v);
    UnpackedDigits(v);
    LowSlices(v);
    HighSlices(v);
    WeightOf2(r.bkfr1, r.bkfr0);
    WeightOf3(r.zlock2, r.zlock1, r.zlock0);
  }

  /** The bit fields mma8451_set_pl_bf_zcomp derives from bkfr and zlock are the binary digits of each, cut to its width. */
  lemma PlBfZcompSplit(s: PlBfZcomp)
    ensures var g := Unpack(EncodePlBfZcomp(s)); [g.bit7, g.bit6] == Digits((s.bkfr & 3) as int, 2)
    ensures var g := Unpack(EncodePlBfZcomp(s)); [g.bit2, g.bit1, g.bit0] == Digits((s.zlock & 7) as int, 3)
  {
    var v := EncodePlBfZcomp(s);
    var g := Unpack(v);
    assert DecodePlBfZcomp(v).Bits() == g;
    PlBfZcompComposites(v);
    PlBfZcompMasking(s);
    Binary2(g.bit7, g.bit6);
    DigitsOfWeight([g.bit7, g.bit6]);
    Binary3(g.bit2, g.bit1, g.bit0);
    DigitsOfWeight([g.bit2, g.bit1, g.bit0]);
  }

  /** After mma8451_get_p_l_ths_reg, pl_ths and hys are the numbers their bit fields spell. */
  lemma PLThsRegComposites(v: bv8)
    ensures var r := DecodePLThsReg(v); r.plThs as int == Weight([r.plThs4, r.plThs3, r.plThs2, r.plThs1, r.plThs0])
    ensures var r := DecodePLThsReg(v); r.hys as int == Weight([r.hys2, r.hys1, r.hys0])
  {
    var r := DecodePLThsReg(v);
    assert r.Bits() == Unpack(v);
    UnpackedDigits(v);
    LowSlices(v);
    HighSlices(v);
    WeightOf5(r.plThs4, r.plThs3, r.plThs2, r.plThs1, r.plThs0);
    WeightOf3(r.hys2, r.hys1, r.hys0);
  }

  /** The bit fields mma8451_set_p_l_ths_reg derives from plThs and hys are the binary digits of each, cut to its width. */
  lemma PLThsRegSplit(s: PLThsReg)
    ensures var g := Unpack(EncodePLThsReg(s)); [g.bit7, g.bit6, g.bit5, g.bit4, g.bit3] == Digits((s.plThs & 0x1F) as int, 5)
    ensures var g := Unpack(EncodePLThsReg(s)); [g.bit2, g.bit1, g.bit0] == Digits((s.hys & 7) as int, 3)
  {
    var v := EncodePLThsReg(s);
    var g := Unpack(v);
    assert DecodePLThsReg(v).Bits() == g;
    PLThsRegComposites(v);
    PLThsRegMasking(s);
    Binary5(g.bit7, g.bit6, g.bit5, g.bit4, g.bit3);
    DigitsOfWeight([g.bit7, g.bit6, g.bit5, g.bit4, g.bit3]);
    Binary3(g.bit2, g.bit1, g.bit0);
    DigitsOfWeight([g.bit2, g.bit1, g.bit0]);
  }

  /** After mma8451_get_ff_mt_ths and mma8451_get_transient_ths, ths is the number ths6..ths0 spell. */
  lemma MotionThsComposites(v: bv8)
    ensures var r := DecodeMotionThs(v); r.ths as int == Weight([r.ths6, r.ths5, r.ths4, r.ths3, r.ths2, r.ths1, r.ths0])
  {
    var r := DecodeMotionThs(v);
    assert r.Bits() == Unpack(v);
    UnpackedDigits(v);
    LowSlices(v);
    WeightOf7(r.ths6, r.ths5, r.ths4, r.ths3, r.ths2, r.ths1, r.ths0);
  }

  /** The bit fields mma8451_set_ff_mt_ths and mma8451_set_transient_ths derives from ths are the binary digits of each, cut to its width. */
  lemma MotionThsSplit(s: MotionThs)
    ensures var g := Unpack(EncodeMotionThs(s)); [g.bit6, g.bit5, g.bit4, g.bit3, g.bit2, g.bit1, g.bit0] == Digits((s.ths & 0x7F) as int, 7)
  {
    var v := EncodeMotionThs(s);
    var g := Unpack(v);
    assert DecodeMotionThs(v).Bits() == g;
    MotionThsComposites(v);
    MotionThsMasking(s);
    Binary7(g.bit6, g.bit5, g.bit4, g.bit3, g.bit2, g.bit1, g.bit0);
    DigitsOfWeight([g.bit6, g.bit5, g.bit4, g.bit3, g.bit2, g.bit1, g.bit0]);
  }

  /** After mma8451_get_pulse_thsx/y/z, ths is the number ths6..ths0 spell. */
  lemma PulseThsComposites(v: bv8)
    ensures var r := DecodePulseThs(v); r.ths as int == Weight([r.ths6, r.ths5, r.ths4, r.ths3, r.ths2, r.ths1, r.ths0])
  {
    var r := DecodePulseThs(v);
    assert r.Bits() == Unpack(v);
    UnpackedDigits(v);
    LowSlices(v);
    WeightOf7(r.ths6, r.ths5, r.ths4, r.ths3, r.ths2, r.ths1, r.ths0);
  }

  /** The bit fields mma8451_set_pulse_thsx/y/z derives from ths are the binary digits of each, cut to its width. */
  lemma PulseThsSplit(s: PulseThs)
    ensures var g := Unpack(EncodePulseThs(s)); [g.bit6, g.bit5, g.bit4, g.bit3, g.bit2, g.bit1, g.bit0] == Digits((s.ths & 0x7F) as int, 7)
  {
    var v := EncodePulseThs(s);
    var g := Unpack(v);
    assert DecodePulseThs(v).Bits() == g;
    PulseThsComposites(v);
    PulseThsMasking(s);
    Binary7(g.bit6, g.bit5, g.bit4, g.bit3, g.bit2, g.bit1, g.bit0);
    DigitsOfWeight([g.bit6, g.bit5, g.bit4, g.bit3, g.bit2, g.bit1, g.bit0]);
  }

  /** After mma8451_get_ctrl_reg1, aslp_rate and dr are the numbers their bit fields spell. */
  lemma CtrlReg1Composites(v: bv8)
    ensures var r := DecodeCtrlReg1(v); r.aslpRate as int == Weight([r.aslpRate1, r.aslpRate0])
    ensures var r := DecodeCtrlReg1(v); r.dr as int == Weight([r.dr2, r.dr1, r.dr0])
  {
    var r := DecodeCtrlReg1(v);
    assert r.Bits() == Unpack(v);
    UnpackedDigits(v);
    HighSlices(v);
    Widen(v >> 6);
    WeightOf2(r.aslpRate1, r.aslpRate0);
    Widen((v >> 3) & 7);
    WeightOf3(r.dr2, r.dr1, r.dr0);
  }

  /** The bit fields mma8451_set_ctrl_reg1 derives from aslpRate and dr are the binary digits of each, cut to its width. */
  lemma CtrlReg1Split(s: CtrlReg1)
    ensures var g := Unpack(EncodeCtrlReg1(s)); [g.bit7, g.bit6] == Digits((s.aslpRate & 3) as int, 2)
    ensures var g := Unpack(EncodeCtrlReg1(s)); [g.bit5, g.bit4, g.bit3] == Digits((s.dr & 7) as int, 3)
  {
    var v := EncodeCtrlReg1(s);
    var g := Unpack(v);
    assert DecodeCtrlReg1(v).Bits() == g;
    CtrlReg1Composites(v);
    CtrlReg1Masking(s);
    Binary2(g.bit7, g.bit6);
    DigitsOfWeight([g.bit7, g.bit6]);
    Binary3(g.bit5, g.bit4, g.bit3);
    DigitsOfWeight([g.bit5, g.bit4, g.bit3]);
  }

  /** After mma8451_get_ctrl_reg2, smods and mods are the numbers their bit fields spell. */
  lemma CtrlReg2Composites(v: bv8)
    ensures var r := DecodeCtrlReg2(v); r.smods as int == Weight([r.smods1, r.smods0])
    ensures var r := DecodeCtrlReg2(v); r.mods as int == Weight([r.mods1, r.mods0])
  {
    var r := DecodeCtrlReg2(v);
    assert r.Bits() == Unpack(v);
    UnpackedDigits(v);
    LowSlices(v);
    HighSlices(v);
    Widen((v >> 3) & 3);
    WeightOf2(r.smods1, r.smods0);
    Widen(v & 3);
    WeightOf2(r.mods1, r.mods0);
  }

  /** The bit fields mma8451_set_ctrl_reg2 derives from smods and mods are the binary digits of each, cut to its width. */
  lemma CtrlReg2Split(s: CtrlReg2)
    ensures var g := Unpack(EncodeCtrlReg2(s)); [g.bit4, g.bit3] == Digits((s.smods & 3) as int, 2)
    ensures var g := Unpack(EncodeCtrlReg2(s)); [g.bit1, g.bit0] == Digits((s.mods & 3) as int, 2)
  {
    var v := EncodeCtrlReg2(s);
    var g := Unpack(v);
    assert DecodeCtrlReg2(v).Bits() == g;
    CtrlReg2Composites(v);
    CtrlReg2Masking(s);
    Binary2(g.bit4, g.bit3);
    DigitsOfWeight([g.bit4, g.bit3]);
    Binary2(g.bit1, g.bit0);
    DigitsOfWeight([g.bit1, g.bit0]);
  }
}
