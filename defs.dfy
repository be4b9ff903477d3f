/**
 * Constants, enumerations and register layouts of the MMA8451 driver (mma8451.h).
 *
 * An `unsigned char` of the driver is a `bv8`; an enumeration-typed field (all of whose
 * constants are non-negative) is taken to be an unsigned 32-bit word, a `bv32`.
 * Each register structure is overlaid on `Generic` by an address cast in the driver, so the
 * declaration order of its first eight fields is its bit order: the first field is bit 7 and
 * the eighth is bit 0. `Bits` and `WithBits` below spell that mapping out field by field;
 * the composite fields come after the eight bit fields, so the overlay never touches them.
 */
module Defs {

  datatype Option<T> = None | Some(value: T)

  /** What the WHO_AM_I register of an MMA8451 holds. */
  const MMA8451_ID: bv8 := 0x1A

  /** Largest non-negative 14-bit count, and the offset subtracted from larger raw values. */
  const MAX_14BIT_VALUE: int := 0x1FFF
  const MAX_14BIT_SIGNED: int := 0x4000
  /** Largest non-negative 8-bit count, and what the driver subtracts from larger raw values. */
  const MAX_8BIT_VALUE: int := 0x7F
  const MAX_8BIT_SIGNED: int := 0xFF

  /**
   * Counts per g for each range and width: the numerators of the RANGE_DIV_* divisors,
   * each of which is this count divided by standard gravity (9.80665).
   */
  const COUNTS_2G_14BIT: nat := 0x1000
  const COUNTS_4G_14BIT: nat := 0x800
  const COUNTS_8G_14BIT: nat := 0x400
  const COUNTS_2G_8BIT: nat := 0x40
  const COUNTS_4G_8BIT: nat := 0x20
  const COUNTS_8G_8BIT: nat := 0x10

  /** Register addresses (enum mma8451_register); the register file has 0x32 of them. */
  const REGISTER_COUNT: nat := 0x32
  type RegAddr = r: int | 0 <= r < 0x32

  const STATUS: RegAddr := 0x00
  const F_STATUS: RegAddr := 0x00
  const OUT_X_MSB: RegAddr := 0x01
  const OUT_X_LSB: RegAddr := 0x02
  const OUT_Y_MSB: RegAddr := 0x03
  const OUT_Y_LSB: RegAddr := 0x04
  const OUT_Z_MSB: RegAddr := 0x05
  const OUT_Z_LSB: RegAddr := 0x06
  const F_SETUP: RegAddr := 0x09
  const TRIG_CFG: RegAddr := 0x0A
  const SYSMOD: RegAddr := 0x0B
  const INT_SOURCE: RegAddr := 0x0C
  const WHO_AM_I: RegAddr := 0x0D
  const XYZ_DATA_CFG: RegAddr := 0x0E
  const HP_FILTER_CUTOFF: RegAddr := 0x0F
  const PL_STATUS: RegAddr := 0x10
  const PL_CFG: RegAddr := 0x11
  const PL_COUNT: RegAddr := 0x12
  const PL_BF_ZCOMP: RegAddr := 0x13
  const P_L_THS_REG: RegAddr := 0x14
  const FF_MT_CFG: RegAddr := 0x15
  const FF_MT_SRC: RegAddr := 0x16
  const FF_MT_THS: RegAddr := 0x17
  const FF_MT_COUNT: RegAddr := 0x18
  const TRANSIENT_CFG: RegAddr := 0x1D
  const TRANSIENT_SCR: RegAddr := 0x1E
  const TRANSIENT_THS: RegAddr := 0x1F
  const TRANSIENT_COUNT: RegAddr := 0x20
  const PULSE_CFG: RegAddr := 0x21
  const PULSE_SRC: RegAddr := 0x22
  const PULSE_THSX: RegAddr := 0x23
  const PULSE_THSY: RegAddr := 0x24
  const PULSE_THSZ: RegAddr := 0x25
  const PULSE_TMLT: RegAddr := 0x26
  const PULSE_LTCY: RegAddr := 0x27
  const PULSE_WIND: RegAddr := 0x28
  const ASLP_COUNT: RegAddr := 0x29
  const CTRL_REG1: RegAddr := 0x2A
  const CTRL_REG2: RegAddr := 0x2B
  const CTRL_REG3: RegAddr := 0x2C
  const CTRL_REG4: RegAddr := 0x2D
  const CTRL_REG5: RegAddr := 0x2E
  const OFF_X: RegAddr := 0x2F
  const OFF_Y: RegAddr := 0x30
  const OFF_Z: RegAddr := 0x31

  /**
   * STATUS and F_STATUS are one address, and the six sample registers follow it in the order
   * X, Y, Z with the MSB first, so a block read from OUT_X_MSB takes them in that order.
   */
  lemma SampleRegisterLayout()
    ensures STATUS == F_STATUS == 0
    ensures OUT_X_LSB == OUT_X_MSB + 1 && OUT_Y_MSB == OUT_X_MSB + 2 && OUT_Y_LSB == OUT_X_MSB + 3
    ensures OUT_Z_MSB == OUT_X_MSB + 4 && OUT_Z_LSB == OUT_X_MSB + 5
    ensures OUT_X_MSB + 6 <= REGISTER_COUNT
  {
  }

  /** The registers whose layout is a dead-band flag or unused bit over a 7-bit threshold. */
  predicate IsMotionThsReg(reg: RegAddr) { reg == FF_MT_THS || reg == TRANSIENT_THS }
  predicate IsPulseThsReg(reg: RegAddr) { reg == PULSE_THSX || reg == PULSE_THSY || reg == PULSE_THSZ }

  /** enum mma8451_fifo_mode */
  const FIFO_MODE_DISABLED: bv32 := 0
  const FIFO_MODE_RING_BUFFER: bv32 := 1
  const FIFO_MODE_STOP_BUFFER: bv32 := 2
  const FIFO_MODE_TRIGGER: bv32 := 3

  /** enum mma8451_system_mode */
  const SYSTEM_MODE_STANDBY: bv32 := 0
  const SYSTEM_MODE_WAKE: bv32 := 1
  const SYSTEM_MODE_SLEEP: bv32 := 2

  /** enum mma8451_range_scale */
  const RANGE_2G: bv32 := 0
  const RANGE_4G: bv32 := 1
  const RANGE_8G: bv32 := 2
  const RANGE_RESERVED: bv32 := 3

  /** enum mma8451_output_size: the value of the F_READ bit that selects each width. */
  const OUTPUT_8BIT: bv32 := 1
  const OUTPUT_14BIT: bv32 := 0

  /** enum mma8451_aslp_rate */
  const ASLP_RATE_50HZ: bv32 := 0
  const ASLP_RATE_12_5HZ: bv32 := 1
  const ASLP_RATE_6_25HZ: bv32 := 2
  const ASLP_RATE_1_56HZ: bv32 := 3

  /** enum mma8451_data_rate */
  const DATA_RATE_800HZ: bv32 := 0
  const DATA_RATE_400HZ: bv32 := 1
  const DATA_RATE_200HZ: bv32 := 2
  const DATA_RATE_100HZ: bv32 := 3
  const DATA_RATE_50HZ: bv32 := 4
  const DATA_RATE_12_5HZ: bv32 := 5
  const DATA_RATE_6_25HZ: bv32 := 6
  const DATA_RATE_1_56HZ: bv32 := 7

  /** enum mma8451_power_mode */
  const POWER_MODE_NORMAL: bv32 := 0
  const POWER_MODE_LNOISE_LPOWER: bv32 := 1
  const POWER_MODE_HIGH_RES: bv32 := 2
  const POWER_MODE_LOW_POWER: bv32 := 3

  /** mma8451_register_generic: one byte field per register bit, bit 7 declared first. */
  datatype Generic = Generic(bit7: bv8, bit6: bv8, bit5: bv8, bit4: bv8,
                             bit3: bv8, bit2: bv8, bit1: bv8, bit0: bv8)
  {
    /** Every field holds 0 or 1, as after a register read. */
    predicate IsBinary() {
      bit7 <= 1 && bit6 <= 1 && bit5 <= 1 && bit4 <= 1 && bit3 <= 1 && bit2 <= 1 && bit1 <= 1 && bit0 <= 1
    }

    /** Every field cut down to its lowest bit, which is all a register write looks at. */
    function Masked(): Generic {
      Generic(bit7 & 1, bit6 & 1, bit5 & 1, bit4 & 1, bit3 & 1, bit2 & 1, bit1 & 1, bit0 & 1)
    }
  }

  /** mma8451_register_f_status; f_cnt is assembled from f_cnt5..f_cnt0. */
  datatype FStatus = FStatus(fOvf: bv8, fWmrkFlag: bv8, fCnt5: bv8, fCnt4: bv8,
                             fCnt3: bv8, fCnt2: bv8, fCnt1: bv8, fCnt0: bv8, fCnt: bv8)
  {
    /** Every field zero; the get_* functions overwrite all of them on success. */
    static const ZERO := FStatus(0, 0, 0, 0, 0, 0, 0, 0, 0)
    function Bits(): Generic { Generic(fOvf, fWmrkFlag, fCnt5, fCnt4, fCnt3, fCnt2, fCnt1, fCnt0) }
    function WithBits(g: Generic): (r: FStatus)
      ensures r.Bits() == g
      ensures r.fCnt == fCnt
    {
      this.(fOvf := g.bit7, fWmrkFlag := g.bit6, fCnt5 := g.bit5, fCnt4 := g.bit4,
            fCnt3 := g.bit3, fCnt2 := g.bit2, fCnt1 := g.bit1, fCnt0 := g.bit0)
    }
  }

  /** mma8451_register_f_setup; f_mode (an enumeration) over f_mode1..0, f_wmrk over f_wmrk5..0. */
  datatype FSetup = FSetup(fMode1: bv8, fMode0: bv8, fWmrk5: bv8, fWmrk4: bv8,
                           fWmrk3: bv8, fWmrk2: bv8, fWmrk1: bv8, fWmrk0: bv8,
                           fMode: bv32, fWmrk: bv8)
  {
    static const ZERO := FSetup(0, 0, 0, 0, 0, 0, 0, 0, 0, 0)
    function Bits(): Generic { Generic(fMode1, fMode0, fWmrk5, fWmrk4, fWmrk3, fWmrk2, fWmrk1, fWmrk0) }
    function WithBits(g: Generic): (r: FSetup)
      ensures r.Bits() == g
      ensures r.fMode == fMode && r.fWmrk == fWmrk
    {
      this.(fMode1 := g.bit7, fMode0 := g.bit6, fWmrk5 := g.bit5, fWmrk4 := g.bit4,
            fWmrk3 := g.bit3, fWmrk2 := g.bit2, fWmrk1 := g.bit1, fWmrk0 := g.bit0)
    }
  }

  /** mma8451_register_sysmod; fgt over fgt_4..fgt_0, mode (an enumeration) over sysmod1..0. */
  datatype Sysmod = Sysmod(fgerr: bv8, fgt4: bv8, fgt3: bv8, fgt2: bv8,
                           fgt1: bv8, fgt0: bv8, sysmod1: bv8, sysmod0: bv8,
                           fgt: bv8, mode: bv32)
  {
    static const ZERO := Sysmod(0, 0, 0, 0, 0, 0, 0, 0, 0, 0)
    function Bits(): Generic { Generic(fgerr, fgt4, fgt3, fgt2, fgt1, fgt0, sysmod1, sysmod0) }
    function WithBits(g: Generic): (r: Sysmod)
      ensures r.Bits() == g
      ensures r.fgt == fgt && r.mode == mode
    {
      this.(fgerr := g.bit7, fgt4 := g.bit6, fgt3 := g.bit5, fgt2 := g.bit4,
            fgt1 := g.bit3, fgt0 := g.bit2, sysmod1 := g.bit1, sysmod0 := g.bit0)
    }
  }

  /** mma8451_register_xyz_data_cfg; fs (an enumeration, the range) over fs1..fs0. */
  datatype XyzDataCfg = XyzDataCfg(unused1: bv8, unused2: bv8, unused3: bv8, hpfOut: bv8,
                                   unused4: bv8, unused5: bv8, fs1: bv8, fs0: bv8, fs: bv32)
  {
    static const ZERO := XyzDataCfg(0, 0, 0, 0, 0, 0, 0, 0, 0)
    function Bits(): Generic { Generic(unused1, unused2, unused3, hpfOut, unused4, unused5, fs1, fs0) }
    function WithBits(g: Generic): (r: XyzDataCfg)
      ensures r.Bits() == g
      ensures r.fs == fs
    {
      this.(unused1 := g.bit7, unused2 := g.bit6, unused3 := g.bit5, hpfOut := g.bit4,
            unused4 := g.bit3, unused5 := g.bit2, fs1 := g.bit1, fs0 := g.bit0)
    }
  }

  /** mma8451_register_pl_cfg: eight one-bit fields, no composite. */
  datatype PlCfg = PlCfg(dbcntm: bv8, plEn: bv8, unused1: bv8, unused2: bv8,
                         unused3: bv8, unused4: bv8, unused5: bv8, unused6: bv8)
  {
    static const ZERO := PlCfg(0, 0, 0, 0, 0, 0, 0, 0)
    function Bits(): Generic { Generic(dbcntm, plEn, unused1, unused2, unused3, unused4, unused5, unused6) }
    function WithBits(g: Generic): (r: PlCfg)
      ensures r.Bits() == g
    {
      PlCfg(g.bit7, g.bit6, g.bit5, g.bit4, g.bit3, g.bit2, g.bit1, g.bit0)
    }
  }

  /** mma8451_register_pl_bf_zcomp; bkfr over bkfr1..0, zlock over zlock2..0. */
  datatype PlBfZcomp = PlBfZcomp(bkfr1: bv8, bkfr0: bv8, unused1: bv8, unused2: bv8,
                                 unused3: bv8, zlock2: bv8, zlock1: bv8, zlock0: bv8,
                                 bkfr: bv8, zlock: bv8)
  {
    static const ZERO := PlBfZcomp(0, 0, 0, 0, 0, 0, 0, 0, 0, 0)
    function Bits(): Generic { Generic(bkfr1, bkfr0, unused1, unused2, unused3, zlock2, zlock1, zlock0) }
    function WithBits(g: Generic): (r: PlBfZcomp)
      ensures r.Bits() == g
      ensures r.bkfr == bkfr && r.zlock == zlock
    {
      this.(bkfr1 := g.bit7, bkfr0 := g.bit6, unused1 := g.bit5, unused2 := g.bit4,
            unused3 := g.bit3, zlock2 := g.bit2, zlock1 := g.bit1, zlock0 := g.bit0)
    }
  }

  /** mma8451_register_p_l_ths_reg; p_l_ths over p_l_ths4..0, hys over hys2..0. */
  datatype PLThsReg = PLThsReg(plThs4: bv8, plThs3: bv8, plThs2: bv8, plThs1: bv8,
                               plThs0: bv8, hys2: bv8, hys1: bv8, hys0: bv8,
                               plThs: bv8, hys: bv8)
  {
    static const ZERO := PLThsReg(0, 0, 0, 0, 0, 0, 0, 0, 0, 0)
    function Bits(): Generic { Generic(plThs4, plThs3, plThs2, plThs1, plThs0, hys2, hys1, hys0) }
    function WithBits(g: Generic): (r: PLThsReg)
      ensures r.Bits() == g
      ensures r.plThs == plThs && r.hys == hys
    {
      this.(plThs4 := g.bit7, plThs3 := g.bit6, plThs2 := g.bit5, plThs1 := g.bit4,
            plThs0 := g.bit3, hys2 := g.bit2, hys1 := g.bit1, hys0 := g.bit0)
    }
  }

  /**
   * mma8451_register_ff_mt_ths and mma8451_register_transient_ths, which the header declares
   * with the same fields: dbcntm, then ths over ths6..ths0.
   */
  datatype MotionThs = MotionThs(dbcntm: bv8, ths6: bv8, ths5: bv8, ths4: bv8,
                                 ths3: bv8, ths2: bv8, ths1: bv8, ths0: bv8, ths: bv8)
  {
    static const ZERO := MotionThs(0, 0, 0, 0, 0, 0, 0, 0, 0)
    function Bits(): Generic { Generic(dbcntm, ths6, ths5, ths4, ths3, ths2, ths1, ths0) }
    function WithBits(g: Generic): (r: MotionThs)
      ensures r.Bits() == g
      ensures r.ths == ths
    {
      this.(dbcntm := g.bit7, ths6 := g.bit6, ths5 := g.bit5, ths4 := g.bit4,
            ths3 := g.bit3, ths2 := g.bit2, ths1 := g.bit1, ths0 := g.bit0)
    }
  }

  /** mma8451_register_pulse_ths, shared by PULSE_THSX/Y/Z: an unused bit, then ths over ths6..0. */
  datatype PulseThs = PulseThs(unused: bv8, ths6: bv8, ths5: bv8, ths4: bv8,
                               ths3: bv8, ths2: bv8, ths1: bv8, ths0: bv8, ths: bv8)
  {
    static const ZERO := PulseThs(0, 0, 0, 0, 0, 0, 0, 0, 0)
    function Bits(): Generic { Generic(unused, ths6, ths5, ths4, ths3, ths2, ths1, ths0) }
    function WithBits(g: Generic): (r: PulseThs)
      ensures r.Bits() == g
      ensures r.ths == ths
    {
      this.(unused := g.bit7, ths6 := g.bit6, ths5 := g.bit5, ths4 := g.bit4,
            ths3 := g.bit3, ths2 := g.bit2, ths1 := g.bit1, ths0 := g.bit0)
    }
  }

  /** mma8451_register_ctrl_reg1; aslp_rate over aslp_rate1..0, dr over dr2..0 (both enumerations). */
  datatype CtrlReg1 = CtrlReg1(aslpRate1: bv8, aslpRate0: bv8, dr2: bv8, dr1: bv8,
                               dr0: bv8, lnoise: bv8, fRead: bv8, active: bv8,
                               aslpRate: bv32, dr: bv32)
  {
    static const ZERO := CtrlReg1(0, 0, 0, 0, 0, 0, 0, 0, 0, 0)
    function Bits(): Generic { Generic(aslpRate1, aslpRate0, dr2, dr1, dr0, lnoise, fRead, active) }
    function WithBits(g: Generic): (r: CtrlReg1)
      ensures r.Bits() == g
      ensures r.aslpRate == aslpRate && r.dr == dr
    {
      this.(aslpRate1 := g.bit7, aslpRate0 := g.bit6, dr2 := g.bit5, dr1 := g.bit4,
            dr0 := g.bit3, lnoise := g.bit2, fRead := g.bit1, active := g.bit0)
    }
  }

  /** mma8451_register_ctrl_reg2; smods over smods1..0, mods over mods1..0 (both power modes). */
  datatype CtrlReg2 = CtrlReg2(st: bv8, rst: bv8, unused: bv8, smods1: bv8,
                               smods0: bv8, slpe: bv8, mods1: bv8, mods0: bv8,
                               smods: bv32, mods: bv32)
  {
    static const ZERO := CtrlReg2(0, 0, 0, 0, 0, 0, 0, 0, 0, 0)
    function Bits(): Generic { Generic(st, rst, unused, smods1, smods0, slpe, mods1, mods0) }
    function WithBits(g: Generic): (r: CtrlReg2)
      ensures r.Bits() == g
      ensures r.smods == smods && r.mods == mods
    {
      this.(st := g.bit7, rst := g.bit6, unused := g.bit5, smods1 := g.bit4,
            smods0 := g.bit3, slpe := g.bit2, mods1 := g.bit1, mods0 := g.bit0)
    }
  }

  /** mma8451_register_ctrl_reg4: the interrupt enable bits, no composite. */
  datatype CtrlReg4 = CtrlReg4(intEnAslp: bv8, intEnFifo: bv8, intEnTrans: bv8, intEnLndprt: bv8,
                               intEnPulse: bv8, intEnFfMt: bv8, unused: bv8, intEnDrdy: bv8)
  {
    static const ZERO := CtrlReg4(0, 0, 0, 0, 0, 0, 0, 0)
    function Bits(): Generic {
      Generic(intEnAslp, intEnFifo, intEnTrans, intEnLndprt, intEnPulse, intEnFfMt, unused, intEnDrdy)
    }
    function WithBits(g: Generic): (r: CtrlReg4)
      ensures r.Bits() == g
    {
      CtrlReg4(g.bit7, g.bit6, g.bit5, g.bit4, g.bit3, g.bit2, g.bit1, g.bit0)
    }
  }

  /** mma8451_register_ctrl_reg5: the interrupt pin routing bits, no composite. */
  datatype CtrlReg5 = CtrlReg5(intCfgAslp: bv8, intCfgFifo: bv8, intCfgTrans: bv8, intCfgLndprt: bv8,
                               intCfgPulse: bv8, intCfgFfMt: bv8, unused: bv8, intCfgDrdy: bv8)
  {
    static const ZERO := CtrlReg5(0, 0, 0, 0, 0, 0, 0, 0)
    function Bits(): Generic {
      Generic(intCfgAslp, intCfgFifo, intCfgTrans, intCfgLndprt, intCfgPulse, intCfgFfMt, unused, intCfgDrdy)
    }
    function WithBits(g: Generic): (r: CtrlReg5)
      ensures r.Bits() == g
    {
      CtrlReg5(g.bit7, g.bit6, g.bit5, g.bit4, g.bit3, g.bit2, g.bit1, g.bit0)
    }
  }
}
