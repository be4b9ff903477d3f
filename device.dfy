/**
 * The MMA8451 driver's handle and its operations (mma8451.c).
 *
 * The I2C bus and the chip behind it are an array of 0x32 register bytes; every bus
 * transaction may fail, which the model leaves open with an unconstrained success flag.
 * A failed write changes no register. The handle keeps the two pieces of session state the
 * decoder depends on, `range` and `dataSize`.
 */
module Driver {
  import opened Defs
  import opened Codec
  import opened Samples

  class Device {
    /** The chip's register file, indexed by register address. */
    const regs: array<bv8>
    /** device->range: the range the driver believes is configured. */
    var range: bv32
    /** device->data_size: the sample width the driver believes is configured. */
    var dataSize: bv32

    ghost predicate Valid() {
      regs.Length == REGISTER_COUNT
    }

    /** The zero-filled handle that calloc returns, attached to a chip. */
    constructor (chip: array<bv8>)
      requires chip.Length == REGISTER_COUNT
      ensures regs == chip && Valid()
      ensures range == 0 && dataSize == 0
    {
      regs := chip;
      range := 0;
      dataSize := 0;
    }

    // -------------------------------------------------------------------------------------
    // The bus

    /** mma8451_get_i2c_register: read one register. */
    method ReadI2C(reg: RegAddr) returns (ok: bool, value: bv8)
      requires Valid()
      ensures ok ==> value == regs[reg]
    {
      ok :| true;
      value := if ok then regs[reg] else 0;
    }

    /** mma8451_set_i2c_register: write one register. */
    method WriteI2C(reg: RegAddr, value: bv8) returns (ok: bool)
      requires Valid()
      modifies regs
      ensures regs[..] == if ok then old(regs[..])[reg := value] else old(regs[..])
    {
      ok :| true;
      if ok {
        regs[reg] := value;
      }
    }

    /** mma8451_get_i2c_register_block: read `count` registers in one transaction from `start` on. */
    method ReadBlockI2C(start: RegAddr, count: nat) returns (ok: bool, buf: seq<bv8>)
      requires Valid() && start + count <= REGISTER_COUNT
      ensures ok ==> buf == regs[start..start + count]
    {
      ok :| true;
      buf := if ok then regs[start..start + count] else [];
    }

    // -------------------------------------------------------------------------------------
    // The register codec

    /**
     * mma8451_get_register: read a register into the overlay (one 0/1 field per bit) and as a
     * byte. On failure the caller's overlay and byte are returned as they were.
     */
    method GetRegister(reg: RegAddr, data: Generic, byteData: bv8) returns (ok: bool, bits: Generic, byte: bv8)
      requires Valid()
      ensures ok ==> bits == Unpack(regs[reg]) && byte == regs[reg]
      ensures !ok ==> bits == data && byte == byteData
    {
      var value: bv8;
      ok, value := ReadI2C(reg);
      if !ok {
        return false, data, byteData;
      }
      bits := Generic(Flag(value & 0x80 > 0), Flag(value & 0x40 > 0), Flag(value & 0x20 > 0), Flag(value & 0x10 > 0),
                      Flag(value & 0x08 > 0), Flag(value & 0x04 > 0), Flag(value & 0x02 > 0), Flag(value & 0x01 > 0));
      byte := value;
    }

    /**
     * mma8451_set_register: write the lowest bit of each overlay field, bit7 first, or the
     * byte itself when no overlay is given.
     */
    method SetRegister(reg: RegAddr, data: Option<Generic>, byteData: bv8) returns (ok: bool)
      requires Valid()
      modifies regs
      ensures regs[..] == if ok then old(regs[..])[reg := if data.Some? then Pack(data.value) else byteData]
                          else old(regs[..])
    {
      var value: bv8 := 0;
      if data.Some? {
        var g := data.value;
        value := value + ((g.bit7 & 1) << 7);
        value := value + ((g.bit6 & 1) << 6);
        value := value + ((g.bit5 & 1) << 5);
        value := value + ((g.bit4 & 1) << 4);
        value := value + ((g.bit3 & 1) << 3);
        value := value + ((g.bit2 & 1) << 2);
        value := value + ((g.bit1 & 1) << 1);
        value := value + (g.bit0 & 1);
      } else {
        value := byteData;
      }
      ok := WriteI2C(reg, value);
    }

    // -------------------------------------------------------------------------------------
    // Per-register accessors

    /** mma8451_get_f_status */
    method GetFStatus(data: FStatus) returns (ok: bool, out: FStatus)
      requires Valid()
      ensures ok ==> out == DecodeFStatus(regs[F_STATUS])
      ensures !ok ==> out == data
    {
      var bits: Generic, byte: bv8;
      ok, bits, byte := GetRegister(F_STATUS, data.Bits(), 0);
      if !ok {
        return false, data;
      }
      out := data.WithBits(bits);
      out := out.(fCnt := 0);
      out := out.(fCnt := out.fCnt + (out.fCnt5 << 5));
      out := out.(fCnt := out.fCnt + (out.fCnt4 << 4));
      out := out.(fCnt := out.fCnt + (out.fCnt3 << 3));
      out := out.(fCnt := out.fCnt + (out.fCnt2 << 2));
      out := out.(fCnt := out.fCnt + (out.fCnt1 << 1));
      out := out.(fCnt := out.fCnt + out.fCnt0);
    }

    /** mma8451_get_f_setup */
    method GetFSetup(data: FSetup) returns (ok: bool, out: FSetup)
      requires Valid()
      ensures ok ==> out == DecodeFSetup(regs[F_SETUP])
      ensures !ok ==> out == data
    {
      var bits: Generic, byte: bv8;
      ok, bits, byte := GetRegister(F_SETUP, data.Bits(), 0);
      if !ok {
        return false, data;
      }
      out := data.WithBits(bits);
      out := out.(fMode := 0);
      out := out.(fMode := out.fMode + ((out.fMode1 as bv32) << 1));
      out := out.(fMode := out.fMode + (out.fMode0 as bv32));
      out := out.(fWmrk := 0);
      out := out.(fWmrk := out.fWmrk + (out.fWmrk5 << 5));
      out := out.(fWmrk := out.fWmrk + (out.fWmrk4 << 4));
      out := out.(fWmrk := out.fWmrk + (out.fWmrk3 << 3));
      out := out.(fWmrk := out.fWmrk + (out.fWmrk2 << 2));
      out := out.(fWmrk := out.fWmrk + (out.fWmrk1 << 1));
      out := out.(fWmrk := out.fWmrk + out.fWmrk0);
    }

    /**
     * mma8451_set_f_setup: the constituent bits are re-derived from f_mode and f_wmrk (so they
     * become the bits of the byte written) and the register is written.
     */
    method SetFSetup(data: FSetup) returns (ok: bool, out: FSetup)
      requires Valid()
      modifies regs
      ensures out == data.WithBits(Unpack(EncodeFSetup(data)))
      ensures regs[..] == if ok then old(regs[..])[F_SETUP := EncodeFSetup(data)] else old(regs[..])
    {
      out := data.(fMode1 := ((data.fMode >> 1) & 1) as bv8, fMode0 := (data.fMode & 1) as bv8);
      out := out.(fWmrk5 := (out.fWmrk >> 5) & 1, fWmrk4 := (out.fWmrk >> 4) & 1, fWmrk3 := (out.fWmrk >> 3) & 1,
                  fWmrk2 := (out.fWmrk >> 2) & 1, fWmrk1 := (out.fWmrk >> 1) & 1, fWmrk0 := out.fWmrk & 1);
      ok := SetRegister(F_SETUP, Some(out.Bits()), 0);
    }

    /** mma8451_get_sysmod */
    method GetSysmod(data: Sysmod) returns (ok: bool, out: Sysmod)
      requires Valid()
      ensures ok ==> out == DecodeSysmod(regs[SYSMOD])
      ensures !ok ==> out == data
    {
      var bits: Generic, byte: bv8;
      ok, bits, byte := GetRegister(SYSMOD, data.Bits(), 0);
      if !ok {
        return false, data;
      }
      out := data.WithBits(bits);
      out := out.(fgt := 0);
      out := out.(fgt := out.fgt + (out.fgt4 << 4));
      out := out.(fgt := out.fgt + (out.fgt3 << 3));
      out := out.(fgt := out.fgt + (out.fgt2 << 2));
      out := out.(fgt := out.fgt + (out.fgt1 << 1));
      out := out.(fgt := out.fgt + out.fgt0);
      out := out.(mode := 0);
      out := out.(mode := out.mode + ((out.sysmod1 as bv32) << 1));
      out := out.(mode := out.mode + (out.sysmod0 as bv32));
    }

    /** mma8451_get_whoami: the byte WHO_AM_I holds. */
    method GetWhoAmI(whoami: bv8) returns (ok: bool, out: bv8)
      requires Valid()
      ensures ok ==> out == regs[WHO_AM_I]
      ensures !ok ==> out == whoami
    {
      var bits: Generic;
      ok, bits, out := GetRegister(WHO_AM_I, Generic(0, 0, 0, 0, 0, 0, 0, 0), whoami);
    }

    /** mma8451_get_xyz_data_cfg */
    method GetXyzDataCfg(data: XyzDataCfg) returns (ok: bool, out: XyzDataCfg)
      requires Valid()
      ensures ok ==> out == DecodeXyzDataCfg(regs[XYZ_DATA_CFG])
      ensures !ok ==> out == data
    {
      var bits: Generic, byte: bv8;
      ok, bits, byte := GetRegister(XYZ_DATA_CFG, data.Bits(), 0);
      if !ok {
        return false, data;
      }
      out := data.WithBits(bits);
      out := out.(fs := 0);
      out := out.(fs := out.fs + ((out.fs1 as bv32) << 1));
      out := out.(fs := out.fs + (out.fs0 as bv32));
    }

    /**
     * mma8451_set_xyz_data_cfg: fs1..fs0 are re-derived from fs and the register is written;
     * only after a successful write does the handle's range become fs, unmasked.
     */
    method SetXyzDataCfg(data: XyzDataCfg) returns (ok: bool, out: XyzDataCfg)
      requires Valid()
      modifies this, regs
      ensures var b := Unpack(EncodeXyzDataCfg(data)); out == data.(fs1 := b.bit1, fs0 := b.bit0)
      ensures regs[..] == if ok then old(regs[..])[XYZ_DATA_CFG := EncodeXyzDataCfg(data)] else old(regs[..])
      ensures range == if ok then data.fs else old(range)
      ensures dataSize == old(dataSize)
    {
      out := data.(fs1 := ((data.fs >> 1) & 1) as bv8, fs0 := (data.fs & 1) as bv8);
      ok := SetRegister(XYZ_DATA_CFG, Some(out.Bits()), 0);
      if !ok {
        return;
      }
      range := out.fs;
    }

    /** mma8451_get_pl_cfg */
    method GetPlCfg(data: PlCfg) returns (ok: bool, out: PlCfg)
      requires Valid()
      ensures ok ==> out == DecodePlCfg(regs[PL_CFG])
      ensures !ok ==> out == data
    {
      var bits: Generic, byte: bv8;
      ok, bits, byte := GetRegister(PL_CFG, data.Bits(), 0);
      out := if ok then data.WithBits(bits) else data;
    }

    /** mma8451_set_pl_cfg */
    method SetPlCfg(data: PlCfg) returns (ok: bool)
      requires Valid()
      modifies regs
      ensures regs[..] == if ok then old(regs[..])[PL_CFG := EncodePlCfg(data)] else old(regs[..])
    {
      ok := SetRegister(PL_CFG, Some(data.Bits()), 0);
    }

    /** mma8451_get_pl_bf_zcomp */
    method GetPlBfZcomp(data: PlBfZcomp) returns (ok: bool, out: PlBfZcomp)
      requires Valid()
      ensures ok ==> out == DecodePlBfZcomp(regs[PL_BF_ZCOMP])
      ensures !ok ==> out == data
    {
      var bits: Generic, byte: bv8;
      ok, bits, byte := GetRegister(PL_BF_ZCOMP, data.Bits(), 0);
      if !ok {
        return false, data;
      }
      out := data.WithBits(bits);
      out := out.(bkfr := 0);
      out := out.(bkfr := out.bkfr + (out.bkfr1 << 1));
      out := out.(bkfr := out.bkfr + out.bkfr0);
      out := out.(zlock := 0);
      out := out.(zlock := out.zlock + (out.zlock2 << 2));
      out := out.(zlock := out.zlock + (out.zlock1 << 1));
      out := out.(zlock := out.zlock + out.zlock0);
    }

    /** mma8451_set_pl_bf_zcomp: bkfr1..0 and zlock2..0 are re-derived, then the register is written. */
    method SetPlBfZcomp(data: PlBfZcomp) returns (ok: bool, out: PlBfZcomp)
      requires Valid()
      modifies regs
      ensures var b := Unpack(EncodePlBfZcomp(data));
              out == data.(bkfr1 := b.bit7, bkfr0 := b.bit6, zlock2 := b.bit2, zlock1 := b.bit1, zlock0 := b.bit0)
      ensures regs[..] == if ok then old(regs[..])[PL_BF_ZCOMP := EncodePlBfZcomp(data)] else old(regs[..])
    {
      out := data.(bkfr1 := (data.bkfr >> 1) & 1, bkfr0 := data.bkfr & 1);
      out := out.(zlock2 := (out.zlock >> 2) & 1, zlock1 := (out.zlock >> 1) & 1, zlock0 := out.zlock & 1);
      ok := SetRegister(PL_BF_ZCOMP, Some(out.Bits()), 0);
    }

    /** mma8451_get_p_l_ths_reg */
    method GetPLThsReg(data: PLThsReg) returns (ok: bool, out: PLThsReg)
      requires Valid()
      ensures ok ==> out == DecodePLThsReg(regs[P_L_THS_REG])
      ensures !ok ==> out == data
    {
      var bits: Generic, byte: bv8;
      ok, bits, byte := GetRegister(P_L_THS_REG, data.Bits(), 0);
      if !ok {
        return false, data;
      }
      out := data.WithBits(bits);
      out := out.(plThs := 0);
      out := out.(plThs := out.plThs + (out.plThs4 << 4));
      out := out.(plThs := out.plThs + (out.plThs3 << 3));
      out := out.(plThs := out.plThs + (out.plThs2 << 2));
      out := out.(plThs := out.plThs + (out.plThs1 << 1));
      out := out.(plThs := out.plThs + out.plThs0);
      out := out.(hys := 0);
      out := out.(hys := out.hys + (out.hys2 << 2));
      out := out.(hys := out.hys + (out.hys1 << 1));
      out := out.(hys := out.hys + out.hys0);
    }

    /** mma8451_set_p_l_ths_reg: p_l_ths4..0 and hys2..0 are re-derived, then the register is written. */
    method SetPLThsReg(data: PLThsReg) returns (ok: bool, out: PLThsReg)
      requires Valid()
      modifies regs
      ensures out == data.WithBits(Unpack(EncodePLThsReg(data)))
      ensures regs[..] == if ok then old(regs[..])[P_L_THS_REG := EncodePLThsReg(data)] else old(regs[..])
    {
      out := data.(plThs4 := (data.plThs >> 4) & 1, plThs3 := (data.plThs >> 3) & 1, plThs2 := (data.plThs >> 2) & 1,
                   plThs1 := (data.plThs >> 1) & 1, plThs0 := data.plThs & 1);
      out := out.(hys2 := (out.hys >> 2) & 1, hys1 := (out.hys >> 1) & 1, hys0 := out.hys & 1);
      ok := SetRegister(P_L_THS_REG, Some(out.Bits()), 0);
    }

    /** The get_* function of a register laid out as mma8451_register_ff_mt_ths. */
    method GetMotionThs(reg: RegAddr, data: MotionThs) returns (ok: bool, out: MotionThs)
      requires Valid()
      requires IsMotionThsReg(reg)
      ensures ok ==> out == DecodeMotionThs(regs[reg])
      ensures !ok ==> out == data
    {
      var bits: Generic, byte: bv8;
      ok, bits, byte := GetRegister(reg, data.Bits(), 0);
      if !ok {
        return false, data;
      }
      out := data.WithBits(bits);
      out := out.(ths := 0);
      out := out.(ths := out.ths + (out.ths6 << 6));
      out := out.(ths := out.ths + (out.ths5 << 5));
      out := out.(ths := out.ths + (out.ths4 << 4));
      out := out.(ths := out.ths + (out.ths3 << 3));
      out := out.(ths := out.ths + (out.ths2 << 2));
      out := out.(ths := out.ths + (out.ths1 << 1));
      out := out.(ths := out.ths + out.ths0);
    }

    /** The set_* function of a register laid out as mma8451_register_ff_mt_ths. */
    method SetMotionThs(reg: RegAddr, data: MotionThs) returns (ok: bool, out: MotionThs)
      requires Valid()
      requires IsMotionThsReg(reg)
      modifies regs
      ensures var b := Unpack(EncodeMotionThs(data));
              out == data.(ths6 := b.bit6, ths5 := b.bit5, ths4 := b.bit4, ths3 := b.bit3, ths2 := b.bit2, ths1 := b.bit1, ths0 := b.bit0)
      ensures regs[..] == if ok then old(regs[..])[reg := EncodeMotionThs(data)] else old(regs[..])
    {
      out := data.(ths6 := (data.ths >> 6) & 1, ths5 := (data.ths >> 5) & 1, ths4 := (data.ths >> 4) & 1,
                   ths3 := (data.ths >> 3) & 1, ths2 := (data.ths >> 2) & 1, ths1 := (data.ths >> 1) & 1,
                   ths0 := data.ths & 1);
      ok := SetRegister(reg, Some(out.Bits()), 0);
    }

    /** mma8451_get_ff_mt_ths */
    method GetFfMtThs(data: MotionThs) returns (ok: bool, out: MotionThs)
      requires Valid()
      ensures ok ==> out == DecodeMotionThs(regs[FF_MT_THS])
      ensures !ok ==> out == data
    {
      ok, out := GetMotionThs(FF_MT_THS, data);
    }

    /** mma8451_set_ff_mt_ths */
    method SetFfMtThs(data: MotionThs) returns (ok: bool, out: MotionThs)
      requires Valid()
      modifies regs
      ensures var b := Unpack(EncodeMotionThs(data));
              out == data.(ths6 := b.bit6, ths5 := b.bit5, ths4 := b.bit4, ths3 := b.bit3, ths2 := b.bit2, ths1 := b.bit1, ths0 := b.bit0)
      ensures regs[..] == if ok then old(regs[..])[FF_MT_THS := EncodeMotionThs(data)] else old(regs[..])
    {
      ok, out := SetMotionThs(FF_MT_THS, data);
    }

    /** mma8451_get_transient_ths */
    method GetTransientThs(data: MotionThs) returns (ok: bool, out: MotionThs)
      requires Valid()
      ensures ok ==> out == DecodeMotionThs(regs[TRANSIENT_THS])
      ensures !ok ==> out == data
    {
      ok, out := GetMotionThs(TRANSIENT_THS, data);
    }

    /** mma8451_set_transient_ths */
    method SetTransientThs(data: MotionThs) returns (ok: bool, out: MotionThs)
      requires Valid()
      modifies regs
      ensures var b := Unpack(EncodeMotionThs(data));
              out == data.(ths6 := b.bit6, ths5 := b.bit5, ths4 := b.bit4, ths3 := b.bit3, ths2 := b.bit2, ths1 := b.bit1, ths0 := b.bit0)
      ensures regs[..] == if ok then old(regs[..])[TRANSIENT_THS := EncodeMotionThs(data)] else old(regs[..])
    {
      ok, out := SetMotionThs(TRANSIENT_THS, data);
    }

    /** The get_* function shared by the three pulse threshold registers. */
    method GetPulseThs(reg: RegAddr, data: PulseThs) returns (ok: bool, out: PulseThs)
      requires Valid()
      requires IsPulseThsReg(reg)
      ensures ok ==> out == DecodePulseThs(regs[reg])
      ensures !ok ==> out == data
    {
      var bits: Generic, byte: bv8;
      ok, bits, byte := GetRegister(reg, data.Bits(), 0);
      if !ok {
        return false, data;
      }
      out := data.WithBits(bits);
      out := out.(ths := 0);
      out := out.(ths := out.ths + (out.ths6 << 6));
      out := out.(ths := out.ths + (out.ths5 << 5));
      out := out.(ths := out.ths + (out.ths4 << 4));
      out := out.(ths := out.ths + (out.ths3 << 3));
      out := out.(ths := out.ths + (out.ths2 << 2));
      out := out.(ths := out.ths + (out.ths1 << 1));
      out := out.(ths := out.ths + out.ths0);
    }

    /** The set_* function shared by the three pulse threshold registers. */
    method SetPulseThs(reg: RegAddr, data: PulseThs) returns (ok: bool, out: PulseThs)
      requires Valid()
      requires IsPulseThsReg(reg)
      modifies regs
      ensures var b := Unpack(EncodePulseThs(data));
              out == data.(ths6 := b.bit6, ths5 := b.bit5, ths4 := b.bit4, ths3 := b.bit3, ths2 := b.bit2, ths1 := b.bit1, ths0 := b.bit0)
      ensures regs[..] == if ok then old(regs[..])[reg := EncodePulseThs(data)] else old(regs[..])
    {
      out := data.(ths6 := (data.ths >> 6) & 1, ths5 := (data.ths >> 5) & 1, ths4 := (data.ths >> 4) & 1,
                   ths3 := (data.ths >> 3) & 1, ths2 := (data.ths >> 2) & 1, ths1 := (data.ths >> 1) & 1,
                   ths0 := data.ths & 1);
      ok := SetRegister(reg, Some(out.Bits()), 0);
    }

    /** mma8451_get_pulse_thsx */
    method GetPulseThsX(data: PulseThs) returns (ok: bool, out: PulseThs)
      requires Valid()
      ensures ok ==> out == DecodePulseThs(regs[PULSE_THSX])
      ensures !ok ==> out == data
    {
      ok, out := GetPulseThs(PULSE_THSX, data);
    }

    /** mma8451_set_pulse_thsx */
    method SetPulseThsX(data: PulseThs) returns (ok: bool, out: PulseThs)
      requires Valid()
      modifies regs
      ensures var b := Unpack(EncodePulseThs(data));
              out == data.(ths6 := b.bit6, ths5 := b.bit5, ths4 := b.bit4, ths3 := b.bit3, ths2 := b.bit2, ths1 := b.bit1, ths0 := b.bit0)
      ensures regs[..] == if ok then old(regs[..])[PULSE_THSX := EncodePulseThs(data)] else old(regs[..])
    {
      ok, out := SetPulseThs(PULSE_THSX, data);
    }

    /** mma8451_get_pulse_thsy */
    method GetPulseThsY(data: PulseThs) returns (ok: bool, out: PulseThs)
      requires Valid()
      ensures ok ==> out == DecodePulseThs(regs[PULSE_THSY])
      ensures !ok ==> out == data
    {
      ok, out := GetPulseThs(PULSE_THSY, data);
    }

    /** mma8451_set_pulse_thsy */
    method SetPulseThsY(data: PulseThs) returns (ok: bool, out: PulseThs)
      requires Valid()
      modifies regs
      ensures var b := Unpack(EncodePulseThs(data));
              out == data.(ths6 := b.bit6, ths5 := b.bit5, ths4 := b.bit4, ths3 := b.bit3, ths2 := b.bit2, ths1 := b.bit1, ths0 := b.bit0)
      ensures regs[..] == if ok then old(regs[..])[PULSE_THSY := EncodePulseThs(data)] else old(regs[..])
    {
      ok, out := SetPulseThs(PULSE_THSY, data);
    }

    /** mma8451_get_pulse_thsz */
    method GetPulseThsZ(data: PulseThs) returns (ok: bool, out: PulseThs)
      requires Valid()
      ensures ok ==> out == DecodePulseThs(regs[PULSE_THSZ])
      ensures !ok ==> out == data
    {
      ok, out := GetPulseThs(PULSE_THSZ, data);
    }

    /** mma8451_set_pulse_thsz */
    method SetPulseThsZ(data: PulseThs) returns (ok: bool, out: PulseThs)
      requires Valid()
      modifies regs
      ensures var b := Unpack(EncodePulseThs(data));
              out == data.(ths6 := b.bit6, ths5 := b.bit5, ths4 := b.bit4, ths3 := b.bit3, ths2 := b.bit2, ths1 := b.bit1, ths0 := b.bit0)
      ensures regs[..] == if ok then old(regs[..])[PULSE_THSZ := EncodePulseThs(data)] else old(regs[..])
    {
      ok, out := SetPulseThs(PULSE_THSZ, data);
    }

    /** mma8451_get_ctrl_reg1 */
    method GetCtrlReg1(data: CtrlReg1) returns (ok: bool, out: CtrlReg1)
      requires Valid()
      ensures ok ==> out == DecodeCtrlReg1(regs[CTRL_REG1])
      ensures !ok ==> out == data
    {
      var bits: Generic, byte: bv8;
      ok, bits, byte := GetRegister(CTRL_REG1, data.Bits(), 0);
      if !ok {
        return false, data;
      }
      out := data.WithBits(bits);
      out := out.(aslpRate := 0);
      out := out.(aslpRate := out.aslpRate + ((out.aslpRate1 as bv32) << 1));
      out := out.(aslpRate := out.aslpRate + (out.aslpRate0 as bv32));
      out := out.(dr := 0);
      out := out.(dr := out.dr + ((out.dr2 as bv32) << 2));
      out := out.(dr := out.dr + ((out.dr1 as bv32) << 1));
      out := out.(dr := out.dr + (out.dr0 as bv32));
    }

    /**
     * mma8451_set_ctrl_reg1: aslp_rate1..0 and dr2..0 are re-derived and the register is
     * written; only after a successful write does the handle's data size become f_read, unmasked.
     */
    method SetCtrlReg1(data: CtrlReg1) returns (ok: bool, out: CtrlReg1)
      requires Valid()
      modifies this, regs
      ensures var b := Unpack(EncodeCtrlReg1(data));
              out == data.(aslpRate1 := b.bit7, aslpRate0 := b.bit6, dr2 := b.bit5, dr1 := b.bit4, dr0 := b.bit3)
      ensures regs[..] == if ok then old(regs[..])[CTRL_REG1 := EncodeCtrlReg1(data)] else old(regs[..])
      ensures dataSize == if ok then data.fRead as bv32 else old(dataSize)
      ensures range == old(range)
    {
      out := data.(aslpRate1 := ((data.aslpRate >> 1) & 1) as bv8, aslpRate0 := (data.aslpRate & 1) as bv8);
      out := out.(dr2 := ((out.dr >> 2) & 1) as bv8, dr1 := ((out.dr >> 1) & 1) as bv8, dr0 := (out.dr & 1) as bv8);
      ok := SetRegister(CTRL_REG1, Some(out.Bits()), 0);
      if !ok {
        return;
      }
      dataSize := out.fRead as bv32;
    }

    /** mma8451_get_ctrl_reg2 */
    method GetCtrlReg2(data: CtrlReg2) returns (ok: bool, out: CtrlReg2)
      requires Valid()
      ensures ok ==> out == DecodeCtrlReg2(regs[CTRL_REG2])
      ensures !ok ==> out == data
    {
      var bits: Generic, byte: bv8;
      ok, bits, byte := GetRegister(CTRL_REG2, data.Bits(), 0);
      if !ok {
        return false, data;
      }
      out := data.WithBits(bits);
      out := out.(smods := 0);
      out := out.(smods := out.smods + ((out.smods1 as bv32) << 1));
      out := out.(smods := out.smods + (out.smods0 as bv32));
      out := out.(mods := 0);
      out := out.(mods := out.mods + ((out.mods1 as bv32) << 1));
      out := out.(mods := out.mods + (out.mods0 as bv32));
    }

    /** mma8451_set_ctrl_reg2: smods1..0 and mods1..0 are re-derived, then the register is written. */
    method SetCtrlReg2(data: CtrlReg2) returns (ok: bool, out: CtrlReg2)
      requires Valid()
      modifies regs
      ensures var b := Unpack(EncodeCtrlReg2(data)); out == data.(smods1 := b.bit4, smods0 := b.bit3, mods1 := b.bit1, mods0 := b.bit0)
      ensures regs[..] == if ok then old(regs[..])[CTRL_REG2 := EncodeCtrlReg2(data)] else old(regs[..])
    {
      out := data.(smods1 := ((data.smods >> 1) & 1) as bv8, smods0 := (data.smods & 1) as bv8);
      out := out.(mods1 := ((out.mods >> 1) & 1) as bv8, mods0 := (out.mods & 1) as bv8);
      ok := SetRegister(CTRL_REG2, Some(out.Bits()), 0);
    }

    /** mma8451_get_ctrl_reg4 */
    method GetCtrlReg4(data: CtrlReg4) returns (ok: bool, out: CtrlReg4)
      requires Valid()
      ensures ok ==> out == DecodeCtrlReg4(regs[CTRL_REG4])
      ensures !ok ==> out == data
    {
      var bits: Generic, byte: bv8;
      ok, bits, byte := GetRegister(CTRL_REG4, data.Bits(), 0);
      out := if ok then data.WithBits(bits) else data;
    }

    /** mma8451_set_ctrl_reg4 */
    method SetCtrlReg4(data: CtrlReg4) returns (ok: bool)
      requires Valid()
      modifies regs
      ensures regs[..] == if ok then old(regs[..])[CTRL_REG4 := EncodeCtrlReg4(data)] else old(regs[..])
    {
      ok := SetRegister(CTRL_REG4, Some(data.Bits()), 0);
    }

    /** mma8451_get_ctrl_reg5 */
    method GetCtrlReg5(data: CtrlReg5) returns (ok: bool, out: CtrlReg5)
      requires Valid()
      ensures ok ==> out == DecodeCtrlReg5(regs[CTRL_REG5])
      ensures !ok ==> out == data
    {
      var bits: Generic, byte: bv8;
      ok, bits, byte := GetRegister(CTRL_REG5, data.Bits(), 0);
      out := if ok then data.WithBits(bits) else data;
    }

    /** mma8451_set_ctrl_reg5 */
    method SetCtrlReg5(data: CtrlReg5) returns (ok: bool)
      requires Valid()
      modifies regs
      ensures regs[..] == if ok then old(regs[..])[CTRL_REG5 := EncodeCtrlReg5(data)] else old(regs[..])
    {
      ok := SetRegister(CTRL_REG5, Some(data.Bits()), 0);
    }

    // -------------------------------------------------------------------------------------
    // Read-modify-write setters: each reads one register, changes one field and writes it
    // back, and stops at the first failed transaction.

    /** mma8451_set_range: fs becomes the range; the handle keeps the range unmasked. */
    method SetRange(scale: bv32) returns (ok: bool)
      requires Valid()
      modifies this, regs
      ensures regs[..] == if ok then old(regs[..])[XYZ_DATA_CFG := RangeUpdate(old(regs[XYZ_DATA_CFG]), scale)]
                          else old(regs[..])
      ensures range == if ok then scale else old(range)
      ensures dataSize == old(dataSize)
    {
      var cfg: XyzDataCfg;
      ok, cfg := GetXyzDataCfg(XyzDataCfg.ZERO);
      if !ok {
        return;
      }
      cfg := cfg.(fs := scale);
      ok, cfg := SetXyzDataCfg(cfg);
    }

    /** mma8451_set_power_mode: mods becomes the mode. */
    method SetPowerMode(mode: bv32) returns (ok: bool)
      requires Valid()
      modifies regs
      ensures regs[..] == if ok then old(regs[..])[CTRL_REG2 := PowerModeUpdate(old(regs[CTRL_REG2]), mode)]
                          else old(regs[..])
    {
      var cfg: CtrlReg2;
      ok, cfg := GetCtrlReg2(CtrlReg2.ZERO);
      if !ok {
        return;
      }
      cfg := cfg.(mods := mode);
      ok, cfg := SetCtrlReg2(cfg);
    }

    /**
     * mma8451_set_output_size: f_read becomes the size narrowed to an unsigned char, and so
     * does the handle's data size, of which only the lowest bit reaches the chip.
     */
    method SetOutputSize(size: bv32) returns (ok: bool)
      requires Valid()
      modifies this, regs
      ensures regs[..] == if ok then old(regs[..])[CTRL_REG1 := OutputSizeUpdate(old(regs[CTRL_REG1]), size)]
                          else old(regs[..])
      ensures dataSize == if ok then size & 0xFF else old(dataSize)
      ensures range == old(range)
    {
      var cfg: CtrlReg1;
      ok, cfg := GetCtrlReg1(CtrlReg1.ZERO);
      if !ok {
        return;
      }
      cfg := cfg.(fRead := (size & 0xFF) as bv8);
      ok, cfg := SetCtrlReg1(cfg);
    }

    /**
     * mma8451_set_data_rate: dr becomes the rate. Because it goes through
     * mma8451_set_ctrl_reg1, the handle's data size is refreshed from the chip's f_read bit.
     */
    method SetDataRate(rate: bv32) returns (ok: bool)
      requires Valid()
      modifies this, regs
      ensures regs[..] == if ok then old(regs[..])[CTRL_REG1 := DataRateUpdate(old(regs[CTRL_REG1]), rate)]
                          else old(regs[..])
      ensures dataSize == if ok then ((old(regs[CTRL_REG1]) >> 1) & 1) as bv32 else old(dataSize)
      ensures range == old(range)
    {
      var cfg: CtrlReg1;
      ok, cfg := GetCtrlReg1(CtrlReg1.ZERO);
      if !ok {
        return;
      }
      cfg := cfg.(dr := rate);
      ok, cfg := SetCtrlReg1(cfg);
    }

    /** mma8451_set_low_noise: lnoise is set exactly when the argument is non-zero; data size as for SetDataRate. */
    method SetLowNoise(lowNoise: bv8) returns (ok: bool)
      requires Valid()
      modifies this, regs
      ensures regs[..] == if ok then old(regs[..])[CTRL_REG1 := LowNoiseUpdate(old(regs[CTRL_REG1]), lowNoise)]
                          else old(regs[..])
      ensures dataSize == if ok then ((old(regs[CTRL_REG1]) >> 1) & 1) as bv32 else old(dataSize)
      ensures range == old(range)
    {
      var cfg: CtrlReg1;
      ok, cfg := GetCtrlReg1(CtrlReg1.ZERO);
      if !ok {
        return;
      }
      cfg := cfg.(lnoise := Flag(lowNoise > 0));
      ok, cfg := SetCtrlReg1(cfg);
    }

    /** mma8451_set_orientation_detection: pl_en is set exactly when the argument is non-zero. */
    method SetOrientationDetection(orientation: bv8) returns (ok: bool)
      requires Valid()
      modifies regs
      ensures regs[..] == if ok then old(regs[..])[PL_CFG := OrientationUpdate(old(regs[PL_CFG]), orientation)]
                          else old(regs[..])
    {
      var cfg: PlCfg;
      ok, cfg := GetPlCfg(PlCfg.ZERO);
      if !ok {
        return;
      }
      cfg := cfg.(plEn := Flag(orientation > 0));
      ok := SetPlCfg(cfg);
    }

    /** mma8451_set_interrupt_enable: int_en_drdy is set exactly when the argument is non-zero. */
    method SetInterruptEnable(enable: bv8) returns (ok: bool)
      requires Valid()
      modifies regs
      ensures regs[..] == if ok then old(regs[..])[CTRL_REG4 := InterruptEnableUpdate(old(regs[CTRL_REG4]), enable)]
                          else old(regs[..])
    {
      var cfg: CtrlReg4;
      ok, cfg := GetCtrlReg4(CtrlReg4.ZERO);
      if !ok {
        return;
      }
      cfg := cfg.(intEnDrdy := Flag(enable > 0));
      ok := SetCtrlReg4(cfg);
    }

    /** mma8451_set_interrupt_pin1: int_cfg_drdy is set exactly when the argument is non-zero. */
    method SetInterruptPin1(pin1: bv8) returns (ok: bool)
      requires Valid()
      modifies regs
      ensures regs[..] == if ok then old(regs[..])[CTRL_REG5 := InterruptPin1Update(old(regs[CTRL_REG5]), pin1)]
                          else old(regs[..])
    {
      var cfg: CtrlReg5;
      ok, cfg := GetCtrlReg5(CtrlReg5.ZERO);
      if !ok {
        return;
      }
      cfg := cfg.(intCfgDrdy := Flag(pin1 > 0));
      ok := SetCtrlReg5(cfg);
    }

    /** mma8451_set_active: active is set exactly when the argument is non-zero; data size as for SetDataRate. */
    method SetActive(active: bv8) returns (ok: bool)
      requires Valid()
      modifies this, regs
      ensures regs[..] == if ok then old(regs[..])[CTRL_REG1 := ActiveUpdate(old(regs[CTRL_REG1]), active)]
                          else old(regs[..])
      ensures dataSize == if ok then ((old(regs[CTRL_REG1]) >> 1) & 1) as bv32 else old(dataSize)
      ensures range == old(range)
    {
      var cfg: CtrlReg1;
      ok, cfg := GetCtrlReg1(CtrlReg1.ZERO);
      if !ok {
        return;
      }
      cfg := cfg.(active := Flag(active > 0));
      ok, cfg := SetCtrlReg1(cfg);
    }

    // -------------------------------------------------------------------------------------
    // Lifecycle

    /**
     * mma8451_reset: sets rst in CTRL_REG2, keeping its other bits, and only if that write
     * succeeds puts the handle back to 2G and 14-bit samples.
     */
    method Reset() returns (ok: bool)
      requires Valid()
      modifies this, regs
      ensures regs[..] == if ok then old(regs[..])[CTRL_REG2 := ResetUpdate(old(regs[CTRL_REG2]))]
                          else old(regs[..])
      ensures range == if ok then RANGE_2G else old(range)
      ensures dataSize == if ok then OUTPUT_14BIT else old(dataSize)
    {
      var cfg: CtrlReg2;
      ok, cfg := GetCtrlReg2(CtrlReg2.ZERO);
      if !ok {
        return;
      }
      cfg := cfg.(rst := 1);
      ok, cfg := SetCtrlReg2(cfg);
      if !ok {
        return;
      }
      range := RANGE_2G;
      dataSize := OUTPUT_14BIT;
    }

    /**
     * mma8451_open: a handle exists only when the device file opens (left open here), the
     * WHO_AM_I read succeeds and it returns MMA8451_ID; the handle then starts at 2G, 14-bit.
     */
    static method Open(chip: array<bv8>) returns (dev: Device?)
      requires chip.Length == REGISTER_COUNT
      ensures dev != null ==> fresh(dev) && dev.regs == chip && dev.Valid()
      ensures dev != null ==> dev.range == RANGE_2G && dev.dataSize == OUTPUT_14BIT
      ensures chip[WHO_AM_I] != MMA8451_ID ==> dev == null
    {
      var fileOpened: bool :| true;
      if !fileOpened {
        return null;
      }
      var d := new Device(chip);
      var ok, whoami := d.GetWhoAmI(0);
      if !ok {
        return null;
      }
      if whoami != MMA8451_ID {
        return null;
      }
      d.range := RANGE_2G;
      d.dataSize := OUTPUT_14BIT;
      return d;
    }

    // -------------------------------------------------------------------------------------
    // Samples

    /**
     * mma8451_get_acceleration: when the handle's data size is OUTPUT_14BIT, six bytes from
     * OUT_X_MSB decode as three 14-bit samples, otherwise three bytes as three 8-bit samples;
     * each is scaled by the divisor the handle's range selects. On a failed read the caller's
     * reading is returned as it was.
     */
    method GetAcceleration(data: Acceleration) returns (ok: bool, out: Acceleration)
      requires Valid()
      ensures !ok ==> out == data
      ensures ok && dataSize == OUTPUT_14BIT ==>
                out == Decode14(regs[OUT_X_MSB..OUT_X_MSB + 6], range, dataSize)
      ensures ok && dataSize != OUTPUT_14BIT ==>
                out == Decode8(regs[OUT_X_MSB..OUT_X_MSB + 3], range, dataSize)
    {
      if dataSize == OUTPUT_14BIT {
        ok, out := GetAcceleration14(data);
      } else {
        ok, out := GetAcceleration8(data);
      }
    }

    /** The 14-bit branch of mma8451_get_acceleration: read and sign-extend three samples. */
    method GetAcceleration14(data: Acceleration) returns (ok: bool, out: Acceleration)
      requires Valid() && dataSize == OUTPUT_14BIT
      ensures !ok ==> out == data
      ensures ok ==> out == Decode14(regs[OUT_X_MSB..OUT_X_MSB + 6], range, dataSize)
    {
      var tmp: seq<bv8>;
      ok, tmp := ReadBlockI2C(OUT_X_MSB, 6);
      if !ok {
        return false, data;
      }
      var x, y, z := Raw14(tmp[0], tmp[1]), Raw14(tmp[2], tmp[3]), Raw14(tmp[4], tmp[5]);
      x := x - if x > MAX_14BIT_VALUE then MAX_14BIT_SIGNED else 0;
      y := y - if y > MAX_14BIT_VALUE then MAX_14BIT_SIGNED else 0;
      z := z - if z > MAX_14BIT_VALUE then MAX_14BIT_SIGNED else 0;
      assert x == Count14(tmp[0], tmp[1]) && y == Count14(tmp[2], tmp[3]) && z == Count14(tmp[4], tmp[5]);
      out := Scale14(x, y, z);
    }

    /** The 8-bit branch of mma8451_get_acceleration: read and sign-convert three samples. */
    method GetAcceleration8(data: Acceleration) returns (ok: bool, out: Acceleration)
      requires Valid() && dataSize != OUTPUT_14BIT
      ensures !ok ==> out == data
      ensures ok ==> out == Decode8(regs[OUT_X_MSB..OUT_X_MSB + 3], range, dataSize)
    {
      var tmp: seq<bv8>;
      ok, tmp := ReadBlockI2C(OUT_X_MSB, 3);
      if !ok {
        return false, data;
      }
      var x, y, z := Raw8(tmp[0]), Raw8(tmp[1]), Raw8(tmp[2]);
      x := x - if x > MAX_8BIT_VALUE then MAX_8BIT_SIGNED else 0;
      y := y - if y > MAX_8BIT_VALUE then MAX_8BIT_SIGNED else 0;
      z := z - if z > MAX_8BIT_VALUE then MAX_8BIT_SIGNED else 0;
      Count8OfRaw(tmp[0]);
      Count8OfRaw(tmp[1]);
      Count8OfRaw(tmp[2]);
      out := Scale8(x, y, z);
    }

    /** The division step of mma8451_get_acceleration for 14-bit samples. */
    method Scale14(x: int, y: int, z: int) returns (out: Acceleration)
      requires dataSize == OUTPUT_14BIT
      ensures out == Reading(x, y, z, range, dataSize)
    {
      out := Acceleration(x as real, y as real, z as real);
      if range == RANGE_2G {
        out := Acceleration(out.x / RANGE_DIV_2G_14BIT, out.y / RANGE_DIV_2G_14BIT, out.z / RANGE_DIV_2G_14BIT);
      } else if range == RANGE_4G {
        out := Acceleration(out.x / RANGE_DIV_4G_14BIT, out.y / RANGE_DIV_4G_14BIT, out.z / RANGE_DIV_4G_14BIT);
      } else if range == RANGE_8G {
        out := Acceleration(out.x / RANGE_DIV_8G_14BIT, out.y / RANGE_DIV_8G_14BIT, out.z / RANGE_DIV_8G_14BIT);
      }
    }

    /** The division step of mma8451_get_acceleration for 8-bit samples. */
    method Scale8(x: int, y: int, z: int) returns (out: Acceleration)
      requires dataSize != OUTPUT_14BIT
      ensures out == Reading(x, y, z, range, dataSize)
    {
      out := Acceleration(x as real, y as real, z as real);
      if range == RANGE_2G {
        out := Acceleration(out.x / RANGE_DIV_2G_8BIT, out.y / RANGE_DIV_2G_8BIT, out.z / RANGE_DIV_2G_8BIT);
      } else if range == RANGE_4G {
        out := Acceleration(out.x / RANGE_DIV_4G_8BIT, out.y / RANGE_DIV_4G_8BIT, out.z / RANGE_DIV_4G_8BIT);
      } else if range == RANGE_8G {
        out := Acceleration(out.x / RANGE_DIV_8G_8BIT, out.y / RANGE_DIV_8G_8BIT, out.z / RANGE_DIV_8G_8BIT);
      }
    }
  }
}
