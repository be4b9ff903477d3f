# MMA8451 accelerometer driver — a Dafny model

This project models the user-space driver for the NXP MMA8451 three-axis accelerometer
(`mma8451.c`, `mma8451.h`). The driver talks to the chip over I2C. Most configuration and
status registers have a C struct of one-byte bit fields, overlaid on a generic eight-field
struct (`mma8451_register_generic`, bit7 first). The identity, sample, count and offset
registers are plain bytes. Several registers also carry composite fields, such
as the range `fs`, the data rate `dr` or the FIFO watermark `f_wmrk`. A `get_*` function
assembles a composite from its bit fields. A `set_*` function splits it back before writing.

The model has five modules:

- `Defs` (`defs.dfy`) holds the chip's constants:
  - the identity byte, the register addresses and the enumerations;
  - the generic overlay and one datatype per register struct.
  - `Bits()` / `WithBits(g)` model casting a register struct to the generic overlay.
- `Fields` (`fields.dfy`) says what a composite field is:
  - `Weight` is the number a list of one-bit fields spells, the way a `get_*` function adds them up;
  - `Digits` is the split a `set_*` function makes;
  - two inductive lemmas prove them inverse.
- `Codec` (`codec.dfy`) holds the register codec:
  - `Unpack` / `Pack` are the byte-to-overlay conversion of `mma8451_get_register` and `mma8451_set_register`;
  - one `Decode…` per register gives what its `get_*` leaves in the caller's struct;
  - one `Encode…` gives the byte its `set_*` writes;
  - the `…Update` functions give the byte that each read-modify-write setter writes back.
- `Samples` (`samples.dfy`) holds the arithmetic of `mma8451_get_acceleration`:
  - reassembling 14-bit samples from their MSB/LSB pair, and 8-bit samples from one byte;
  - the driver's sign correction;
  - the range divisors, turning counts into an acceleration in m/s².
- `Driver` (`device.dfy`) has the handle: class `Device`.
  - The chip's register file is an `array<bv8>` of 0x32 bytes.
  - The session state is `range` and `dataSize`.
  - Every bus transaction may fail, and the model leaves that open.
  - A failed read hands back the caller's struct unchanged.
  - A failed write changes no register and no session state.
  - Each driver function is a method proved equal to the codec function it uses.

The driver converts 8-bit samples by subtracting `MAX_8BIT_SIGNED` (0xFF) from bytes above
0x7F. The model keeps this as written. As a result 0xFF and 0x00 both read as 0, no byte reads
as -128, and every negative byte reads one count above its two's-complement value. The lemmas
`Count8AgainstTwosComplement`, `Count8Collisions`, `Count8Injective` and `FullScale8` pin this
down.

The header calls `GRAVITY_ACCEL` "acceleration due to gravity" (mma8451.h:25-28), each
`RANGE_DIV_*` "the divider for gravity" (mma8451.h:29-52), and each axis of
`mma8451_acceleration` "the acceleration due to gravity" (mma8451.h:1259-1267). None of these
names a unit. The divisor names suggest results in g. The code divides by `RANGE_DIV_*`, which
is counts per g divided by 9.80665. That gives a count times 9.80665 over counts per g, which
is metres per second squared. The model follows the code (`ScaledIsAcceleration`,
`FullScale14`).

## Model

| member | source | states |
|---|---|---|
| Defs.SampleRegisterLayout | mma8451.h:77-85 | STATUS and F_STATUS share address 0; the six output registers are consecutive from OUT_X_MSB in X, Y, Z and MSB-then-LSB order, inside the register file |
| Defs.FStatus.WithBits | mma8451.h:346-387 | overlaying a generic struct sets the eight bit fields of f_status from bit7 down and leaves f_cnt as it was |
| Defs.FSetup.WithBits | mma8451.h:392-434 | the overlay sets f_mode1..f_wmrk0 and leaves the composites f_mode and f_wmrk untouched |
| Defs.Sysmod.WithBits | mma8451.h:477-520 | the overlay sets fgerr..sysmod0 and leaves fgt and mode untouched |
| Defs.XyzDataCfg.WithBits | mma8451.h:563-600 | the overlay sets the eight bit fields and leaves fs untouched |
| Defs.PlCfg.WithBits | mma8451.h:681-716 | the overlay sets all eight bit fields of pl_cfg |
| Defs.PlBfZcomp.WithBits | mma8451.h:721-762 | the overlay sets the bit fields and leaves bkfr and zlock untouched |
| Defs.PLThsReg.WithBits | mma8451.h:767-810 | the overlay sets the bit fields and leaves pl_ths and hys untouched |
| Defs.MotionThs.WithBits | mma8451.h:891-930 | the overlay sets dbcntm and ths6..ths0 and leaves ths untouched (shared by ff_mt_ths and transient_ths) |
| Defs.PulseThs.WithBits | mma8451.h:1054-1067 | the overlay sets the bit fields and leaves ths untouched |
| Defs.CtrlReg1.WithBits | mma8451.h:1072-1113 | the overlay sets the bit fields and leaves aslp_rate and dr untouched |
| Defs.CtrlReg2.WithBits | mma8451.h:1118-1159 | the overlay sets the bit fields and leaves smods and mods untouched |
| Defs.CtrlReg4.WithBits | mma8451.h:1202-1235 | the overlay sets all eight interrupt-enable bits |
| Defs.CtrlReg5.WithBits | mma8451.h:1240-1252 | the overlay sets all eight interrupt-routing bits |
| Defs.FStatus.Bits | mma8451.h:346-387 | the cast of the struct to the generic overlay (mma8451.h:1276-1309): f_ovf, f_wmrk_flag, f_cnt5..f_cnt0 as bit7..bit0; no contract of its own, WithBits proves `WithBits(g).Bits() == g` |
| Defs.FSetup.Bits | mma8451.h:392-434 | the cast of the struct to the generic overlay (mma8451.h:1276-1309): f_mode1, f_mode0, f_wmrk5..f_wmrk0 as bit7..bit0; no contract of its own, WithBits proves `WithBits(g).Bits() == g` |
| Defs.Sysmod.Bits | mma8451.h:477-520 | the cast of the struct to the generic overlay (mma8451.h:1276-1309): fgerr, fgt_4..fgt_0, sysmod1, sysmod0 as bit7..bit0; no contract of its own, WithBits proves `WithBits(g).Bits() == g` |
| Defs.XyzDataCfg.Bits | mma8451.h:563-600 | the cast of the struct to the generic overlay (mma8451.h:1276-1309): the three unused bits, hpf_out, two unused bits, fs1, fs0 as bit7..bit0; no contract of its own, WithBits proves `WithBits(g).Bits() == g` |
| Defs.PlCfg.Bits | mma8451.h:681-716 | the cast of the struct to the generic overlay (mma8451.h:1276-1309): dbcntm, pl_en and the six unused bits as bit7..bit0; no contract of its own, WithBits proves `WithBits(g).Bits() == g` |
| Defs.PlBfZcomp.Bits | mma8451.h:721-762 | the cast of the struct to the generic overlay (mma8451.h:1276-1309): bkfr1, bkfr0, three unused bits, zlock2..zlock0 as bit7..bit0; no contract of its own, WithBits proves `WithBits(g).Bits() == g` |
| Defs.PLThsReg.Bits | mma8451.h:767-810 | the cast of the struct to the generic overlay (mma8451.h:1276-1309): pl_ths4..pl_ths0, hys2..hys0 as bit7..bit0; no contract of its own, WithBits proves `WithBits(g).Bits() == g` |
| Defs.MotionThs.Bits | mma8451.h:891-930 | the cast of the struct to the generic overlay (mma8451.h:1276-1309): dbcntm, ths6..ths0 as bit7..bit0; no contract of its own, WithBits proves `WithBits(g).Bits() == g` |
| Defs.PulseThs.Bits | mma8451.h:1054-1067 | the cast of the struct to the generic overlay (mma8451.h:1276-1309): the unused bit, ths6..ths0 as bit7..bit0; no contract of its own, WithBits proves `WithBits(g).Bits() == g` |
| Defs.CtrlReg1.Bits | mma8451.h:1072-1113 | the cast of the struct to the generic overlay (mma8451.h:1276-1309): aslp_rate1, aslp_rate0, dr2..dr0, lnoise, f_read, active as bit7..bit0; no contract of its own, WithBits proves `WithBits(g).Bits() == g` |
| Defs.CtrlReg2.Bits | mma8451.h:1118-1159 | the cast of the struct to the generic overlay (mma8451.h:1276-1309): st, rst, the unused bit, smods1, smods0, slpe, mods1, mods0 as bit7..bit0; no contract of its own, WithBits proves `WithBits(g).Bits() == g` |
| Defs.CtrlReg4.Bits | mma8451.h:1202-1235 | the cast of the struct to the generic overlay (mma8451.h:1276-1309): the eight interrupt-enable bits as bit7..bit0; no contract of its own, WithBits proves `WithBits(g).Bits() == g` |
| Defs.CtrlReg5.Bits | mma8451.h:1240-1252 | the cast of the struct to the generic overlay (mma8451.h:1276-1309): the eight interrupt-routing bits as bit7..bit0; no contract of its own, WithBits proves `WithBits(g).Bits() == g` |
| Codec.Unpack | mma8451.c:887-910 | the overlay read from a byte holds only 0 and 1, and each field is 1 exactly when its bit of the byte is set |
| Codec.Pack | mma8451.c:912-933 | the byte written from an overlay unpacks to the overlay cut down to the lowest bit of each field |
| Codec.PackUnpack | mma8451.c:887-933 | writing back the overlay just read writes the same byte |
| Codec.PackMasked | mma8451.c:912-933 | only the lowest bit of each field reaches the byte, and a 0/1 overlay survives a write and a read |
| Codec.DecodeFStatus | mma8451.c:283-295 | the bit fields re-pack to the register byte and f_cnt is at most 0x3F |
| Codec.DecodeFSetup | mma8451.c:296-313 | the decoded struct encodes back to the byte read |
| Codec.EncodeFSetup | mma8451.c:314-329 | the byte set_* writes; no contract of its own: FSetupMasking and FSetupSplit: the byte read back keeps f_mode mod 4 and f_wmrk mod 64, and its bits are their binary digits; DecodeFSetup is its inverse on bytes |
| Codec.FSetupMasking | mma8451.c:296-329 | writing then reading F_SETUP keeps f_mode modulo 4 and f_wmrk modulo 64 |
| Codec.DecodeSysmod | mma8451.c:342-358 | the bit fields re-pack to the byte, fgt is at most 0x1F and mode at most 3 |
| Codec.DecodeXyzDataCfg | mma8451.c:371-380 | the decoded struct encodes back to the byte read |
| Codec.EncodeXyzDataCfg | mma8451.c:381-392 | the byte set_* writes; no contract of its own: XyzDataCfgMasking and XyzDataCfgSplit: fs mod 4 as binary digits in bits 1..0, hpf_out's lowest bit in bit 4 |
| Codec.XyzDataCfgMasking | mma8451.c:371-392 | writing then reading XYZ_DATA_CFG keeps fs modulo 4 and hpf_out's lowest bit |
| Codec.DecodePlBfZcomp | mma8451.c:435-449 | the decoded struct encodes back to the byte read |
| Codec.EncodePlBfZcomp | mma8451.c:450-462 | the byte set_* writes; no contract of its own: PlBfZcompMasking and PlBfZcompSplit: bkfr mod 4 in bits 7..6 and zlock mod 8 in bits 2..0, as binary digits |
| Codec.PlBfZcompMasking | mma8451.c:435-462 | writing then reading keeps bkfr modulo 4 and zlock modulo 8 |
| Codec.DecodePLThsReg | mma8451.c:463-479 | the decoded struct encodes back to the byte read |
| Codec.EncodePLThsReg | mma8451.c:480-495 | the byte set_* writes; no contract of its own: PLThsRegMasking and PLThsRegSplit: pl_ths mod 32 in bits 7..3 and hys mod 8 in bits 2..0, as binary digits |
| Codec.PLThsRegMasking | mma8451.c:463-495 | writing then reading keeps pl_ths modulo 32 and hys modulo 8 |
| Codec.DecodeMotionThs | mma8451.c:496-510 | the decoded struct encodes back to the byte read (FF_MT_THS and TRANSIENT_THS) |
| Codec.EncodeMotionThs | mma8451.c:511-524 | the byte set_* writes; no contract of its own: MotionThsMasking and MotionThsSplit: ths mod 128 in bits 6..0 as binary digits, dbcntm's lowest bit in bit 7 |
| Codec.MotionThsMasking | mma8451.c:496-524 | writing then reading keeps ths modulo 128 and dbcntm's lowest bit |
| Codec.DecodePulseThs | mma8451.c:631-644 | the decoded struct encodes back to the byte read (PULSE_THSX/Y/Z) |
| Codec.EncodePulseThs | mma8451.c:645-657 | the byte set_* writes; no contract of its own: PulseThsMasking and PulseThsSplit: ths mod 128 in bits 6..0 as binary digits, the unused bit's lowest bit in bit 7 |
| Codec.PulseThsMasking | mma8451.c:631-657 | writing then reading keeps ths modulo 128 and the unused bit's lowest bit |
| Codec.DecodeCtrlReg1 | mma8451.c:760-773 | the decoded struct encodes back to the byte read |
| Codec.EncodeCtrlReg1 | mma8451.c:774-788 | the byte set_* writes; no contract of its own: CtrlReg1Masking and CtrlReg1Split: aslp_rate mod 4 and dr mod 8 as binary digits, and the lowest bits of lnoise, f_read and active |
| Codec.CtrlReg1Masking | mma8451.c:760-788 | writing then reading keeps aslp_rate modulo 4, dr modulo 8 and the lowest bit of lnoise, f_read and active |
| Codec.DecodeCtrlReg2 | mma8451.c:789-802 | the decoded struct encodes back to the byte read |
| Codec.EncodeCtrlReg2 | mma8451.c:803-813 | the byte set_* writes; no contract of its own: CtrlReg2Masking and CtrlReg2Split: smods mod 4 and mods mod 4 as binary digits, and rst's lowest bit in bit 6 |
| Codec.CtrlReg2Masking | mma8451.c:789-813 | writing then reading keeps smods and mods modulo 4 and rst's lowest bit |
| Codec.DecodePlCfg | mma8451.c:411-422 | the decoded struct encodes back to the byte read |
| Codec.EncodePlCfg | mma8451.c:417-422 | the byte set_* writes; no contract of its own: Pack of the overlay; DecodePlCfg's contract makes it the inverse of the read, and PackMasked says only each field's lowest bit is written |
| Codec.DecodeCtrlReg4 | mma8451.c:826-837 | the decoded struct encodes back to the byte read |
| Codec.EncodeCtrlReg4 | mma8451.c:832-837 | the byte set_* writes; no contract of its own: Pack of the overlay; DecodeCtrlReg4's contract makes it the inverse of the read, and PackMasked says only each field's lowest bit is written |
| Codec.DecodeCtrlReg5 | mma8451.c:838-849 | the decoded struct encodes back to the byte read |
| Codec.EncodeCtrlReg5 | mma8451.c:844-849 | the byte set_* writes; no contract of its own: Pack of the overlay; DecodeCtrlReg5's contract makes it the inverse of the read, and PackMasked says only each field's lowest bit is written |
| Fields.Weight | mma8451.c:287-293 | the number assembled from n one-bit fields, most significant first, is below 2^n |
| Fields.Digits | mma8451.c:315-323 | splitting a composite into k fields gives exactly k fields, each 0 or 1 |
| Fields.WeightOfDigits | mma8451.c:296-329 | a composite that fits in k bits, split by a set_* function and reassembled by its get_* function, comes back unchanged |
| Fields.DigitsOfWeight | mma8451.c:296-329 | 0/1 fields assembled into a composite and split again come back unchanged |
| Codec.UnpackedDigits | mma8451.c:895-902 | each overlay field read from a byte holds that bit of the byte |
| Codec.FStatusComposites | mma8451.c:283-295 | the decoded f_cnt is the number f_cnt5..f_cnt0 spell |
| Codec.FSetupComposites | mma8451.c:296-313 | the decoded f_mode and f_wmrk are the numbers their bit fields spell |
| Codec.FSetupSplit | mma8451.c:314-329 | the bits set_f_setup writes are the binary digits of f_mode mod 4 and f_wmrk mod 64 |
| Codec.SysmodComposites | mma8451.c:342-358 | the decoded fgt and mode are the numbers fgt_4..fgt_0 and sysmod1..sysmod0 spell |
| Codec.XyzDataCfgComposites | mma8451.c:371-380 | the decoded fs is the number fs1..fs0 spell |
| Codec.XyzDataCfgSplit | mma8451.c:381-392 | the bits set_xyz_data_cfg writes are the binary digits of fs mod 4 |
| Codec.PlBfZcompComposites | mma8451.c:435-449 | the decoded bkfr and zlock are the numbers their bit fields spell |
| Codec.PlBfZcompSplit | mma8451.c:450-462 | the bits set_pl_bf_zcomp writes are the binary digits of bkfr mod 4 and zlock mod 8 |
| Codec.PLThsRegComposites | mma8451.c:463-479 | the decoded pl_ths and hys are the numbers their bit fields spell |
| Codec.PLThsRegSplit | mma8451.c:480-495 | the bits set_p_l_ths_reg writes are the binary digits of pl_ths mod 32 and hys mod 8 |
| Codec.MotionThsComposites | mma8451.c:496-510 | the decoded ths is the number ths6..ths0 spell |
| Codec.MotionThsSplit | mma8451.c:511-524 | the bits set_ff_mt_ths and set_transient_ths write are the binary digits of ths mod 128 |
| Codec.PulseThsComposites | mma8451.c:631-644 | the decoded ths is the number ths6..ths0 spell |
| Codec.PulseThsSplit | mma8451.c:645-657 | the bits set_pulse_thsx/y/z write are the binary digits of ths mod 128 |
| Codec.CtrlReg1Composites | mma8451.c:760-773 | the decoded aslp_rate and dr are the numbers their bit fields spell |
| Codec.CtrlReg1Split | mma8451.c:774-788 | the bits set_ctrl_reg1 writes are the binary digits of aslp_rate mod 4 and dr mod 8 |
| Codec.CtrlReg2Composites | mma8451.c:789-802 | the decoded smods and mods are the numbers their bit fields spell |
| Codec.CtrlReg2Split | mma8451.c:803-813 | the bits set_ctrl_reg2 writes are the binary digits of smods mod 4 and mods mod 4 |
| Codec.RangeUpdate | mma8451.c:150-163 | set_range rewrites only bits 1..0 of XYZ_DATA_CFG, with the range modulo 4 |
| Codec.PowerModeUpdate | mma8451.c:164-177 | set_power_mode rewrites only bits 1..0 of CTRL_REG2, with the mode modulo 4 |
| Codec.OutputSizeUpdate | mma8451.c:178-191 | set_output_size rewrites only bit 1 of CTRL_REG1, with the size's lowest bit |
| Codec.DataRateUpdate | mma8451.c:192-205 | set_data_rate rewrites only bits 5..3 of CTRL_REG1, with the rate modulo 8 |
| Codec.LowNoiseUpdate | mma8451.c:206-219 | set_low_noise changes only bit 2 of CTRL_REG1, which is set exactly when the argument is positive |
| Codec.OrientationUpdate | mma8451.c:220-233 | set_orientation_detection changes only bit 6 of PL_CFG, set exactly when the argument is positive |
| Codec.InterruptEnableUpdate | mma8451.c:234-247 | set_interrupt_enable changes only bit 0 of CTRL_REG4, set exactly when the argument is positive |
| Codec.InterruptPin1Update | mma8451.c:248-261 | set_interrupt_pin1 changes only bit 0 of CTRL_REG5, set exactly when the argument is positive |
| Codec.ActiveUpdate | mma8451.c:262-275 | set_active changes only bit 0 of CTRL_REG1, set exactly when the argument is positive |
| Codec.ResetUpdate | mma8451.c:72-88 | reset sets bit 6 (rst) of CTRL_REG2 and keeps every other bit |
| Codec.RangeFits | mma8451.h:174-191 | each named range reads back unchanged from XYZ_DATA_CFG after set_range |
| Codec.PowerModeFits | mma8451.h:270-287 | each named power mode reads back unchanged from CTRL_REG2 after set_power_mode |
| Codec.DataRateFits | mma8451.h:232-265 | each named data rate reads back unchanged from CTRL_REG1 after set_data_rate |
| Codec.OutputSizeFits | mma8451.h:196-205 | both output sizes read back unchanged from CTRL_REG1 after set_output_size |
| Codec.FifoModeAndSleepRateFit | mma8451.h:134-151 | each named FIFO mode survives write and read of F_SETUP, and each auto-sleep rate (mma8451.h:210-227) survives CTRL_REG1 |
| Codec.OutOfRangeArgumentsTruncate | mma8451.c:150-191 | out-of-enumeration arguments are silently truncated: range 5 reads back as 4G, output size 2 as 14-bit |
| Samples.Raw14 | mma8451.c:97-99 | reassembling an MSB/LSB pair gives a 14-bit value 0..0x3FFF |
| Samples.Count14 | mma8451.c:101-103 | the corrected 14-bit sample lies in -8192..8191 |
| Samples.Count14IsShiftedInt16 | mma8451.c:97-103 | the 14-bit sample equals the big-endian 16-bit two's-complement word divided by 4 (arithmetic shift right by two) |
| Samples.Count14IgnoresLowBits | mma8451.c:97-99 | the low two bits of the LSB register never reach the sample |
| Samples.Count14Examples | mma8451.h:60-64 | zero, +8191, -8192 and -1 come out of the expected register pairs |
| Samples.Count14Injective | mma8451.c:97-103 | two register pairs give the same sample if and only if they agree except on the LSB's low two bits |
| Samples.SameRawSamePair | mma8451.c:97-103 | on promoted register values, equal samples imply equal MSBs and equal LSB quarters |
| Samples.Raw8 | mma8451.c:124-126 | the promoted 8-bit register value is 0..0xFF |
| Samples.Count8 | mma8451.c:128-130 | the corrected 8-bit sample lies in -127..127 |
| Samples.Count8AgainstTwosComplement | mma8451.c:128-130 | non-negative bytes read as their two's-complement value, negative bytes as one more |
| Samples.Count8Collisions | mma8451.c:128-130 | 0x00 and 0xFF both read as 0, -128 is never produced, and the extremes are -127 from 0x80 and 127 from 0x7F |
| Samples.Count8Injective | mma8451.c:124-130 | two bytes give the same sample if and only if they are equal or are 0x00 and 0xFF |
| Samples.SameSigned8 | mma8451.c:128-130 | on promoted register values, the sign correction identifies only 0 with 0xFF |
| Samples.SignConstants | mma8451.h:60-72 | 0x4000 is the full 14-bit modulus, while 0xFF is one short of the 8-bit modulus |
| Samples.CountsPerG | mma8451.h:32-52 | a divisor exists exactly for 2G, 4G and 8G, and it is positive |
| Samples.CountsPerGTables | mma8451.h:32-52 | for each of 2G, 4G and 8G: the 14-bit table is 64 times the 8-bit one and any non-14-bit size uses the 8-bit table; counts per g halve from 2G to 4G and from 4G to 8G |
| Samples.RangeDivisor | mma8451.c:105-117 | the divisor selected by range and data size is RANGE_DIV_* = counts per g / GRAVITY_ACCEL, and there is none for other ranges |
| Samples.ScaledIsAcceleration | mma8451.c:105-144 | a scaled axis times counts per g equals the count times standard gravity, and with no divisor the bare count is kept |
| Samples.FullScale14 | mma8451.c:97-117 | the most negative 14-bit sample reads exactly -2, -4 or -8 g |
| Samples.FullScale8 | mma8451.c:124-144 | the 8-bit extremes at 2G are ±127/64 g, and every 8-bit reading at 2G is above -2 g |
| Samples.Scaled | mma8451.c:105-117 | one axis divided by the divisor the range selects (the `/=` steps of both branches, also mma8451.c:132-144); no contract of its own: ScaledIsAcceleration proves it is the count times standard gravity over counts per g, or the bare count when no range matches |
| Samples.Reading | mma8451.c:105-144 | the three axes scaled alike; no contract of its own: Scale14 and Scale8 are proved equal to it, and ScaledIsAcceleration states what each axis is |
| Samples.Decode14 | mma8451.c:97-117 | the 14-bit block decoded axis by axis; no contract of its own: Count14IsShiftedInt16, Count14Injective and FullScale14 state what each sample is, GetAcceleration14 is proved equal to it |
| Samples.Decode8 | mma8451.c:124-144 | the 8-bit block decoded axis by axis; no contract of its own: Count8AgainstTwosComplement, Count8Injective and FullScale8 state what each sample is, GetAcceleration8 is proved equal to it |
| Driver.Device.constructor | mma8451.c:31-45 | a zero-filled handle attached to the chip's register file |
| Driver.Device.ReadI2C | mma8451.c:958-982 | a successful read returns the register's byte |
| Driver.Device.WriteI2C | mma8451.c:935-955 | a successful write changes exactly that register, and a failed one changes nothing |
| Driver.Device.ReadBlockI2C | mma8451.c:984-1006 | a successful block read returns the consecutive registers from the start address |
| Driver.Device.GetRegister | mma8451.c:887-910 | on success the overlay is Unpack of the register and the byte is the register; on failure both come back as passed |
| Driver.Device.SetRegister | mma8451.c:912-933 | on success the register becomes Pack of the overlay, or the byte when no overlay is given; nothing else changes |
| Driver.Device.GetFStatus | mma8451.c:283-295 | on success DecodeFStatus of F_STATUS, otherwise the caller's struct |
| Driver.Device.GetFSetup | mma8451.c:296-313 | on success DecodeFSetup of F_SETUP, otherwise the caller's struct |
| Driver.Device.SetFSetup | mma8451.c:314-329 | F_SETUP becomes EncodeFSetup of the struct, whose bit fields are re-derived from the composites |
| Driver.Device.GetSysmod | mma8451.c:342-358 | on success DecodeSysmod of SYSMOD, otherwise the caller's struct |
| Driver.Device.GetWhoAmI | mma8451.c:365-370 | on success the WHO_AM_I byte, otherwise the caller's byte |
| Driver.Device.GetXyzDataCfg | mma8451.c:371-380 | on success DecodeXyzDataCfg of XYZ_DATA_CFG, otherwise the caller's struct |
| Driver.Device.SetXyzDataCfg | mma8451.c:381-392 | XYZ_DATA_CFG becomes EncodeXyzDataCfg of the struct; on success the handle's range becomes fs |
| Driver.Device.GetPlCfg | mma8451.c:411-416 | on success DecodePlCfg of PL_CFG, otherwise the caller's struct |
| Driver.Device.SetPlCfg | mma8451.c:417-422 | PL_CFG becomes EncodePlCfg of the struct on success |
| Driver.Device.GetPlBfZcomp | mma8451.c:435-449 | on success DecodePlBfZcomp of PL_BF_ZCOMP, otherwise the caller's struct |
| Driver.Device.SetPlBfZcomp | mma8451.c:450-462 | PL_BF_ZCOMP becomes EncodePlBfZcomp, with bkfr and zlock split into their bits |
| Driver.Device.GetPLThsReg | mma8451.c:463-479 | on success DecodePLThsReg of P_L_THS_REG, otherwise the caller's struct |
| Driver.Device.SetPLThsReg | mma8451.c:480-495 | P_L_THS_REG becomes EncodePLThsReg, with pl_ths and hys split into their bits |
| Driver.Device.GetMotionThs | mma8451.c:496-510 | on success DecodeMotionThs of the given threshold register, otherwise the caller's struct |
| Driver.Device.SetMotionThs | mma8451.c:511-524 | the given threshold register becomes EncodeMotionThs, with ths split into its bits |
| Driver.Device.GetFfMtThs | mma8451.c:496-510 | GetMotionThs on FF_MT_THS |
| Driver.Device.SetFfMtThs | mma8451.c:511-524 | SetMotionThs on FF_MT_THS |
| Driver.Device.GetTransientThs | mma8451.c:573-586 | GetMotionThs on TRANSIENT_THS |
| Driver.Device.SetTransientThs | mma8451.c:587-600 | SetMotionThs on TRANSIENT_THS |
| Driver.Device.GetPulseThs | mma8451.c:631-644 | on success DecodePulseThs of the given pulse threshold register, otherwise the caller's struct |
| Driver.Device.SetPulseThs | mma8451.c:645-657 | the given pulse threshold register becomes EncodePulseThs, with ths split into its bits |
| Driver.Device.GetPulseThsX | mma8451.c:631-644 | GetPulseThs on PULSE_THSX |
| Driver.Device.SetPulseThsX | mma8451.c:645-657 | SetPulseThs on PULSE_THSX |
| Driver.Device.GetPulseThsY | mma8451.c:658-671 | GetPulseThs on PULSE_THSY |
| Driver.Device.SetPulseThsY | mma8451.c:672-684 | SetPulseThs on PULSE_THSY |
| Driver.Device.GetPulseThsZ | mma8451.c:685-698 | GetPulseThs on PULSE_THSZ |
| Driver.Device.SetPulseThsZ | mma8451.c:699-711 | SetPulseThs on PULSE_THSZ |
| Driver.Device.GetCtrlReg1 | mma8451.c:760-773 | on success DecodeCtrlReg1 of CTRL_REG1, otherwise the caller's struct |
| Driver.Device.SetCtrlReg1 | mma8451.c:774-788 | CTRL_REG1 becomes EncodeCtrlReg1; on success the handle's data size becomes f_read and the range is kept |
| Driver.Device.GetCtrlReg2 | mma8451.c:789-802 | on success DecodeCtrlReg2 of CTRL_REG2, otherwise the caller's struct |
| Driver.Device.SetCtrlReg2 | mma8451.c:803-813 | CTRL_REG2 becomes EncodeCtrlReg2, with smods and mods split into their bits |
| Driver.Device.GetCtrlReg4 | mma8451.c:826-831 | on success DecodeCtrlReg4 of CTRL_REG4, otherwise the caller's struct |
| Driver.Device.SetCtrlReg4 | mma8451.c:832-837 | CTRL_REG4 becomes EncodeCtrlReg4 of the struct on success |
| Driver.Device.GetCtrlReg5 | mma8451.c:838-843 | on success DecodeCtrlReg5 of CTRL_REG5, otherwise the caller's struct |
| Driver.Device.SetCtrlReg5 | mma8451.c:844-849 | CTRL_REG5 becomes EncodeCtrlReg5 of the struct on success |
| Driver.Device.SetRange | mma8451.c:150-163 | XYZ_DATA_CFG becomes RangeUpdate of its old byte and the handle's range becomes the argument, both only when both transactions succeed |
| Driver.Device.SetPowerMode | mma8451.c:164-177 | CTRL_REG2 becomes PowerModeUpdate of its old byte when both transactions succeed |
| Driver.Device.SetOutputSize | mma8451.c:178-191 | CTRL_REG1 becomes OutputSizeUpdate of its old byte and the data size becomes the argument's low byte |
| Driver.Device.SetDataRate | mma8451.c:192-205 | CTRL_REG1 becomes DataRateUpdate of its old byte; the data size is re-read from the old f_read bit |
| Driver.Device.SetLowNoise | mma8451.c:206-219 | CTRL_REG1 becomes LowNoiseUpdate of its old byte; the data size is re-read from the old f_read bit |
| Driver.Device.SetOrientationDetection | mma8451.c:220-233 | PL_CFG becomes OrientationUpdate of its old byte when both transactions succeed |
| Driver.Device.SetInterruptEnable | mma8451.c:234-247 | CTRL_REG4 becomes InterruptEnableUpdate of its old byte when both transactions succeed |
| Driver.Device.SetInterruptPin1 | mma8451.c:248-261 | CTRL_REG5 becomes InterruptPin1Update of its old byte when both transactions succeed |
| Driver.Device.SetActive | mma8451.c:262-275 | CTRL_REG1 becomes ActiveUpdate of its old byte; the data size is re-read from the old f_read bit |
| Driver.Device.Reset | mma8451.c:72-88 | CTRL_REG2 gets rst set, and only on success the handle becomes 2G / 14-bit |
| Driver.Device.Open | mma8451.c:31-60 | a handle is returned only when WHO_AM_I reads 0x1A, and then it is fresh, attached to the chip, and set to 2G / 14-bit |
| Driver.Device.GetAcceleration | mma8451.c:90-148 | on success the reading is Decode14 of OUT_X_MSB..OUT_Z_LSB when the data size is 14-bit, else Decode8 of the three bytes from OUT_X_MSB; on failure the caller's reading |
| Driver.Device.GetAcceleration14 | mma8451.c:91-117 | the 14-bit branch: one six-byte block read, decoded by Decode14 |
| Driver.Device.GetAcceleration8 | mma8451.c:118-144 | the 8-bit branch: one three-byte block read, decoded by Decode8 |
| Driver.Device.Scale14 | mma8451.c:105-117 | the range chain of the 14-bit branch scales each axis as Reading does |
| Driver.Device.Scale8 | mma8451.c:132-144 | the range chain of the 8-bit branch scales each axis as Reading does |

## Left out

- Opening the I2C bus device, selecting the slave address, the file descriptor and `mma8451_close` (mma8451.c:31-45, 62-70) are operating-system I/O. `Open` takes the chip's register file instead. The handle leaked on a failed identity check is not modelled.
- The ioctl message packing of `mma8451_set_i2c_register`, `mma8451_get_i2c_register` and `mma8451_get_i2c_register_block` is left out. These are reduced to reads and writes of the register array that may fail.
- The `last_error` text written with `snprintf` and `strerror` on a failed transaction is left out, and so is `errno`. In particular `mma8451_open` sets `errno = EOPNOTSUPP` on a wrong identity byte (mma8451.c:50-53), the only way a caller can tell an unsupported device from a bus failure; `Open` returns no handle in both cases. Only the success flag is modelled.
- The NULL checks of `mma8451_get_register` and `mma8451_set_register` become values. The getter returns both the overlay and the byte. The setter's NULL overlay is `None`.
- The accessors that only pass a struct through the generic overlay, and the byte accessors, are covered by `GetRegister` / `SetRegister` and get no method of their own. These are status, trig_cfg, int_source, hp_filter_cutoff, pl_status, pl_count, ff_mt_cfg/src/count, transient_cfg/scr/count, pulse_cfg/src, pulse_tmlt/ltcy/wind, aslp_count, ctrl_reg3 and off_x/y/z.
- The chip's own behaviour is not modelled: read-only registers, the fast-read mode's address skipping in block reads, what a reset does to the other registers, and whether the chip honours a write. The register file holds whatever is written to it.
- Scaled: the driver divides in double precision. The model divides exactly in `real`, so rounding to the nearest double is not captured.
- Scaled has no `ensures` of its own. `ScaledIsAcceleration` states what it computes.
- Samples.Count14 and Samples.Count8: no lemma states that every sample value is reached by some register contents. The extremes are shown by `Count14Examples` and `Count8Collisions`.
- The set-method contracts state the whole new overlay only for the bits re-derived from composites, as the returned `out`. The other fields come back as passed.
- Every enumeration-typed value (f_mode, mode, fs, aslp_rate, dr, smods, mods, and the handle's range and data size) is an unsigned 32-bit word, `bv32`. C leaves an enumeration's underlying integer type to the implementation. A signed or narrower choice would change only how an out-of-enumeration argument is stored in the handle, since every register write masks it first; that case is not modelled.
- The test program `mma8451-test.c` is not part of this model.
