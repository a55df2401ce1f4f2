/**
  Constants of the BQ25186 driver: the register-file geometry, the bus
  address, the bit masks used to pick fields out of a register byte and the
  named values each field can take. Every constant has the value the driver's
  header gives it; bytes are `bv8`, as the driver's `uint8_t`.
 */
module Header {

  /** Number of registers mirrored by the cache (0x00 .. 0x0c). */
  const NumberOfRegisters: nat := 0x0d

  /** Default `length` of a bulk register read. */
  const DefaultReadLength: nat := 0x0d

  /** Fixed seven-bit bus address of the charger. */
  const DeviceAddress: bv8 := 0x6a

  /** A `uint32_t` value: a millisecond clock reading, timestamp or interval. */
  type Millis = x: int | 0 <= x < 0x1_0000_0000

  /** A `uint16_t` value. */
  type Uint16 = x: int | 0 <= x < 0x1_0000

  /** Default minimum interval between two register refreshes, in milliseconds. */
  const DefaultRefreshRateLimit: Millis := 1000

  /** Sentinel returned by a masked read when the device cannot be read. */
  const I2cError: bv8 := 0xFF

  // Bit masks. `7_5` is the run of bits 7 down to 5; `75` is bits 7 and 5 only.
  const Bitmask7: bv8    := 0x80
  const Bitmask7_6: bv8  := 0xC0
  const Bitmask75: bv8   := 0xA0
  const Bitmask7_5: bv8  := 0xE0
  const Bitmask6: bv8    := 0x40
  const Bitmask6_5: bv8  := 0x60
  const Bitmask6_0: bv8  := 0x7F
  const Bitmask5: bv8    := 0x20
  const Bitmask5_4: bv8  := 0x30
  const Bitmask5_3: bv8  := 0x38
  const Bitmask4: bv8    := 0x10
  const Bitmask4_3: bv8  := 0x18
  const Bitmask3: bv8    := 0x08
  const Bitmask3_2: bv8  := 0x0C
  const Bitmask2: bv8    := 0x04
  const Bitmask21: bv8   := 0x06
  const Bitmask20: bv8   := 0x05
  const Bitmask1: bv8    := 0x02
  const Bitmask1_0: bv8  := 0x03
  const Bitmask0: bv8    := 0x01
  const BitmaskNone: bv8 := 0x00

  // Register 0x00
  const TsmrNotOpen: bv8 := BitmaskNone
  const TsmrOpen: bv8 := Bitmask7

  const EnabledButNotCharging: bv8 := BitmaskNone
  const CcCharging: bv8 := Bitmask5
  const CvCharging: bv8 := Bitmask6
  const ChargingDoneOrDisabled: bv8 := Bitmask6_5

  const IlimNotActive: bv8 := BitmaskNone
  const IlimActive: bv8 := Bitmask4

  const VdppmNotActive: bv8 := BitmaskNone
  const VdppmActive: bv8 := Bitmask3

  const VindpmNotActive: bv8 := BitmaskNone
  const VindpmActive: bv8 := Bitmask2

  const ThermregNotActive: bv8 := BitmaskNone
  const ThermregActive: bv8 := Bitmask1

  const PowerNotGood: bv8 := BitmaskNone
  const PowerGood: bv8 := Bitmask0

  // Register 0x01
  const VinOvpNotActive: bv8 := BitmaskNone
  const VinOvpActive: bv8 := Bitmask7

  const BuvloNotActive: bv8 := BitmaskNone
  const BuvloActive: bv8 := Bitmask6

  const TsNormal: bv8 := BitmaskNone
  const TsTooHotOrCold: bv8 := Bitmask3
  const TsCool: bv8 := Bitmask4
  const TsWarm: bv8 := Bitmask4_3

  const SafetyTmrNotActive: bv8 := BitmaskNone
  const SafetyTmrActive: bv8 := Bitmask2

  const Wake1FlagNotActive: bv8 := BitmaskNone
  const Wake1FlagActive: bv8 := Bitmask1

  const Wake2FlagNotActive: bv8 := BitmaskNone
  const Wake2FlagActive: bv8 := Bitmask0

  // Register 0x02
  const TsFaultNotDetected: bv8 := BitmaskNone
  const TsFaultDetected: bv8 := Bitmask7

  const IlimFaultNotDetected: bv8 := BitmaskNone
  const IlimFaultDetected: bv8 := Bitmask6

  const VdppmFaultNotDetected: bv8 := BitmaskNone
  const VdppmFaultDetected: bv8 := Bitmask5

  const VindpmFaultNotDetected: bv8 := BitmaskNone
  const VindpmFaultDetected: bv8 := Bitmask4

  const ThermregFaultNotDetected: bv8 := BitmaskNone
  const ThermregFaultDetected: bv8 := Bitmask3

  const VinOvpFaultNotDetected: bv8 := BitmaskNone
  const VinOvpFaultDetected: bv8 := Bitmask2

  const BuvloFaultNotDetected: bv8 := BitmaskNone
  const BuvloFaultDetected: bv8 := Bitmask1

  const BatOcpFaultNotDetected: bv8 := BitmaskNone
  const BatOcpFaultDetected: bv8 := Bitmask0

  // Register 0x03
  const PgPinModePg: bv8 := BitmaskNone
  const PgPinModeGpo: bv8 := Bitmask7

  // Register 0x04
  const ChgEnabled: bv8 := BitmaskNone
  const ChgDisabled: bv8 := Bitmask7

  // Register 0x05
  const FlashChgDisabled: bv8 := BitmaskNone
  const FlashChgEnabled: bv8 := Bitmask7

  const Iprecharge2x: bv8 := BitmaskNone
  const Iprecharge1x: bv8 := Bitmask6

  const ItermDisable: bv8 := BitmaskNone
  const Iterm5Percent: bv8 := Bitmask4
  const Iterm10Percent: bv8 := Bitmask5
  const Iterm20Percent: bv8 := Bitmask5_4

  const VindpmVbatPlus300: bv8 := BitmaskNone
  const Vindpm4_5: bv8 := Bitmask2
  const Vindpm4_7: bv8 := Bitmask3
  const VindpmDisabled: bv8 := Bitmask3_2

  const ThermReg100C: bv8 := BitmaskNone
  const ThermReg80C: bv8 := Bitmask0
  const ThermReg60C: bv8 := Bitmask1
  const ThermRegDisabled: bv8 := Bitmask1_0

  // Register 0x06
  const IbatOcp500mA: bv8 := BitmaskNone
  const IbatOcp1000mA: bv8 := Bitmask6
  const IbatOcp1500mA: bv8 := Bitmask7
  const IbatOcp3000mA: bv8 := Bitmask7_6

  const Buvlo30A: bv8 := BitmaskNone
  const Buvlo30B: bv8 := Bitmask3
  const Buvlo30C: bv8 := Bitmask4
  const Buvlo28: bv8 := Bitmask4_3
  const Buvlo26: bv8 := Bitmask5
  const Buvlo24: bv8 := 0x28
  const Buvlo22: bv8 := Bitmask5_4
  const Buvlo20: bv8 := 0x38

  const ChgStatusIntEnabled: bv8 := BitmaskNone
  const ChgStatusIntDisabled: bv8 := Bitmask2

  const IlimIntEnabled: bv8 := BitmaskNone
  const IlimIntDisabled: bv8 := Bitmask1

  const VindpmIntEnabled: bv8 := BitmaskNone
  const VindpmIntDisabled: bv8 := Bitmask0

  // Register 0x08
  const MrLpress5s: bv8 := BitmaskNone
  const MrLpress10s: bv8 := Bitmask6
  const MrLpress15s: bv8 := Bitmask7
  const MrLpress20s: bv8 := Bitmask7_6

  const MrResetNotReqVin: bv8 := BitmaskNone
  const MrResetReqVin: bv8 := Bitmask5

  const Autowake0_5s: bv8 := BitmaskNone
  const Autowake1s: bv8 := Bitmask3
  const Autowake2s: bv8 := Bitmask4
  const Autowake4s: bv8 := Bitmask4_3

  // The input-current-limit codes occupy bits 2:0. The last two are written
  // in the driver's header with two mask names it never defines (`2_1` and
  // `2_0`); they are given here the values those names stand for under the
  // header's own naming scheme: bits 2..1 and bits 2..0.
  const Ilim50mA: bv8 := BitmaskNone
  const Ilim100mA: bv8 := Bitmask0
  const Ilim200mA: bv8 := Bitmask1
  const Ilim300mA: bv8 := Bitmask1_0
  const Ilim400mA: bv8 := Bitmask2
  const Ilim500mA: bv8 := Bitmask20
  const Ilim665mA: bv8 := 0x06
  const Ilim1050mA: bv8 := 0x07

  // Register 0x09
  const NoSoftwareReset: bv8 := BitmaskNone
  const SoftwareReset: bv8 := Bitmask7

  const NoHardwareReset: bv8 := BitmaskNone
  const ShutdownMode: bv8 := Bitmask5
  const ShipMode: bv8 := Bitmask6
  const HardwareReset: bv8 := Bitmask6_5

  const PbLpressActionNothing: bv8 := BitmaskNone
  const PbLpressActionReset: bv8 := Bitmask3
  const PbLpressActionShip: bv8 := Bitmask4
  const PbLpressActionShutdown: bv8 := Bitmask4_3

  const Wake1Tmr300ms: bv8 := BitmaskNone
  const Wake1Tmr1s: bv8 := Bitmask2

  const Wake2Tmr2s: bv8 := BitmaskNone
  const Wake2Tmr3s: bv8 := Bitmask1

  const PushDisabled: bv8 := BitmaskNone
  const PushEnabled: bv8 := Bitmask0

  // Register 0x0a
  const SysRegCtrlBatteryTrack: bv8 := BitmaskNone
  const SysRegCtrl4_4V: bv8 := Bitmask5
  const SysRegCtrl4_5V: bv8 := Bitmask6
  const SysRegCtrl4_6V: bv8 := Bitmask6_5
  const SysRegCtrl4_7V: bv8 := Bitmask7
  const SysRegCtrl4_8V: bv8 := Bitmask75
  const SysRegCtrl4_9V: bv8 := Bitmask7_6
  const SysRegCtrlPassThrough: bv8 := Bitmask7_5

  const SysModeVinOrVbat: bv8 := BitmaskNone
  const SysModeVbatOnly: bv8 := Bitmask2
  const SysModeFloat: bv8 := Bitmask3
  const SysModePulldown: bv8 := Bitmask3_2

  const PgGpoHighImpedence: bv8 := BitmaskNone
  const PgGpoLow: bv8 := Bitmask4

  const SysWatchdog15sEnable: bv8 := Bitmask1
  const SysWatchdog15sDisable: bv8 := BitmaskNone

  /** Every mask the header defines, in the order it defines them. */
  const DefinedMasks: seq<bv8> := [
    Bitmask7, Bitmask7_6, Bitmask75, Bitmask7_5, Bitmask6, Bitmask6_5,
    Bitmask6_0, Bitmask5, Bitmask5_4, Bitmask5_3, Bitmask4, Bitmask4_3,
    Bitmask3, Bitmask3_2, Bitmask2, Bitmask21, Bitmask20, Bitmask1,
    Bitmask1_0, Bitmask0, BitmaskNone]

  /** A masked register value `b & mask` can never be the error sentinel
      unless the mask is the full byte; no mask the header defines is. */
  lemma {:induction false} NoDefinedMaskIsTheSentinel(b: bv8, k: nat)
    requires k < |DefinedMasks|
    ensures DefinedMasks[k] != I2cError
    ensures b & DefinedMasks[k] != I2cError
  {
    NoPartialMaskYieldsSentinel(b, DefinedMasks[k]);
  }

  /** The one bit-level fact behind the sentinel's soundness. */
  lemma NoPartialMaskYieldsSentinel(b: bv8, mask: bv8)
    requires mask != 0xFF
    ensures b & mask != I2cError
  {
  }
}
