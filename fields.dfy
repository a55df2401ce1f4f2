/**
  The driver's feature accessors. Each public getter and setter of the driver
  is a one-line call of the masked read or the masked write with a fixed
  register index and mask; here each such pair is one `Field` value, and the
  properties that hold of the whole family are lemmas about the tables.
 */
module Fields {
  import opened Header

  /** A sub-byte field: the register it lives in and the mask selecting it. */
  datatype Field = Field(index: nat, mask: bv8)

  // Register 0x00 (status, read only)
  const TsOpenStat := Field(0x00, Bitmask7)
  const ChgStat := Field(0x00, Bitmask6_5)
  const IlimActiveStat := Field(0x00, Bitmask4)
  const VdppmActiveStat := Field(0x00, Bitmask3)
  const VindpmActiveStat := Field(0x00, Bitmask2)
  const ThermregActiveStat := Field(0x00, Bitmask1)
  const VinPgoodStat := Field(0x00, Bitmask0)

  // Register 0x01 (status, read only)
  const VinOvpStat := Field(0x01, Bitmask7)
  const BuvloStat := Field(0x01, Bitmask6)
  const TsStat := Field(0x01, Bitmask4_3)
  const SafetyTmrFaultFlag := Field(0x01, Bitmask2)
  const Wake1Flag := Field(0x01, Bitmask1)
  const Wake2Flag := Field(0x01, Bitmask0)

  // Register 0x02 (flags, read only)
  const TsFault := Field(0x02, Bitmask7)
  const IlimActiveFlag := Field(0x02, Bitmask6)
  const VdppmActiveFlag := Field(0x02, Bitmask5)
  const VindpmActiveFlag := Field(0x02, Bitmask4)
  const ThermregActiveFlag := Field(0x02, Bitmask3)
  const VinOvpFaultFlag := Field(0x02, Bitmask2)
  const BuvloFaultFlag := Field(0x02, Bitmask1)
  const BatOcpFault := Field(0x02, Bitmask0)

  // Register 0x03
  const PgPinMode := Field(0x03, Bitmask7)
  const Vbatreg := Field(0x03, Bitmask6_0)

  // Register 0x04
  const ChgDis := Field(0x04, Bitmask7)
  const Ichg := Field(0x04, Bitmask6_0)

  // Register 0x05
  const EnFcMode := Field(0x05, Bitmask7)
  const Iprechg := Field(0x05, Bitmask6)
  const Iterm := Field(0x05, Bitmask5_4)
  const Vindpm := Field(0x05, Bitmask3_2)
  const ThermReg := Field(0x05, Bitmask1_0)

  // Register 0x06
  const IbatOcp := Field(0x06, Bitmask7_6)
  const Buvlo := Field(0x06, Bitmask5_3)
  const ChgStatusIntMask := Field(0x06, Bitmask2)
  const IlimIntMask := Field(0x06, Bitmask1)
  const VindpmIntMask := Field(0x06, Bitmask0)

  // Register 0x08
  const LongPressTime := Field(0x08, Bitmask7_6)
  const MrResetVin := Field(0x08, Bitmask5)
  const Autowake := Field(0x08, Bitmask4_3)
  /** The field the driver's `get_ilim`/`set_ilim` actually use: bits 4:3, the autowake field. */
  const IlimAsWritten := Field(0x08, Bitmask4_3)
  /** The input-current-limit field where its named values live, bits 2:0; no
      accessor of the driver uses it. */
  const Ilim := Field(0x08, 0x07)

  // Register 0x09
  const RegRst := Field(0x09, Bitmask7)
  const ResetShip := Field(0x09, Bitmask6_5)
  const LongPressAction := Field(0x09, Bitmask4_3)
  const Wake1Tmr := Field(0x09, Bitmask2)
  const Wake2Tmr := Field(0x09, Bitmask1)
  const EnPush := Field(0x09, Bitmask0)

  // Register 0x0a
  const SysRegulationVoltage := Field(0x0a, 0xE0)
  const PgPinState := Field(0x0a, 0x10)
  const SysMode := Field(0x0a, 0x0C)
  const I2cWatchdogMode := Field(0x0a, 0x02)

  /** The fields the driver's setters write, `set_ilim` with the mask it uses. */
  const WritableFields: seq<Field> := [
    PgPinMode, Vbatreg, ChgDis, Ichg,
    EnFcMode, Iprechg, Iterm, Vindpm, ThermReg,
    IbatOcp, Buvlo, ChgStatusIntMask, IlimIntMask, VindpmIntMask,
    LongPressTime, MrResetVin, Autowake, IlimAsWritten,
    RegRst, ResetShip, LongPressAction, Wake1Tmr, Wake2Tmr, EnPush,
    SysRegulationVoltage, PgPinState, SysMode, I2cWatchdogMode]

  /** Every field with a getter: the status registers and every writable field. */
  const ReadableFields: seq<Field> := [
    TsOpenStat, ChgStat, IlimActiveStat, VdppmActiveStat, VindpmActiveStat,
    ThermregActiveStat, VinPgoodStat,
    VinOvpStat, BuvloStat, TsStat, SafetyTmrFaultFlag, Wake1Flag, Wake2Flag,
    TsFault, IlimActiveFlag, VdppmActiveFlag, VindpmActiveFlag,
    ThermregActiveFlag, VinOvpFaultFlag, BuvloFaultFlag, BatOcpFault] + WritableFields

  /** A field can be read from and written to the mirrored register file. */
  predicate WellPlaced(f: Field) {
    f.index < NumberOfRegisters && f.mask != BitmaskNone && f.mask != I2cError
  }

  /** Every accessor addresses a register of the cache with a proper, partial mask. */
  lemma {:induction false} AccessorsWellPlaced(k: nat)
    requires k < |ReadableFields|
    ensures WellPlaced(ReadableFields[k])
    ensures ReadableFields[k].index < DefaultReadLength
  {
  }

  /** A successful read through any accessor can never be confused with the sentinel. */
  lemma {:induction false} AccessorReadIsNotSentinel(k: nat, b: bv8)
    requires k < |ReadableFields|
    ensures b & ReadableFields[k].mask != I2cError
  {
    AccessorsWellPlaced(k);
    NoPartialMaskYieldsSentinel(b, ReadableFields[k].mask);
  }

  /** Every named value fits inside its field: writing it sets no bit outside the mask. */
  predicate FitsField(f: Field, values: seq<bv8>) {
    forall i :: 0 <= i < |values| ==> values[i] & f.mask == values[i]
  }

  /** The values in `s` are pairwise different. */
  predicate Distinct(s: seq<bv8>) {
    forall i, j :: 0 <= i < j < |s| ==> s[i] != s[j]
  }

  /** The named values are all of the values the field can hold, each once:
      whatever byte `b` the register holds, its field is one of them. */
  predicate Enumerates(f: Field, values: seq<bv8>, b: bv8) {
    && FitsField(f, values)
    && Distinct(values)
    && (b & f.mask) in values
  }

  lemma NamedValuesFitStatusFields()
    ensures FitsField(TsOpenStat, [TsmrNotOpen, TsmrOpen])
    ensures FitsField(IlimActiveStat, [IlimNotActive, IlimActive])
    ensures FitsField(VdppmActiveStat, [VdppmNotActive, VdppmActive])
    ensures FitsField(VindpmActiveStat, [VindpmNotActive, VindpmActive])
    ensures FitsField(ThermregActiveStat, [ThermregNotActive, ThermregActive])
    ensures FitsField(VinPgoodStat, [PowerNotGood, PowerGood])
    ensures FitsField(VinOvpStat, [VinOvpNotActive, VinOvpActive])
    ensures FitsField(BuvloStat, [BuvloNotActive, BuvloActive])
    ensures FitsField(SafetyTmrFaultFlag, [SafetyTmrNotActive, SafetyTmrActive])
    ensures FitsField(Wake1Flag, [Wake1FlagNotActive, Wake1FlagActive])
    ensures FitsField(Wake2Flag, [Wake2FlagNotActive, Wake2FlagActive])
    ensures FitsField(TsFault, [TsFaultNotDetected, TsFaultDetected])
    ensures FitsField(IlimActiveFlag, [IlimFaultNotDetected, IlimFaultDetected])
    ensures FitsField(VdppmActiveFlag, [VdppmFaultNotDetected, VdppmFaultDetected])
    ensures FitsField(VindpmActiveFlag, [VindpmFaultNotDetected, VindpmFaultDetected])
    ensures FitsField(ThermregActiveFlag, [ThermregFaultNotDetected, ThermregFaultDetected])
    ensures FitsField(VinOvpFaultFlag, [VinOvpFaultNotDetected, VinOvpFaultDetected])
    ensures FitsField(BuvloFaultFlag, [BuvloFaultNotDetected, BuvloFaultDetected])
    ensures FitsField(BatOcpFault, [BatOcpFaultNotDetected, BatOcpFaultDetected])
  {
  }

  lemma NamedValuesFitControlFields()
    ensures FitsField(PgPinMode, [PgPinModePg, PgPinModeGpo])
    ensures FitsField(ChgDis, [ChgEnabled, ChgDisabled])
    ensures FitsField(EnFcMode, [FlashChgDisabled, FlashChgEnabled])
    ensures FitsField(Iprechg, [Iprecharge2x, Iprecharge1x])
    ensures FitsField(Iterm, [ItermDisable, Iterm5Percent, Iterm10Percent, Iterm20Percent])
    ensures FitsField(Vindpm, [VindpmVbatPlus300, Vindpm4_5, Vindpm4_7, VindpmDisabled])
    ensures FitsField(ThermReg, [ThermReg100C, ThermReg80C, ThermReg60C, ThermRegDisabled])
    ensures FitsField(IbatOcp, [IbatOcp500mA, IbatOcp1000mA, IbatOcp1500mA, IbatOcp3000mA])
    ensures FitsField(ChgStatusIntMask, [ChgStatusIntEnabled, ChgStatusIntDisabled])
    ensures FitsField(IlimIntMask, [IlimIntEnabled, IlimIntDisabled])
    ensures FitsField(VindpmIntMask, [VindpmIntEnabled, VindpmIntDisabled])
    ensures FitsField(LongPressTime, [MrLpress5s, MrLpress10s, MrLpress15s, MrLpress20s])
    ensures FitsField(MrResetVin, [MrResetNotReqVin, MrResetReqVin])
    ensures FitsField(Autowake, [Autowake0_5s, Autowake1s, Autowake2s, Autowake4s])
    ensures FitsField(RegRst, [NoSoftwareReset, SoftwareReset])
    ensures FitsField(ResetShip, [NoHardwareReset, ShutdownMode, ShipMode, HardwareReset])
    ensures FitsField(LongPressAction,
      [PbLpressActionNothing, PbLpressActionReset, PbLpressActionShip, PbLpressActionShutdown])
    ensures FitsField(Wake1Tmr, [Wake1Tmr300ms, Wake1Tmr1s])
    ensures FitsField(Wake2Tmr, [Wake2Tmr2s, Wake2Tmr3s])
    ensures FitsField(EnPush, [PushDisabled, PushEnabled])
    ensures FitsField(SysRegulationVoltage,
      [SysRegCtrlBatteryTrack, SysRegCtrl4_4V, SysRegCtrl4_5V, SysRegCtrl4_6V,
       SysRegCtrl4_7V, SysRegCtrl4_8V, SysRegCtrl4_9V, SysRegCtrlPassThrough])
    ensures FitsField(SysMode, [SysModeVinOrVbat, SysModeVbatOnly, SysModeFloat, SysModePulldown])
    ensures FitsField(PgPinState, [PgGpoHighImpedence, PgGpoLow])
    ensures FitsField(I2cWatchdogMode, [SysWatchdog15sDisable, SysWatchdog15sEnable])
  {
  }

  /** `chg_stat` returns one of its four documented values (or the sentinel). */
  lemma ChargeStatusEnumerated(b: bv8)
    ensures Enumerates(ChgStat,
      [EnabledButNotCharging, CcCharging, CvCharging, ChargingDoneOrDisabled], b)
  {
  }

  /** `ts_stat` returns one of the four TS-status values (or the sentinel). */
  lemma TsStatusEnumerated(b: bv8)
    ensures Enumerates(TsStat, [TsNormal, TsTooHotOrCold, TsCool, TsWarm], b)
  {
  }

  /** The eight BUVLO codes are exactly the eight values of bits 5:3. */
  lemma BuvloCodesEnumerated(b: bv8)
    ensures Enumerates(Buvlo,
      [Buvlo30A, Buvlo30B, Buvlo30C, Buvlo28, Buvlo26, Buvlo24, Buvlo22, Buvlo20], b)
  {
  }

  /** The eight system-regulation codes are exactly the eight values of bits 7:5. */
  lemma SysRegulationCodesEnumerated(b: bv8)
    ensures Enumerates(SysRegulationVoltage,
      [SysRegCtrlBatteryTrack, SysRegCtrl4_4V, SysRegCtrl4_5V, SysRegCtrl4_6V,
       SysRegCtrl4_7V, SysRegCtrl4_8V, SysRegCtrl4_9V, SysRegCtrlPassThrough], b)
  {
  }

  /** The input-current-limit codes, 50 mA to 1050 mA. */
  const IlimCodes: seq<bv8> :=
    [Ilim50mA, Ilim100mA, Ilim200mA, Ilim300mA, Ilim400mA, Ilim500mA, Ilim665mA, Ilim1050mA]

  /** The eight input-current-limit codes are exactly the eight values of bits 2:0,
      a field disjoint from autowake's. */
  lemma IlimCodesEnumerated(b: bv8)
    ensures Enumerates(Ilim, IlimCodes, b)
    ensures Ilim.mask & Autowake.mask == BitmaskNone
  {
  }

  /** As written, `get_ilim`/`set_ilim` use the autowake field, where no ILIM
      code but 50 mA fits: every `set_ilim` writes autowake 0.5 s into bits 4:3
      and leaves the current limit in bits 2:0 as it was. */
  lemma IlimAsWrittenIsAutowake(prev: bv8)
    ensures IlimAsWritten == Autowake
    ensures forall i :: 1 <= i < |IlimCodes| ==> IlimCodes[i] & IlimAsWritten.mask != IlimCodes[i]
    ensures forall i :: 0 <= i < |IlimCodes| ==>
      && Merge(prev, IlimAsWritten.mask, IlimCodes[i]) & Autowake.mask == Autowake0_5s
      && Merge(prev, IlimAsWritten.mask, IlimCodes[i]) & Ilim.mask == prev & Ilim.mask
  {
  }

  /** The byte a masked write stores: bits inside `mask` from `value`, the rest from `prev`. */
  function Merge(prev: bv8, mask: bv8, value: bv8): (r: bv8)
    ensures r & mask == value & mask
    ensures r & !mask == prev & !mask
  {
    (prev & (mask ^ 0xFF)) | (value & mask)
  }

  /** Of two merges under the same mask the second decides the byte: merging
      the same value again changes nothing, and a different value replaces it. */
  lemma MergeLastWins(prev: bv8, mask: bv8, first: bv8, second: bv8)
    ensures Merge(Merge(prev, mask, first), mask, second) == Merge(prev, mask, second)
    ensures Merge(Merge(prev, mask, first), mask, first) == Merge(prev, mask, first)
  {
  }
}
