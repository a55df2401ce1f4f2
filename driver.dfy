/**
  The `bq25186` driver object: a 13-byte mirror of the charger's register
  file, the sticky "communicating OK" flag, the refresh timestamp and the
  refresh rate limit, updated in place by the engine's methods. Each method
  is proved against the pure specification in `CacheEngine`: its new state
  is the function of its old state given there.

  The bus is an oracle: each method receives the answer the bus gives should
  it issue a bulk read (`reply`) and whether the bus acknowledges a register
  write (`ack`); the clock reading is `now`. The ghost `transcript` records
  the bus transactions the driver issues, so that "no bus access" and "one
  read per window" can be stated.

  `portAttached` stands for the transport pointer being set: it is false after
  construction and `begin` sets it. Every operation that reaches the bus
  requires it, since before `begin` the pointer is null; a getter needs it
  only when its refresh is due, and `set_ichg` only when the request is accepted.
 */
module Driver {
  import opened Header
  import opened Fields
  import opened CacheEngine
  import opened Conversions

  /** A bus transaction: a bulk-read attempt (a write of the register pointer
      `start`, followed by a request for `count` bytes only when that write is
      acknowledged) or a write of one register. */
  datatype BusOp =
    | BlockRead(address: bv8, start: bv8, count: nat)
    | RegisterWrite(address: bv8, register: bv8, value: bv8)

  class Bq25186 {
    const i2cAddress: bv8
    const registers: array<bv8>
    var communicatingOk: bool
    var refreshTimer: Millis
    const refreshRateLimit: Millis
    var portAttached: bool
    ghost var transcript: seq<BusOp>

    ghost predicate Valid()
      reads this
    {
      registers.Length == NumberOfRegisters
    }

    /** The engine state this object holds. */
    ghost function State(): (c: Cache)
      reads this, registers
      requires Valid()
      ensures WellSized(c)
    {
      Cache(registers[..], communicatingOk, refreshTimer)
    }

    /** The bus transactions one pass through the refresh gate issues. */
    ghost function RefreshOps(timer: Millis, now: Millis): seq<BusOp>
    {
      if RefreshDue(now, timer, refreshRateLimit) then [BlockRead(i2cAddress, 0, NumberOfRegisters)] else []
    }

    /** The register contents are left uninitialised, so nothing is promised about them. */
    constructor ()
      ensures Valid() && fresh(registers)
      ensures i2cAddress == DeviceAddress
      ensures !communicatingOk && refreshTimer == 0
      ensures refreshRateLimit == DefaultRefreshRateLimit
      ensures transcript == []
      ensures !portAttached
    {
      i2cAddress := DeviceAddress;
      registers := new bv8[NumberOfRegisters];
      communicatingOk := false;
      refreshTimer := 0;
      refreshRateLimit := DefaultRefreshRateLimit;
      transcript := [];
      portAttached := false;
    }

    /** `begin`: attach the transport, then one bulk read whose outcome becomes
        the OK flag; the refresh timer is not set. */
    method Begin(reply: ReadReply) returns (ok: bool)
      requires Valid()
      modifies this, registers
      ensures Valid() && portAttached
      ensures var o := CacheEngine.ReadRegisters(old(registers[..]), DefaultReadLength, reply);
        && ok == o.ok && communicatingOk == ok && registers[..] == o.registers
      ensures refreshTimer == old(refreshTimer)
      ensures transcript == old(transcript) + [BlockRead(i2cAddress, 0, NumberOfRegisters)]
    {
      portAttached := true;
      communicatingOk := ReadRegisters(0, DefaultReadLength, reply);
      ok := communicatingOk;
    }

    /** `read_registers_`: write the register pointer `start`, request all 13
        registers, and when the device reports exactly `length` bytes copy
        bytes from the receive buffer into the cache from index 0 on. */
    method ReadRegisters(start: bv8, length: nat, reply: ReadReply) returns (ok: bool)
      requires Valid() && length <= NumberOfRegisters && portAttached
      modifies registers, this`transcript
      ensures var o := CacheEngine.ReadRegisters(old(registers[..]), length, reply);
        ok == o.ok && registers[..] == o.registers
      ensures transcript == old(transcript) + [BlockRead(i2cAddress, start, NumberOfRegisters)]
    {
      transcript := transcript + [BlockRead(i2cAddress, start, NumberOfRegisters)];
      ok := false;
      if reply.Delivered? {
        var bytesReceived: nat := reply.count;
        if bytesReceived == length {
          var stream := reply.stream;
          var position := 0;
          ghost var prior := registers[..];
          while position < |stream| && bytesReceived > 0
            invariant bytesReceived <= length
            invariant position == length - bytesReceived
            invariant position <= |stream| && position <= |prior|
            invariant registers[..] == stream[..position] + prior[position..]
            modifies registers
            decreases bytesReceived
          {
            OverlayStep(stream, prior, position);
            registers[length - bytesReceived] := stream[position];
            position := position + 1;
            bytesReceived := bytesReceived - 1;
          }
          assert position == Min(length, |stream|);
          ok := bytesReceived == 0;
        }
      }
    }

    /** `auto_refresh_all_registers_`: a bulk read only when more than the rate
        limit has elapsed; the timer is stamped before the read whatever its
        outcome, and the flag returned is the last read's result. */
    method AutoRefreshAllRegisters(now: Millis, reply: ReadReply) returns (ok: bool)
      requires Valid() && (portAttached || !RefreshDue(now, refreshTimer, refreshRateLimit))
      modifies this`refreshTimer, this`communicatingOk, this`transcript, registers
      ensures Valid()
      ensures State() == Refresh(old(State()), refreshRateLimit, now, reply)
      ensures ok == communicatingOk
      ensures transcript == old(transcript) + RefreshOps(old(refreshTimer), now)
    {
      if Elapsed(now, refreshTimer) > refreshRateLimit {
        refreshTimer := now;
        communicatingOk := ReadRegisters(0, DefaultReadLength, reply);
      }
      ok := communicatingOk;
    }

    /** `read_bitmasked_value_from_register_`: the field after the refresh gate, or the sentinel. */
    method ReadBitmaskedValue(index: nat, mask: bv8, now: Millis, reply: ReadReply) returns (value: bv8)
      requires Valid() && index < NumberOfRegisters && (portAttached || !RefreshDue(now, refreshTimer, refreshRateLimit))
      modifies this`refreshTimer, this`communicatingOk, this`transcript, registers
      ensures Valid()
      ensures var r := ReadField(old(State()), refreshRateLimit, now, reply, index, mask);
        State() == r.cache && value == r.value
      ensures transcript == old(transcript) + RefreshOps(old(refreshTimer), now)
    {
      var ok := AutoRefreshAllRegisters(now, reply);
      if ok {
        value := registers[index] & mask;
      } else {
        value := I2cError;
      }
    }

    /** `write_register_`: one register write on the bus; its result is the acknowledgement. */
    method WriteRegister(register: bv8, value: bv8, ack: bool) returns (ok: bool)
      requires portAttached
      modifies this`transcript
      ensures ok == ack
      ensures transcript == old(transcript) + [RegisterWrite(i2cAddress, register, value)]
    {
      transcript := transcript + [RegisterWrite(i2cAddress, register, value)];
      ok := ack;
    }

    /** `write_bitmasked_value_to_register_`: refresh if due, merge `value` into
        the cached byte under `mask`, write the merged byte, and store it in the
        cache only if the write was acknowledged. */
    method WriteBitmaskedValue(index: nat, mask: bv8, value: bv8, now: Millis, reply: ReadReply, ack: bool)
      returns (ok: bool)
      requires Valid() && index < NumberOfRegisters && portAttached
      modifies this`refreshTimer, this`communicatingOk, this`transcript, registers
      ensures Valid()
      ensures var w := WriteField(old(State()), refreshRateLimit, now, reply, index, mask, value, ack);
        State() == w.cache && ok == w.ok
      ensures transcript == old(transcript) + RefreshOps(old(refreshTimer), now)
        + [RegisterWrite(i2cAddress, index as bv8,
             WrittenByte(Refresh(old(State()), refreshRateLimit, now, reply), index, mask, value))]
    {
      var _ := AutoRefreshAllRegisters(now, reply);
      ok := StoreMerged(index, mask, value, ack);
    }

    /** The second half of the masked write, on the refreshed cache: send the
        merged byte and keep it only when acknowledged. */
    method StoreMerged(index: nat, mask: bv8, value: bv8, ack: bool) returns (ok: bool)
      requires Valid() && index < NumberOfRegisters && portAttached
      modifies this`transcript, registers
      ensures Valid()
      ensures ok == ack
      ensures State() == if ack then old(State()).(registers := old(State()).registers[index := WrittenByte(old(State()), index, mask, value)])
        else old(State())
      ensures transcript == old(transcript) + [RegisterWrite(i2cAddress, index as bv8, WrittenByte(old(State()), index, mask, value))]
    {
      var newValue := Merge(registers[index], mask, value);
      ok := WriteRegister(index as bv8, newValue, ack);
      if ok {
        registers[index] := newValue;
      }
    }

    /** Any getter (every field of `ReadableFields` is well placed): a masked
        read of its field, never confused with the sentinel when the link is good. */
    method GetField(f: Field, now: Millis, reply: ReadReply) returns (value: bv8)
      requires Valid() && WellPlaced(f) && (portAttached || !RefreshDue(now, refreshTimer, refreshRateLimit))
      modifies this`refreshTimer, this`communicatingOk, this`transcript, registers
      ensures Valid()
      ensures var r := ReadField(old(State()), refreshRateLimit, now, reply, f.index, f.mask);
        State() == r.cache && value == r.value
      ensures value == I2cError <==> !communicatingOk
      ensures communicatingOk ==> value & !f.mask == 0
      ensures transcript == old(transcript) + RefreshOps(old(refreshTimer), now)
    {
      ghost var before := State();
      value := ReadBitmaskedValue(f.index, f.mask, now, reply);
      ReadFieldResult(before, refreshRateLimit, now, reply, f);
    }

    /** Any setter (every field of `WritableFields` is well placed): a masked write of its field. */
    method SetField(f: Field, value: bv8, now: Millis, reply: ReadReply, ack: bool) returns (ok: bool)
      requires Valid() && WellPlaced(f) && portAttached
      modifies this`refreshTimer, this`communicatingOk, this`transcript, registers
      ensures Valid()
      ensures var w := WriteField(old(State()), refreshRateLimit, now, reply, f.index, f.mask, value, ack);
        State() == w.cache && ok == w.ok
      ensures transcript == old(transcript) + RefreshOps(old(refreshTimer), now)
        + [RegisterWrite(i2cAddress, f.index as bv8,
             WrittenByte(Refresh(old(State()), refreshRateLimit, now, reply), f.index, f.mask, value))]
    {
      ok := WriteBitmaskedValue(f.index, f.mask, value, now, reply, ack);
    }

    /** `get_ichg`: the charge current in mA, 0 exactly when the device cannot be read. */
    method GetIchg(now: Millis, reply: ReadReply) returns (milliamps: Uint16)
      requires Valid() && (portAttached || !RefreshDue(now, refreshTimer, refreshRateLimit))
      modifies this`refreshTimer, this`communicatingOk, this`transcript, registers
      ensures Valid()
      ensures var r := ReadField(old(State()), refreshRateLimit, now, reply, Ichg.index, Ichg.mask);
        State() == r.cache && milliamps == DecodeIchg(r.value)
      ensures milliamps == 0 <==> !communicatingOk
      ensures transcript == old(transcript) + RefreshOps(old(refreshTimer), now)
    {
      var field := ReadBitmaskedValue(Ichg.index, Ichg.mask, now, reply);
      milliamps := DecodeIchg(field);
      if communicatingOk {
        DecodeIchgRange(registers[Ichg.index]);
      }
    }

    /** `set_ichg`: a request above 1000 mA is refused, issuing no bus
        transaction and changing nothing; any other request, 0..4 mA included,
        has its code written to field 6:0 of register 0x04. */
    method SetIchg(value: Uint16, now: Millis, reply: ReadReply, ack: bool) returns (ok: bool)
      requires Valid() && (portAttached || IchgCodeAsWritten(value).None?)
      modifies this`refreshTimer, this`communicatingOk, this`transcript, registers
      ensures Valid()
      ensures IchgCodeAsWritten(value).None? ==>
        !ok && State() == old(State()) && transcript == old(transcript)
      ensures IchgCodeAsWritten(value).Some? ==>
        var code := IchgCodeAsWritten(value).value;
        var w := WriteField(old(State()), refreshRateLimit, now, reply, Ichg.index, Ichg.mask, code, ack);
        && State() == w.cache && ok == w.ok
        && transcript == old(transcript) + RefreshOps(old(refreshTimer), now)
           + [RegisterWrite(i2cAddress, Ichg.index as bv8,
                WrittenByte(Refresh(old(State()), refreshRateLimit, now, reply), Ichg.index, Ichg.mask, code))]
    {
      var code := IchgCodeAsWritten(value);
      if code.Some? {
        ok := WriteBitmaskedValue(Ichg.index, Ichg.mask, code.value, now, reply, ack);
      } else {
        ok := false;
      }
    }

    /** `get_buvlo` in decivolts: 0 exactly when the device cannot be read. */
    method GetBuvlo(now: Millis, reply: ReadReply) returns (decivolts: nat)
      requires Valid() && (portAttached || !RefreshDue(now, refreshTimer, refreshRateLimit))
      modifies this`refreshTimer, this`communicatingOk, this`transcript, registers
      ensures Valid()
      ensures var r := ReadField(old(State()), refreshRateLimit, now, reply, Buvlo.index, Buvlo.mask);
        State() == r.cache && decivolts == BuvloDecivolts(r.value)
      ensures decivolts == 0 <==> !communicatingOk
      ensures transcript == old(transcript) + RefreshOps(old(refreshTimer), now)
    {
      var field := ReadBitmaskedValue(Buvlo.index, Buvlo.mask, now, reply);
      decivolts := BuvloDecivolts(field);
      BuvloZeroOnlyOnSentinel(registers[Buvlo.index], communicatingOk);
    }
  }
}
