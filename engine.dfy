/**
  The register-cache engine as pure functions over a value of its state:
  the mirrored register bytes, the sticky "communicating OK" flag and the
  timestamp of the last refresh attempt. These functions are the
  specification the driver class is proved against, and the lemmas below are
  the engine's guarantees stated over them.

  The bus is an oracle: a bulk read is answered by a `ReadReply`, a register
  write by an acknowledgement bit. The clock is a 32-bit millisecond count
  passed in as `now`.
 */
module CacheEngine {
  import opened Header
  import opened Fields

  /** The bus's answer to a bulk read: the register-pointer write was not
      acknowledged, or the device reported `count` bytes received and the
      receive buffer then yields `stream`, byte by byte, while it has any. */
  datatype ReadReply = PointerNack | Delivered(count: nat, stream: seq<bv8>)

  /** What a bulk read did: whether it succeeded and the registers afterwards. */
  datatype ReadOutcome = ReadOutcome(ok: bool, registers: seq<bv8>)

  /** The engine's state. */
  datatype Cache = Cache(registers: seq<bv8>, communicatingOk: bool, refreshTimer: Millis)

  /** The result of a masked read: the state after its refresh gate and the value returned. */
  datatype FieldRead = FieldRead(cache: Cache, value: bv8)

  /** The result of a masked write: the state afterwards and whether the bus acknowledged. */
  datatype FieldWrite = FieldWrite(cache: Cache, ok: bool)

  /** One call of the refresh gate: the clock reading and the bus's answer should a read be issued. */
  datatype Call = Call(now: Millis, reply: ReadReply)

  predicate WellSized(c: Cache) {
    |c.registers| == NumberOfRegisters
  }

  /** `now - timer` in 32-bit unsigned arithmetic: the time elapsed since `timer`,
      correct across one wrap-around of the clock. */
  function Elapsed(now: Millis, timer: Millis): (d: Millis)
    ensures (timer + d) % 0x1_0000_0000 == now
  {
    if timer <= now then now - timer else now - timer + 0x1_0000_0000
  }

  /** The refresh gate fires when more than `limit` ms have elapsed since the last attempt. */
  predicate RefreshDue(now: Millis, timer: Millis, limit: Millis): (due: bool)
    ensures now == timer ==> !due
    ensures limit == 0 ==> (due <==> now != timer)
  {
    Elapsed(now, timer) > limit
  }

  function Min(a: nat, b: nat): (m: nat)
    ensures m <= a && m <= b && (m == a || m == b)
  {
    if a <= b then a else b
  }

  /** `read_registers_`: the received bytes overwrite the cache from index 0
      on, one per byte the receive buffer still holds, until `length` bytes
      are stored; the read succeeds when all `length` were. */
  function ReadRegisters(registers: seq<bv8>, length: nat, reply: ReadReply): (r: ReadOutcome)
    requires length <= |registers|
    ensures |r.registers| == |registers|
    ensures r.ok <==> reply.Delivered? && reply.count == length && length <= |reply.stream|
    ensures r.ok ==> r.registers[..length] == reply.stream[..length]
    ensures r.registers[length..] == registers[length..]
    ensures (reply.PointerNack? || reply.count != length) ==> r.registers == registers
    ensures reply.Delivered? && reply.count == length ==>
      forall k :: 0 <= k < length ==>
        r.registers[k] == if k < |reply.stream| then reply.stream[k] else registers[k]
  {
    match reply
    case PointerNack => ReadOutcome(false, registers)
    case Delivered(count, stream) =>
      if count != length then ReadOutcome(false, registers)
      else
        var n := Min(length, |stream|);
        ReadOutcome(n == length, stream[..n] + registers[n..])
  }

  /** Storing the next received byte extends the overwritten prefix by one. */
  lemma OverlayStep(stream: seq<bv8>, prior: seq<bv8>, p: nat)
    requires p < |stream| && p < |prior|
    ensures (stream[..p] + prior[p..])[p := stream[p]] == stream[..p + 1] + prior[p + 1..]
  {
  }

  /** `auto_refresh_all_registers_`: the state after one pass through the gate. */
  function Refresh(c: Cache, limit: Millis, now: Millis, reply: ReadReply): (r: Cache)
    requires WellSized(c)
    ensures WellSized(r)
  {
    if RefreshDue(now, c.refreshTimer, limit) then
      var o := ReadRegisters(c.registers, DefaultReadLength, reply);
      Cache(o.registers, o.ok, now)
    else
      c
  }

  /** The refresh gate: when not due it changes nothing, the flag included; when due
      it stamps the timer with `now` and takes registers and flag from the read. */
  lemma RefreshGate(c: Cache, limit: Millis, now: Millis, reply: ReadReply)
    requires WellSized(c)
    ensures var r := Refresh(c, limit, now, reply);
      && (!RefreshDue(now, c.refreshTimer, limit) ==> r == c)
      && (RefreshDue(now, c.refreshTimer, limit) ==>
          && r.refreshTimer == now
          && r.communicatingOk == ReadRegisters(c.registers, NumberOfRegisters, reply).ok
          && r.registers == ReadRegisters(c.registers, NumberOfRegisters, reply).registers)
  {
  }

  /** `read_bitmasked_value_from_register_`: refresh if due, then the field or the sentinel. */
  function ReadField(c: Cache, limit: Millis, now: Millis, reply: ReadReply, index: nat, mask: bv8): (r: FieldRead)
    requires WellSized(c) && index < NumberOfRegisters
    ensures r.cache == Refresh(c, limit, now, reply)
    ensures r.cache.communicatingOk ==> r.value == r.cache.registers[index] & mask
    ensures !r.cache.communicatingOk ==> r.value == I2cError
  {
    var c' := Refresh(c, limit, now, reply);
    FieldRead(c', if c'.communicatingOk then c'.registers[index] & mask else I2cError)
  }

  /** `write_bitmasked_value_to_register_`: refresh if due (its outcome is not
      consulted), merge `value` into the cached byte, and commit the merged
      byte to the cache only when the bus acknowledges the write of it. */
  function WriteField(c: Cache, limit: Millis, now: Millis, reply: ReadReply,
                      index: nat, mask: bv8, value: bv8, ack: bool): (r: FieldWrite)
    requires WellSized(c) && index < NumberOfRegisters
    ensures WellSized(r.cache)
    ensures r.ok == ack
  {
    var c' := Refresh(c, limit, now, reply);
    if ack then
      FieldWrite(c'.(registers := c'.registers[index := WrittenByte(c', index, mask, value)]), true)
    else
      FieldWrite(c', false)
  }

  /** What a masked write does to the state its refresh gate leaves: the flag and
      timer stay; when acknowledged, register `index` takes `value`'s bits inside
      `mask` and keeps its own outside, and no other register changes; when not
      acknowledged, nothing changes. */
  lemma WriteFieldEffect(c: Cache, limit: Millis, now: Millis, reply: ReadReply,
                         index: nat, mask: bv8, value: bv8, ack: bool)
    requires WellSized(c) && index < NumberOfRegisters
    ensures var r := WriteField(c, limit, now, reply, index, mask, value, ack);
      var c' := Refresh(c, limit, now, reply);
      && r.cache.communicatingOk == c'.communicatingOk
      && r.cache.refreshTimer == c'.refreshTimer
      && (forall k :: 0 <= k < NumberOfRegisters && k != index ==> r.cache.registers[k] == c'.registers[k])
      && (ack ==> r.cache.registers[index] & mask == value & mask)
      && (ack ==> r.cache.registers[index] & !mask == c'.registers[index] & !mask)
      && (!ack ==> r.cache == c')
  {
  }

  /** The byte a masked write sends to register `index`. */
  function WrittenByte(c: Cache, index: nat, mask: bv8, value: bv8): (b: bv8)
    requires WellSized(c) && index < NumberOfRegisters
    ensures b & mask == value & mask
    ensures b & !mask == c.registers[index] & !mask
  {
    Merge(c.registers[index], mask, value)
  }

  /** The gate passed through a sequence of calls: the final state. */
  function RefreshAll(c: Cache, limit: Millis, calls: seq<Call>): (r: Cache)
    requires WellSized(c)
    ensures WellSized(r)
    decreases |calls|
  {
    if calls == [] then c
    else RefreshAll(Refresh(c, limit, calls[0].now, calls[0].reply), limit, calls[1..])
  }

  /** The gate passed through a sequence of calls: the number of bus reads it issued. */
  function ReadsIssued(c: Cache, limit: Millis, calls: seq<Call>): (n: nat)
    requires WellSized(c)
    ensures n <= |calls|
    decreases |calls|
  {
    if calls == [] then 0
    else
      (if RefreshDue(calls[0].now, c.refreshTimer, limit) then 1 else 0)
      + ReadsIssued(Refresh(c, limit, calls[0].now, calls[0].reply), limit, calls[1..])
  }

  /** A read that completes leaves the whole cache equal to the received bytes. */
  lemma ReadRegistersSuccess(registers: seq<bv8>, reply: ReadReply)
    requires |registers| == NumberOfRegisters
    requires ReadRegisters(registers, NumberOfRegisters, reply).ok
    ensures ReadRegisters(registers, NumberOfRegisters, reply).registers == reply.stream[..NumberOfRegisters]
  {
  }

  /** A refresh that is not acknowledged or reports the wrong count leaves the cache byte for byte. */
  lemma FailedRefreshKeepsRegisters(c: Cache, limit: Millis, now: Millis, reply: ReadReply)
    requires WellSized(c)
    requires reply.PointerNack? || reply.count != NumberOfRegisters
    ensures Refresh(c, limit, now, reply).registers == c.registers
    ensures !Refresh(c, limit, now, reply).communicatingOk || !RefreshDue(now, c.refreshTimer, limit)
  {
  }

  /** A receive buffer that runs dry after `|stream| < 13` bytes overwrites exactly
      that prefix of the cache, keeps the rest, and reports failure. */
  lemma ShortStreamOverwritesPrefix(c: Cache, limit: Millis, now: Millis, stream: seq<bv8>)
    requires WellSized(c) && |stream| < NumberOfRegisters
    requires RefreshDue(now, c.refreshTimer, limit)
    ensures var r := Refresh(c, limit, now, Delivered(NumberOfRegisters, stream));
      && !r.communicatingOk
      && r.refreshTimer == now
      && r.registers == stream + c.registers[|stream|..]
  {
  }

  /** A refresh attempt stamps the timer with `now` whatever its outcome; the
      flag afterwards is that attempt's result. */
  lemma RefreshAttemptStampsTimer(c: Cache, limit: Millis, now: Millis, reply: ReadReply)
    requires WellSized(c) && RefreshDue(now, c.refreshTimer, limit)
    ensures Refresh(c, limit, now, reply).refreshTimer == now
    ensures !RefreshDue(now, Refresh(c, limit, now, reply).refreshTimer, limit)
  {
  }

  /** While every call falls within `limit` ms of the last refresh attempt, the gate
      issues no read and the state, flag included, stays exactly as it was. */
  lemma {:induction false} QuietWithinWindow(c: Cache, limit: Millis, calls: seq<Call>)
    requires WellSized(c)
    requires forall i :: 0 <= i < |calls| ==> Elapsed(calls[i].now, c.refreshTimer) <= limit
    ensures ReadsIssued(c, limit, calls) == 0
    ensures RefreshAll(c, limit, calls) == c
    decreases |calls|
  {
    if calls != [] {
      assert !RefreshDue(calls[0].now, c.refreshTimer, limit);
      assert forall i :: 0 <= i < |calls[1..]| ==> calls[1..][i] == calls[i + 1];
      QuietWithinWindow(c, limit, calls[1..]);
    }
  }

  /** Rate limiting: calls whose clock readings lie, in order, within one window
      of `limit` ms starting at `t0` cause at most one bus read, whatever the
      state they start from. */
  lemma {:induction false} AtMostOneReadPerWindow(c: Cache, limit: Millis, t0: Millis, calls: seq<Call>)
    requires WellSized(c)
    requires forall i :: 0 <= i < |calls| ==> Elapsed(calls[i].now, t0) <= limit
    requires forall i, j :: 0 <= i <= j < |calls| ==> Elapsed(calls[i].now, t0) <= Elapsed(calls[j].now, t0)
    ensures ReadsIssued(c, limit, calls) <= 1
    decreases |calls|
  {
    if calls != [] {
      var c' := Refresh(c, limit, calls[0].now, calls[0].reply);
      var rest := calls[1..];
      assert forall i :: 0 <= i < |rest| ==> rest[i] == calls[i + 1];
      if RefreshDue(calls[0].now, c.refreshTimer, limit) {
        forall i | 0 <= i < |rest|
          ensures Elapsed(rest[i].now, c'.refreshTimer) <= limit
        {
          WithinWindowAfter(t0, calls[0].now, rest[i].now, limit);
        }
        QuietWithinWindow(c', limit, rest);
      } else {
        AtMostOneReadPerWindow(c', limit, t0, rest);
      }
    }
  }

  /** Wrap-around arithmetic: a reading no further into the window than a later one
      lies within the window measured from the earlier one. */
  lemma WithinWindowAfter(t0: Millis, earlier: Millis, later: Millis, limit: Millis)
    requires Elapsed(earlier, t0) <= Elapsed(later, t0) <= limit
    ensures Elapsed(later, earlier) <= limit
  {
  }

  /** A masked read that succeeds returns no bit outside its mask, so (its mask being
      partial) it is never the sentinel; when it fails it is the sentinel. */
  lemma ReadFieldResult(c: Cache, limit: Millis, now: Millis, reply: ReadReply, f: Field)
    requires WellSized(c) && WellPlaced(f)
    ensures var r := ReadField(c, limit, now, reply, f.index, f.mask);
      && (r.cache.communicatingOk ==> r.value & !f.mask == 0)
      && (r.value == I2cError <==> !r.cache.communicatingOk)
  {
    var r := ReadField(c, limit, now, reply, f.index, f.mask);
    if r.cache.communicatingOk {
      NoPartialMaskYieldsSentinel(r.cache.registers[f.index], f.mask);
    }
  }

  /** Read-after-write: with no refresh issued in between and the link reported
      good, reading a field right after an acknowledged write of it yields
      `value & mask`, and the register's other bits are those it had before. */
  lemma WriteThenRead(c: Cache, limit: Millis, now1: Millis, reply1: ReadReply,
                      f: Field, value: bv8, now2: Millis, reply2: ReadReply)
    requires WellSized(c) && f.index < NumberOfRegisters
    requires var w := WriteField(c, limit, now1, reply1, f.index, f.mask, value, true);
      w.cache.communicatingOk && !RefreshDue(now2, w.cache.refreshTimer, limit)
    ensures var w := WriteField(c, limit, now1, reply1, f.index, f.mask, value, true);
      var r := ReadField(w.cache, limit, now2, reply2, f.index, f.mask);
      && r.value == value & f.mask
      && r.cache == w.cache
      && w.cache.registers[f.index] & !f.mask
         == Refresh(c, limit, now1, reply1).registers[f.index] & !f.mask
  {
  }

  /** An unacknowledged write leaves the state exactly as its refresh gate left it;
      with no refresh due, exactly as it was before the call. */
  lemma FailedWriteChangesNothing(c: Cache, limit: Millis, now: Millis, reply: ReadReply,
                                  index: nat, mask: bv8, value: bv8)
    requires WellSized(c) && index < NumberOfRegisters
    requires !RefreshDue(now, c.refreshTimer, limit)
    ensures WriteField(c, limit, now, reply, index, mask, value, false) == FieldWrite(c, false)
  {
  }

  /** Two acknowledged writes to the same field with no refresh between them leave
      the state a single write of the second value would have left: the later
      write decides, and writing the same value twice is writing it once. */
  lemma {:induction false} LaterWriteDecides(c: Cache, limit: Millis, now1: Millis, reply1: ReadReply,
                                             f: Field, first: bv8, now2: Millis, reply2: ReadReply, second: bv8)
    requires WellSized(c) && f.index < NumberOfRegisters
    requires var w := WriteField(c, limit, now1, reply1, f.index, f.mask, first, true);
      !RefreshDue(now2, w.cache.refreshTimer, limit)
    ensures var w := WriteField(c, limit, now1, reply1, f.index, f.mask, first, true);
      WriteField(w.cache, limit, now2, reply2, f.index, f.mask, second, true)
        == WriteField(c, limit, now1, reply1, f.index, f.mask, second, true)
  {
    var w := WriteField(c, limit, now1, reply1, f.index, f.mask, first, true);
    var w2 := WriteField(w.cache, limit, now2, reply2, f.index, f.mask, second, true);
    var once := WriteField(c, limit, now1, reply1, f.index, f.mask, second, true);
    var c' := Refresh(c, limit, now1, reply1);
    MergeLastWins(c'.registers[f.index], f.mask, first, second);
    assert w2.cache.registers == once.cache.registers;
  }
}
