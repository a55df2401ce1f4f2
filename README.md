# BQ25186 register-cache engine, modelled in Dafny

The BQ25186 driver keeps a 13-byte mirror of the charger's register file. It also keeps a sticky "communicating OK" flag, a refresh timestamp and a 1000 ms refresh rate limit. Every field accessor goes through one of two operations:
- A masked read. It passes through a rate-limited refresh gate, then returns `registers[index] & mask`, or the `0xFF` sentinel when the device cannot be read.
- A read-modify-write masked write. It passes through the same gate, merges the value into the cached byte under the mask, and writes the merged byte to the bus. The cache is updated only when the bus acknowledges.

On top of the engine sit two conversions:
- the charge-current encoder and decoder of register 0x04;
- the battery undervoltage-lockout table of register 0x06.

The header's masks and named field values are constants, and lemmas state how they relate to the fields they belong to.

Files:
- `header.dfy` (`Header`): geometry, bus address, the time and `uint16_t` types, bit masks and named values.
- `fields.dfy` (`Fields`): each accessor as a `Field(index, mask)`, the merge of a masked write, and lemmas relating named values to their fields.
- `engine.dfy` (`CacheEngine`): the engine as pure functions over a `Cache` value, with the engine's guarantees as lemmas. This is the specification.
- `conversions.dfy` (`Conversions`): the charge-current code and the BUVLO table.
- `driver.dfy` (`Driver`): the `Bq25186` class.
  - Its state is the register `array<bv8>`, the flag, the timer and the rate limit.
  - It has a ghost transcript of bus transactions.
  - Each method is proved to leave the state the corresponding `CacheEngine` function computes. Each also states the exact bus transactions it issues.
  - A field `portAttached` stands for the transport pointer, which is null until `begin` sets it. Every method that can reach the bus requires it, on exactly the paths where the source dereferences the pointer: a getter only when its refresh is due, `set_ichg` only for an accepted request.

How the outside world is represented:
- The I²C bus is an oracle. A bulk read is answered by a `ReadReply`: either `PointerNack`, or `Delivered(count, stream)`, where `count` is what `requestFrom` reports and `stream` is what `available()`/`read()` then yield. A register write is answered by an acknowledgement bit `ack`.
- The clock `millis()` is a parameter `now`, in 32-bit milliseconds. Elapsed time is computed with explicit wrap-around.
- C's integer rules are written out:
  - promotion to `int`;
  - division truncating toward zero (`TruncDiv`);
  - conversion to `uint8_t` modulo 256 (`ToUint8`).

Behaviour modelled as the code has it:
- After a failed refresh, a masked read returns `0xFF`, not the stale cached byte.
- The timer is stamped before the bulk read, whatever the read's outcome.
- `begin` does not stamp the timer.
- A receive buffer that runs dry early leaves the first bytes overwritten and the rest stale.
- Register contents start unspecified.
- `set_ichg` and the ILIM accessors are modelled as written, bugs included. The corrected ILIM field `Fields.Ilim` and the corrected code `Conversions.IchgCode` appear only in the Findings and their lemmas.

## Model

| member | source | states |
|---|---|---|
| Header.NoDefinedMaskIsTheSentinel | src/bq25186.h:19-40 | no mask the header defines is `0xFF`, and no byte masked with one of them is the sentinel |
| Header.NoPartialMaskYieldsSentinel | src/bq25186.h:40 | a byte masked with anything but the full byte is never the `0xFF` sentinel |
| Fields.Merge | src/bq25186.cpp:200 | the merged byte has `value`'s bits inside `mask` and the cached byte's bits outside it |
| Fields.MergeLastWins | src/bq25186.cpp:200 | of two merges under one mask the second decides the byte; merging the same value again changes nothing |
| Fields.AccessorsWellPlaced | src/bq25186.cpp:216-533 | every accessor's register index is below 13 and below the default read length, and its mask is neither empty nor the full byte |
| Fields.AccessorReadIsNotSentinel | src/bq25186.cpp:216-533 | a successful read through any accessor never equals the sentinel |
| Fields.NamedValuesFitStatusFields | src/bq25186.h:44-113 | each named value of the two-state status and fault groups of registers 0x00-0x02 sets no bit outside its accessor's mask; the charge-status and TS-status groups are covered by `ChargeStatusEnumerated` and `TsStatusEnumerated` |
| Fields.NamedValuesFitControlFields | src/bq25186.h:116-241 | each named value of registers 0x03-0x06 other than the BUVLO codes, of register 0x08's long-press, MR-reset and autowake groups, and of registers 0x09-0x0a sets no bit outside its accessor's mask; the BUVLO group is covered by `BuvloCodesEnumerated` and the ILIM group by `IlimCodesEnumerated` and `IlimAsWrittenIsAutowake` |
| Fields.ChargeStatusEnumerated | src/bq25186.h:47-50 | the four charge-status values fit field 6:5, are distinct, and every byte's field 6:5 is one of them |
| Fields.TsStatusEnumerated | src/bq25186.h:75-78 | the four TS-status values fit field 4:3 of register 0x01, are distinct, and cover every case |
| Fields.BuvloCodesEnumerated | src/bq25186.h:152-159 | the eight BUVLO codes fit field 5:3, are distinct, and cover every case |
| Fields.SysRegulationCodesEnumerated | src/bq25186.h:222-229 | the eight system-regulation codes fit field 7:5 of register 0x0a, are distinct, and cover every case |
| Fields.IlimCodesEnumerated | src/bq25186.h:188-195 | the eight ILIM codes fit bits 2:0 of register 0x08, are distinct, and cover every case; that field is disjoint from autowake's |
| Fields.IlimAsWrittenIsAutowake | src/bq25186.cpp:459-470 | the ILIM accessors' field is the autowake field; no ILIM code but 50 mA fits it; every ILIM write sets autowake to 0.5 s and leaves bits 2:0 as they were |
| CacheEngine.RefreshDue | src/bq25186.cpp:85 | a call in the same millisecond as the last attempt is never due; with a zero limit, any other call is |
| CacheEngine.Elapsed | src/bq25186.cpp:85 | the elapsed time is the 32-bit unsigned difference: adding it to the timer, modulo 2^32, gives `now` |
| CacheEngine.ReadRegisters | src/bq25186.cpp:96-131 | the cache size is kept. Success holds exactly when the pointer write is acknowledged, the count equals `length` and the buffer holds `length` bytes. A NACK or a wrong count leaves the cache unchanged. Otherwise byte k of the stream lands at index k from 0 on while the stream lasts. Indices from `length` on are kept |
| CacheEngine.ReadRegistersSuccess | src/bq25186.cpp:102-113 | a complete 13-byte read leaves the cache equal to the received bytes |
| CacheEngine.Refresh | src/bq25186.cpp:84-95 | the refresh gate keeps the cache at 13 registers |
| CacheEngine.RefreshGate | src/bq25186.cpp:84-95 | when no refresh is due the state, flag included, is unchanged; when due, the timer becomes `now` and registers and flag are the bulk read's |
| CacheEngine.FailedRefreshKeepsRegisters | src/bq25186.cpp:92-131 | a refresh answered by a NACK or a wrong count leaves every cached byte, and the flag is false whenever the read was issued |
| CacheEngine.ShortStreamOverwritesPrefix | src/bq25186.cpp:101-121 | a buffer that runs dry after fewer than 13 bytes overwrites exactly that prefix, keeps the rest, and reports failure |
| CacheEngine.RefreshAttemptStampsTimer | src/bq25186.cpp:85-92 | a refresh attempt stamps the timer with `now` whatever its outcome, so an immediate second call is not due |
| CacheEngine.QuietWithinWindow | src/bq25186.cpp:84-95 | calls all within `limit` of the last attempt issue no read and leave the state exactly as it was |
| CacheEngine.AtMostOneReadPerWindow | src/bq25186.cpp:84-95 | calls whose clock readings lie in order inside one `limit`-long window issue at most one bus read, from any starting state |
| CacheEngine.WithinWindowAfter | src/bq25186.cpp:85 | under wrap-around, a reading no later in the window than another lies within `limit` of it |
| CacheEngine.ReadsIssued | src/bq25186.cpp:84-95 | a sequence of gate calls issues at most one read per call |
| CacheEngine.ReadField | src/bq25186.cpp:132-138 | the state is the refresh gate's; the value is `registers[index] & mask` when the flag is set and `0xFF` otherwise |
| CacheEngine.ReadFieldResult | src/bq25186.cpp:132-138 | for a well-placed field, a successful read has no bit outside the mask, and the value is the sentinel exactly when the flag is false |
| CacheEngine.WriteField | src/bq25186.cpp:179-214 | the masked write reports exactly the bus's acknowledgement and keeps the cache at 13 registers |
| CacheEngine.WriteFieldEffect | src/bq25186.cpp:191-214 | after the gate, the flag and timer are kept and no other register changes. When acknowledged, register `index` takes `value`'s bits inside `mask` and keeps its own outside. When not acknowledged, the state is the gate's |
| CacheEngine.WriteThenRead | src/bq25186.cpp:179-214 | after an acknowledged write that leaves the flag set, a read of the same field with no refresh in between returns `value & mask`, changes nothing, and the register's other bits are the ones it had |
| CacheEngine.WrittenByte | src/bq25186.cpp:200 | the byte sent has `value`'s bits inside `mask` and the cached register's bits outside it |
| CacheEngine.FailedWriteChangesNothing | src/bq25186.cpp:209-213 | an unacknowledged write with no refresh due leaves the whole state unchanged and returns false |
| CacheEngine.LaterWriteDecides | src/bq25186.cpp:200-212 | two acknowledged writes to one field with no refresh in between leave the state a single write of the second value leaves |
| Conversions.TruncDiv | src/bq25186.cpp:332 | the quotient is truncated toward zero: the floor bound for non-negative dividends, the ceiling bound for negative ones |
| Conversions.ToUint8 | src/bq25186.cpp:330-335 | the stored byte's value is the integer modulo 256 |
| Conversions.IchgCodeNumber | src/bq25186.cpp:330-335 | the number computed for a request of 5..1000 mA is 0..127; for one below 5 mA it is negative |
| Conversions.DecodeIchg | src/bq25186.cpp:320-326 | the decoded current is 0 exactly on the sentinel, and 5..1000 mA for any seven-bit field |
| Conversions.IchgCodeAsWritten | src/bq25186.cpp:328-339 | `set_ichg` as written refuses exactly the requests above 1000 mA |
| Conversions.IchgCode | src/bq25186.cpp:328-339 | exactly requests below 5 mA or above 1000 mA are refused; an accepted code fits bits 6:0 and agrees with the code as written |
| Conversions.IchgCodeValue | src/bq25186.cpp:331-335 | for an accepted request the computed code is 0..127 and survives the conversion to a byte unchanged |
| Conversions.DecodeIchgRange | src/bq25186.cpp:318-327 | codes 0..31 decode to 5..36 mA (code + 5), codes 32..127 to multiples of 10 in 50..1000 mA; the sentinel decodes to 0 |
| Conversions.IchgRoundTrip | src/bq25186.cpp:318-339 | decoding the masked code of a request reproduces it for 5..36 mA and for multiples of 10 in 50..1000 mA |
| Conversions.IchgNearest | src/bq25186.cpp:318-339 | every accepted request decodes back to within 9 mA of itself |
| Conversions.IchgBelowFiveAsWritten | src/bq25186.cpp:334 | as written, a request of 0..4 mA is accepted with code 251..255, which decodes to 960..1000 mA |
| Conversions.BuvloDecivolts | src/bq25186.cpp:379-408 | the sentinel gives 0; every result is 0 or an even threshold of 20..30 decivolts |
| Conversions.BuvloTableTotal | src/bq25186.cpp:378-409 | every masked BUVLO field maps to an even threshold of 20..30 decivolts, non-increasing in the code |
| Conversions.BuvloZeroOnlyOnSentinel | src/bq25186.cpp:378-409 | the fallback 0 is returned exactly when the masked read failed |
| Driver.Bq25186.constructor | src/bq25186.h:352-357 | flag false, timer 0, rate limit 1000 ms, address 0x6a, 13 registers with unspecified contents, no transport attached, no bus traffic |
| Driver.Bq25186.Begin | src/bq25186.cpp:23-40 | attaches the transport, then one 13-byte bulk read whose outcome becomes the flag and the result; the timer is untouched |
| Driver.Bq25186.ReadRegisters | src/bq25186.cpp:96-131 | needs the transport attached; the loop leaves the array and result that `CacheEngine.ReadRegisters` gives, after one bulk-read attempt |
| Driver.Bq25186.AutoRefreshAllRegisters | src/bq25186.cpp:84-95 | needs the transport only when a refresh is due; the new state is `CacheEngine.Refresh` of the old; the result is the stored flag; a read is issued exactly when due |
| Driver.Bq25186.ReadBitmaskedValue | src/bq25186.cpp:132-138 | state and value are `CacheEngine.ReadField`'s; the only bus traffic is the gate's |
| Driver.Bq25186.WriteRegister | src/bq25186.cpp:139-178 | needs the transport attached; one register-write transaction; the result is the acknowledgement |
| Driver.Bq25186.WriteBitmaskedValue | src/bq25186.cpp:179-214 | state and result are `CacheEngine.WriteField`'s; the bus sees the gate's read, if due, then one write of the merged byte |
| Driver.Bq25186.StoreMerged | src/bq25186.cpp:200-213 | the merged byte is written and stored in the array only when acknowledged |
| Driver.Bq25186.GetField | src/bq25186.cpp:216-533 | any getter is `CacheEngine.ReadField` of its field; the value is the sentinel exactly when the flag is false and otherwise has no bit outside the mask |
| Driver.Bq25186.SetField | src/bq25186.cpp:294-532 | any one-line setter is `CacheEngine.WriteField` of its field; the bus sees the gate's read, if due, then one write of the merged byte to the field's register |
| Driver.Bq25186.GetIchg | src/bq25186.cpp:318-327 | the result decodes the masked read; it is 0 exactly when the flag is false; the only bus traffic is the gate's |
| Driver.Bq25186.SetIchg | src/bq25186.cpp:328-339 | a request above 1000 mA returns false with no bus traffic and no change, transport attached or not; any other, 0..4 mA included, is the masked write of its code as written to bits 6:0 of register 0x04, with the gate's read, if due, and one register write on the bus |
| Driver.Bq25186.GetBuvlo | src/bq25186.cpp:378-409 | the result is the table entry of the masked read; it is 0 exactly when the flag is false; the only bus traffic is the gate's |

## Left out

- The `Wire`/`TwoWire` transport (`beginTransmission`, `write`, `endTransmission`, `requestFrom`, `available`, `read`) is a foreign library. It is replaced by the `ReadReply`/`ack` oracle, and its error codes collapse to acknowledged or not.
- `millis()` is a parameter. The gate reads the clock twice, once to compare and once to store. Both readings are taken to be the same `now`, so the few milliseconds between them are not modelled.
- The `stop` argument of `read_registers_` and `write_register_` only shapes the bus framing. It is not modelled.
- The debug path has no effect on the cache and is not modelled: `debug`, `printHex`, `printBinary`, `print_registers` and every debug-only block.
- The floating-point conversions are not modelled: `get_vbatreg`/`set_vbatreg` and `set_buvlo`'s threshold ladder. `get_buvlo` returns an integer number of decivolts instead of a `float` in volts. The vbatreg field is still reachable through `SetField`/`GetField` with `Fields.Vbatreg`.
- The constructor leaves the register array's contents unspecified, as the source leaves them uninitialised.
- The one-line accessors are not separate methods. They are the constants of `Fields` passed to `Driver.Bq25186.GetField`/`SetField`.
- `BQ25186_ILIM_665_MA` and `BQ25186_ILIM_1050_MA` are defined with mask names the header never defines (`BITMASK_2_1`, `BITMASK_2_0`), so any code that uses them fails to compile. The model gives them `0x06` and `0x07`, the values those names stand for under the header's naming scheme.
- Register 0x07 has no accessor in the source, so it has none here.

## Findings

| source | as written | input that shows it | evidently intended | confidence | as-written member | corrected member |
|---|---|---|---|---|---|---|
| src/bq25186.cpp:329-335 | `set_ichg` checks only `value <= 1000`, so `value - 5` wraps for 0..4 mA to codes 251..255, whose low seven bits command 960..1000 mA | `set_ichg(0)` writes code `0xFB`, field `0x7B`, which `get_ichg` reads as 960 mA | requests below the 5 mA minimum are refused like those above 1000 mA | not executed; high | Conversions.IchgBelowFiveAsWritten | Conversions.IchgCode |
| src/bq25186.cpp:465-470 | `get_ilim`/`set_ilim` use mask 4:3, the autowake field, while the ILIM codes occupy bits 2:0 | `set_ilim(BQ25186_ILIM_500_MA)` (`0x05`) writes autowake 0.5 s and leaves the input current limit unchanged | the ILIM accessors use bits 2:0 of register 0x08 | not executed; high | Fields.IlimAsWrittenIsAutowake | Fields.IlimCodesEnumerated |
