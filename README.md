# TMC5130 register driver, modelled in Dafny

A model of the register-level core of a Rust driver for the Trinamic
TMC5130 stepper-motor controller. Each register access is one 40-bit SPI
datagram. Five bytes go out: a command byte (the register's 7-bit address,
with the write flag 0x80 OR'd in for a write) and four payload bytes
(zeros for a read, the little-endian value for a write). Five bytes come
back: the chip's status byte and four data bytes.

Modules, one per concern:

- `Registers` (registers.dfy): the closed table of 48 registers and their
  addresses, with the facts the transaction engine relies on.
- `Ints` (ints.dfy): Rust's `u8`, `u32` and `i32` as integer ranges, with
  bitwise OR and bit tests written out.
- `LeBytes` (le_bytes.dfy): `to_le_bytes` and `from_le_bytes` for `u32`
  and `i32`, with two's complement made explicit.
- `Status` (status.dfy): the `TmcStatus` getters, and the layout given in
  the comment above them for comparison.
- `Driver` (driver.dfy): the `TMC5130` object with its chip-select and
  enable levels, the frames, `transfer_data` and the six typed accessors.
- `Wrappers` (wrappers.dfy): `Option` and `Result`.

The SPI bus is an oracle. A transaction receives the five bytes the bus
leaves in the receive buffer and a flag saying whether the bus reported
success. A ghost trace records, in order, every level driven on
chip-select and enable and every frame clocked out. The driver's invariant
is that its pin fields match the trace and that every exchange in the
trace ran with chip-select low.

Where the code does something a reader might not expect, the model
follows the code:

- The status getters declare `stop_left` on bit 7 and `stop_right` on
  bit 6, but the comment above them says the reverse. They also put
  `velocity_reached`, `standstill`, `sg2`, `driver_error` and `reset_flag`
  all on bit 4, where the comment spreads them over bits 4 to 0.
  `Status.LayoutsAgreeIff` says exactly on which bytes the two readings
  agree.
- `transfer_data` returns on a bus error before it raises chip-select, so
  a failed exchange leaves the chip selected.
- Every accessor ignores the result of `transfer_data` (`let _ =`) and
  returns `Ok` even when the exchange failed.

## Model

| member | source | states |
|---|---|---|
| `Registers.Addr` | src/registers.rs:118-121 | `addr` is total, and every address is at most 0x73 (LOST_STEPS) |
| `Registers.WriteBitClear` | src/registers.rs:9-115 | bit 7 of every address is clear, so OR-ing in the write flag 0x80 gives address + 0x80 |
| `Registers.KnownAddresses` | src/registers.rs:9-115 | GCONF is 0x00, XACTUAL 0x21, VMAX 0x27, LOST_STEPS 0x73 |
| `Registers.DeclarationOrderIsAddressOrder` | src/registers.rs:9-115 | one register is declared before another if and only if its address is smaller |
| `Registers.AddrInjective` | src/registers.rs:4-121 | two registers have the same address if and only if they are the same register |
| `Registers.FromAddrInverts` | src/registers.rs:118-121 | reading a register's address back through the table yields that register |
| `Registers.AddressRange` | src/registers.rs:9-115 | GCONF has the smallest address and LOST_STEPS the largest |
| `Registers.Gaps` | src/registers.rs:52-93 | no register sits at 0x29, at 0x37 or at 0x61-0x67; the microstep table's base MSLUT_0_7 is at 0x60 |
| `Registers.CommandByte` | src/registers.rs:118-121 | a 7-bit address has bit 7 clear; OR-ing in 0x80 adds 0x80 and gives a byte with bit 7 set and the same address in bits 6..0 |
| `Ints.BitOr` | src/lib.rs:120 | bitwise OR is at least either operand and at most their sum |
| `Ints.BitOrBits` | src/lib.rs:120 | bit k of `a \| b` is set exactly when bit k of `a` or bit k of `b` is set, for every k |
| `Ints.BitOrHighBit` | src/lib.rs:120 | OR-ing 2^k into a number below 2^k adds 2^k |
| `Ints.BitOrBelow` | src/lib.rs:120 | OR of two numbers below 2^k is below 2^k, so `u8 \| u8` is a `u8` |
| `LeBytes.U32ToLe` | src/lib.rs:146 | `u32::to_le_bytes` yields four bytes, least significant first: byte 0 is the value mod 256, byte 3 its top eight bits; with `U32FromLe`'s contract and `U32RoundTrip` every byte is fixed |
| `LeBytes.U32FromLe` | src/lib.rs:168 | `u32::from_le_bytes`: input byte i becomes byte i of the value, counting from the least significant end, for i = 0..3 |
| `LeBytes.I32ToLe` | src/lib.rs:133 | `i32::to_le_bytes` yields the four little-endian bytes of the value's two's-complement pattern (the value mod 2^32); the last byte has bit 7 set exactly when the value is negative |
| `LeBytes.I32FromLe` | src/lib.rs:160 | `i32::from_le_bytes` gives the value that equals the bytes' unsigned little-endian reading mod 2^32, negative exactly when the last byte has bit 7 set |
| `LeBytes.U32RoundTrip` | src/lib.rs:146-168 | decoding the little-endian bytes of a `u32` gives the value back |
| `LeBytes.U32BytesRoundTrip` | src/lib.rs:146-168 | re-encoding the `u32` decoded from four bytes gives the same bytes |
| `LeBytes.I32RoundTrip` | src/lib.rs:133-160 | decoding the little-endian bytes of an `i32` gives the value back |
| `LeBytes.I32BytesRoundTrip` | src/lib.rs:133-160 | re-encoding the `i32` decoded from four bytes gives the same bytes |
| `LeBytes.Examples` | src/lib.rs:129-168 | -5 encodes as FB FF FF FF; 10 00 00 00 decodes to 16 signed and unsigned; FF FF FF FF decodes to -1 as `i32` |
| `Status.TmcStatus.StopLeft` | src/lib.rs:36 | set exactly for status bytes of 0x80 and above (bit 7) |
| `Status.TmcStatus.StopRight` | src/lib.rs:37 | set exactly when the byte mod 0x80 is at least 0x40 (bit 6) |
| `Status.TmcStatus.PositionReached` | src/lib.rs:38 | set exactly when the byte mod 0x40 is at least 0x20 (bit 5) |
| `Status.TmcStatus.VelocityReached` | src/lib.rs:39 | set exactly when the byte mod 0x20 is at least 0x10 (bit 4) |
| `Status.TmcStatus.Standstill` | src/lib.rs:40 | set exactly when the byte mod 0x20 is at least 0x10 (bit 4, as declared) |
| `Status.TmcStatus.Sg2` | src/lib.rs:41 | set exactly when the byte mod 0x20 is at least 0x10 (bit 4, as declared) |
| `Status.TmcStatus.DriverError` | src/lib.rs:42 | set exactly when the byte mod 0x20 is at least 0x10 (bit 4, as declared) |
| `Status.TmcStatus.ResetFlag` | src/lib.rs:43 | set exactly when the byte mod 0x20 is at least 0x10 (bit 4, as declared) |
| `Status.OverlappingFlags` | src/lib.rs:33-44 | velocity_reached, standstill, sg2, driver_error and reset_flag always read the same value (bit 4) |
| `Status.LowBitsIgnored` | src/lib.rs:36-43 | the getters never look at bits 3..0: bytes that differ only there decode to the same flags |
| `Status.LayoutsAgreeIff` | src/lib.rs:20-44 | the code's flags equal the commented layout's flags if and only if bits 7 and 6 are equal and bits 4..0 are all equal |
| `Status.Example81` | src/lib.rs:20-44 | for 0b1000_0001 the code reads only stop_left, while the commented layout reads stop_r and reset_flag |
| `Driver.AppendEvent` | src/lib.rs:64-77 | driving a pin changes only that pin's level, and the chip-select discipline survives any pin change and any exchange made while selected |
| `Driver.Transaction` | src/lib.rs:99-101 | the events of `transfer_data`: chip-select low first, then exactly one exchange of the transmit buffer, and chip-select raised again exactly when the bus succeeded |
| `Driver.TransactionEffect` | src/lib.rs:94-103 | one transaction keeps every exchange under chip-select low; afterwards chip-select is high exactly when the exchange succeeded; enable is untouched |
| `Driver.WriteCommand` | src/lib.rs:18-120 | the write command byte `addr \| WRITE_MASK` equals the address plus 0x80 |
| `Driver.ReadFrame` | src/lib.rs:106-108 | a read datagram is five bytes: a command byte with bit 7 clear and the register's address in bits 6..0, then four zero bytes |
| `Driver.WriteFrame` | src/lib.rs:118-124 | a write datagram is five bytes: a command byte with bit 7 set and the register's address in bits 6..0, then the four data bytes verbatim |
| `Driver.ReadFrameMeans` | src/lib.rs:105-108 | a read frame is a read (bit 7 clear) of exactly that register, with four zero payload bytes |
| `Driver.WriteFrameMeans` | src/lib.rs:113-124 | a write frame is a write (bit 7 set) of exactly that register, with the four data bytes verbatim |
| `Driver.ReadAndWriteFramesDiffer` | src/lib.rs:105-124 | no read frame equals any write frame |
| `Driver.WriteValueRoundTrip` | src/lib.rs:129-153 | the payload of `write_i32` or `write_u32` decodes little-endian to the value written |
| `Driver.ExampleFrames` | src/lib.rs:129-166 | reading XACTUAL sends 21 00 00 00 00; writing -5 to VMAX sends A7 FB FF FF FF |
| `Driver.ExampleRead` | src/lib.rs:155-168 | a receive buffer of [status, 0x10, 0, 0, 0] reads as 16 whatever the status byte |
| `Driver.Tmc5130.constructor` | src/lib.rs:54-62 | a new driver holds the pins at their given levels, with an empty trace |
| `Driver.Tmc5130.SetCs` | src/lib.rs:64-66 | chip-select goes high, enable is unchanged, the event is recorded |
| `Driver.Tmc5130.ClearCs` | src/lib.rs:68-70 | chip-select goes low, enable is unchanged, the event is recorded |
| `Driver.Tmc5130.SetEn` | src/lib.rs:72-74 | enable goes high, chip-select is unchanged, the event is recorded |
| `Driver.Tmc5130.ClearEn` | src/lib.rs:76-78 | enable goes low, chip-select is unchanged, the event is recorded |
| `Driver.Tmc5130.SpiTransfer` | src/lib.rs:100 | the bus clocks out the transmit buffer, which is left unchanged, while chip-select is low, and leaves the response in the receive buffer |
| `Driver.Tmc5130.TransferData` | src/lib.rs:94-103 | chip-select low, exchange, then chip-select high only on success; returns the status of response byte 0 on success, the bus error otherwise (chip-select left low) |
| `Driver.Tmc5130.ReadRegister` | src/lib.rs:105-111 | sends the read frame and returns `Ok` with all five received bytes, even when the bus failed |
| `Driver.Tmc5130.WriteRegister` | src/lib.rs:113-127 | sends the write frame with the data verbatim and returns `Ok` with all five received bytes, even when the bus failed |
| `Driver.Tmc5130.WriteI32` | src/lib.rs:129-140 | sends the write frame with the value's little-endian bytes and returns `Ok` with the received bytes |
| `Driver.Tmc5130.WriteU32` | src/lib.rs:142-153 | as `WriteI32`, for an unsigned value |
| `Driver.Tmc5130.ReadI32` | src/lib.rs:155-161 | sends the read frame and returns `Ok` with received bytes 1..4 decoded as a little-endian `i32`, ignoring the status byte, even when the bus failed |
| `Driver.Tmc5130.ReadU32` | src/lib.rs:163-169 | as `ReadI32`, decoded as a `u32` |

## Left out

- `diag0` and `diag1` (src/lib.rs:80-92): they read foreign input pins and panic when the read fails, so they carry no protocol behaviour to model.
- The SPI bus itself, `SpiBus::transfer` (src/lib.rs:100): it is a foreign async transport. Its result is an oracle parameter, and nothing about await points or suspension is modelled.
- Receive-buffer contents after a bus error: the model lets the oracle's bytes stand for whatever the bus left in the buffer, in both outcomes.
- Pin driving errors (src/lib.rs:64-78): the code discards them, and the model treats every `set_high` and `set_low` as succeeding. Pins are bare levels, not the generic `OutputPin`/`InputPin` types.
- The panic of `rx_buffer[0]` on an empty receive buffer after a successful transfer: `Driver.Tmc5130.TransferData` requires a non-empty receive buffer when the bus succeeds. The accessors always pass five bytes.
- The code that `bitfield!`, `Debug` and `defmt::Format` generate: the getters are modelled directly as bit tests.
- The block comment at the end of src/registers.rs: it is documentation only, and it lacks ENCMODE (0x38).
