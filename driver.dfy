/** The TMC5130 driver object and its register transactions (src/lib.rs).

    Every transaction is one 40-bit SPI datagram: a command byte (the
    register address, with 0x80 OR'd in for a write) and four payload
    bytes go out while the status byte and four data bytes come back.

    The SPI bus is not modelled: each transaction takes the five bytes the
    bus delivers into the receive buffer and whether the bus reported
    success, and records the frame it clocked out in a ghost trace of
    everything the chip-select pin, the enable pin and the bus saw.  The
    pins are their levels (true = high); driving them never fails. */
module Driver {
  import opened Ints
  import opened Wrappers
  import opened LeBytes
  import opened Registers
  import opened Status

  /** OR'd into the command byte of a write. */
  const WRITE_MASK: U8 := 0x80

  /** The error the SPI bus reports (`SpiBus::Error`). */
  datatype BusError = TransferFailed

  /** One observable step on the pins or the bus. */
  datatype Event =
    | Cs(high: bool)               // chip-select driven to a level
    | En(high: bool)               // enable driven to a level
    | Exchange(tx: seq<U8>)        // a full-duplex transfer clocking out tx

  // ---------------------------------------------------------------------
  // Pin levels and the chip-select discipline, read off a trace

  /** The chip-select level after `t`, starting from `init`. */
  function CsLevel(init: bool, t: seq<Event>): bool
    decreases |t|
  {
    if t == [] then init
    else if t[|t| - 1].Cs? then t[|t| - 1].high
    else CsLevel(init, t[..|t| - 1])
  }

  /** The enable level after `t`, starting from `init`. */
  function EnLevel(init: bool, t: seq<Event>): bool
    decreases |t|
  {
    if t == [] then init
    else if t[|t| - 1].En? then t[|t| - 1].high
    else EnLevel(init, t[..|t| - 1])
  }

  /** Every exchange in `t` happens while chip-select is low (active). */
  ghost predicate SelectedDuringExchanges(init: bool, t: seq<Event>)
  {
    forall i :: 0 <= i < |t| && t[i].Exchange? ==> !CsLevel(init, t[..i])
  }

  /** Appending one event: the levels follow it, and the discipline is kept
      as long as an exchange is only appended while chip-select is low. */
  lemma {:induction false} AppendEvent(csInit: bool, enInit: bool, t: seq<Event>, e: Event)
    requires SelectedDuringExchanges(csInit, t)
    requires e.Exchange? ==> !CsLevel(csInit, t)
    ensures SelectedDuringExchanges(csInit, t + [e])
    ensures CsLevel(csInit, t + [e]) == if e.Cs? then e.high else CsLevel(csInit, t)
    ensures EnLevel(enInit, t + [e]) == if e.En? then e.high else EnLevel(enInit, t)
  {
    var t' := t + [e];
    assert t'[..|t|] == t;
    forall i | 0 <= i < |t'| && t'[i].Exchange?
      ensures !CsLevel(csInit, t'[..i])
    {
      if i < |t| {
        assert t'[..i] == t[..i];
      }
    }
  }

  /** The events of one `transfer_data`: chip-select low, the exchange,
      and chip-select high again only if the bus reported success. */
  function Transaction(tx: seq<U8>, ok: bool): (t: seq<Event>)
    ensures |t| >= 2 && t[0] == Cs(false) && t[1] == Exchange(tx)
    ensures forall i :: 0 <= i < |t| ==> (t[i].Exchange? <==> i == 1)
    ensures Cs(true) in t <==> ok
  {
    [Cs(false), Exchange(tx)] + if ok then [Cs(true)] else []
  }

  /** A transaction keeps the chip-select discipline; afterwards
      chip-select is high exactly when the exchange succeeded (a failed one
      leaves the chip selected), and the enable line is untouched. */
  lemma TransactionEffect(csInit: bool, enInit: bool, t: seq<Event>, tx: seq<U8>, ok: bool)
    requires SelectedDuringExchanges(csInit, t)
    ensures SelectedDuringExchanges(csInit, t + Transaction(tx, ok))
    ensures CsLevel(csInit, t + Transaction(tx, ok)) == ok
    ensures EnLevel(enInit, t + Transaction(tx, ok)) == EnLevel(enInit, t)
  {
    AppendEvent(csInit, enInit, t, Cs(false));
    AppendEvent(csInit, enInit, t + [Cs(false)], Exchange(tx));
    assert t + [Cs(false)] + [Exchange(tx)] == t + [Cs(false), Exchange(tx)];
    if ok {
      AppendEvent(csInit, enInit, t + [Cs(false), Exchange(tx)], Cs(true));
      assert t + [Cs(false), Exchange(tx)] + [Cs(true)] == t + Transaction(tx, ok);
    } else {
      assert t + [Cs(false), Exchange(tx)] == t + Transaction(tx, ok);
    }
  }

  // ---------------------------------------------------------------------
  // Frames

  /** The command byte of a write: the address with the write flag OR'd
      in; since bit 7 of every address is clear, that adds 0x80. */
  function WriteCommand(r: Register): (c: U8)
    ensures c == Addr(r) + 0x80
  {
    WriteBitClear(r);
    BitOr(Addr(r), WRITE_MASK)
  }

  /** The frame a read sends: the bare address, then four zero bytes. */
  function ReadFrame(r: Register): (f: seq<U8>)
    ensures |f| == 5
    ensures !Bit(f[0], 7) && f[0] % 0x80 == Addr(r)
    ensures f[1..] == [0, 0, 0, 0]
  {
    CommandByte(Addr(r));
    [Addr(r), 0, 0, 0, 0]
  }

  /** The frame a write sends: the write command, then the payload. */
  function WriteFrame(r: Register, data: seq<U8>): (f: seq<U8>)
    requires |data| == 4
    ensures |f| == 5
    ensures Bit(f[0], 7) && f[0] % 0x80 == Addr(r)
    ensures f[1..] == data
  {
    CommandByte(Addr(r));
    [WriteCommand(r)] + data
  }

  /** A datagram as the chip reads it: bit 7 of the first byte selects a
      write, bits 6..0 the register, the rest is the payload. */
  datatype Command = Command(write: bool, register: Option<Register>, payload: seq<U8>)

  function Interpret(f: seq<U8>): Command
    requires |f| == 5
  {
    Command(Bit(f[0], 7), FromAddr(f[0] % 0x80), f[1..])
  }

  /** A read frame is a read of exactly that register with a zero payload. */
  lemma ReadFrameMeans(r: Register)
    ensures Interpret(ReadFrame(r)) == Command(false, Some(r), [0, 0, 0, 0])
  {
    var a := Addr(r);
    CommandByte(a);
    FromAddrInverts(r);
    var f := ReadFrame(r);
    assert f[0] == a && f[1..] == [0, 0, 0, 0];
  }

  /** A write frame is a write of exactly that register carrying the
      payload verbatim. */
  lemma WriteFrameMeans(r: Register, data: seq<U8>)
    requires |data| == 4
    ensures Interpret(WriteFrame(r, data)) == Command(true, Some(r), data)
  {
    var a := Addr(r);
    CommandByte(a);
    FromAddrInverts(r);
    var f := WriteFrame(r, data);
    assert f[0] == a + 0x80 && f[1..] == data;
  }

  /** Reads and writes never produce the same frame. */
  lemma ReadAndWriteFramesDiffer(r: Register, s: Register, data: seq<U8>)
    requires |data| == 4
    ensures ReadFrame(r) != WriteFrame(s, data)
  {
    ReadFrameMeans(r);
    WriteFrameMeans(s, data);
  }

  /** The payload of `write_i32` / `write_u32` decodes, little-endian, to
      the value written. */
  lemma WriteValueRoundTrip(r: Register, v: I32, u: U32)
    ensures I32FromLe(Interpret(WriteFrame(r, I32ToLe(v))).payload) == v
    ensures U32FromLe(Interpret(WriteFrame(r, U32ToLe(u))).payload) == u
  {
    WriteFrameMeans(r, I32ToLe(v));
    WriteFrameMeans(r, U32ToLe(u));
    I32RoundTrip(v);
    U32RoundTrip(u);
  }

  /** Reading XACTUAL sends 21 00 00 00 00, and writing -5 to VMAX sends
      A7 FB FF FF FF, byte for byte. */
  lemma ExampleFrames()
    ensures ReadFrame(XACTUAL) == [0x21, 0x00, 0x00, 0x00, 0x00]
    ensures WriteFrame(VMAX, I32ToLe(-5)) == [0xA7, 0xFB, 0xFF, 0xFF, 0xFF]
  {
    KnownAddresses();
    assert WriteCommand(VMAX) == 0xA7;
    Examples();
  }

  /** The value read back from a receive buffer ignores the status byte:
      [0x00, 0x10, 0, 0, 0] reads as 16, whatever the status says. */
  lemma ExampleRead(status: U8)
    ensures U32FromLe([status, 0x10, 0, 0, 0][1..5]) == 16
    ensures I32FromLe([status, 0x10, 0, 0, 0][1..5]) == 16
  {
    assert [status, 0x10, 0, 0, 0][1..5] == [0x10, 0, 0, 0];
    Examples();
  }

  // ---------------------------------------------------------------------
  // The driver

  /** `TMC5130`: the chip-select and enable lines, and the trace of what
      the pins and the bus have seen since construction. */
  class Tmc5130 {
    var cs: bool
    var en: bool
    ghost var trace: seq<Event>
    ghost const cs0: bool
    ghost const en0: bool

    /** The pin fields are the levels the trace drove them to, and every
        exchange so far ran with the chip selected. */
    ghost predicate Valid()
      reads this
    {
      && cs == CsLevel(cs0, trace)
      && en == EnLevel(en0, trace)
      && SelectedDuringExchanges(cs0, trace)
    }

    /** `new`: takes the pins at whatever level they are. */
    constructor (csLevel: bool, enLevel: bool)
      ensures Valid()
      ensures cs == csLevel && en == enLevel && trace == []
    {
      cs, en := csLevel, enLevel;
      cs0, en0 := csLevel, enLevel;
      trace := [];
    }

    /** Drives chip-select to `level`, recording it. */
    method DriveCs(level: bool)
      requires Valid()
      modifies this
      ensures Valid()
      ensures cs == level && en == old(en) && trace == old(trace) + [Cs(level)]
    {
      AppendEvent(cs0, en0, trace, Cs(level));
      cs := level;
      trace := trace + [Cs(level)];
    }

    /** Drives enable to `level`, recording it. */
    method DriveEn(level: bool)
      requires Valid()
      modifies this
      ensures Valid()
      ensures en == level && cs == old(cs) && trace == old(trace) + [En(level)]
    {
      AppendEvent(cs0, en0, trace, En(level));
      en := level;
      trace := trace + [En(level)];
    }

    /** `set_cs`: chip-select high (released). */
    method SetCs()
      requires Valid()
      modifies this
      ensures Valid()
      ensures cs && en == old(en) && trace == old(trace) + [Cs(true)]
    {
      DriveCs(true);
    }

    /** `clear_cs`: chip-select low (selected). */
    method ClearCs()
      requires Valid()
      modifies this
      ensures Valid()
      ensures !cs && en == old(en) && trace == old(trace) + [Cs(false)]
    {
      DriveCs(false);
    }

    /** `set_en`: enable high. */
    method SetEn()
      requires Valid()
      modifies this
      ensures Valid()
      ensures en && cs == old(cs) && trace == old(trace) + [En(true)]
    {
      DriveEn(true);
    }

    /** `clear_en`: enable low. */
    method ClearEn()
      requires Valid()
      modifies this
      ensures Valid()
      ensures !en && cs == old(cs) && trace == old(trace) + [En(false)]
    {
      DriveEn(false);
    }

    /** The bus collaborator (`SpiBus::transfer`): clocks `tx` out while
        chip-select is low and leaves `response` in `rx`.  Whether the bus
        reports success is the caller's `ok`; the buffer is filled either
        way. */
    method SpiTransfer(rx: array<U8>, tx: array<U8>, response: seq<U8>)
      requires Valid() && !cs
      requires rx != tx
      requires |response| == rx.Length
      modifies this, rx
      ensures Valid()
      ensures rx[..] == response && tx[..] == old(tx[..])
      ensures trace == old(trace) + [Exchange(tx[..])]
      ensures cs == old(cs) && en == old(en)
    {
      AppendEvent(cs0, en0, trace, Exchange(tx[..]));
      trace := trace + [Exchange(tx[..])];
      forall i | 0 <= i < rx.Length {
        rx[i] := response[i];
      }
    }

    /** `transfer_data`: select the chip, exchange `tx` for `response`
        (the bytes the bus leaves in `rx`, and whether it succeeded), and
        release the chip.  A bus error returns at once, before chip-select
        is raised.  On success the first received byte is the status. */
    method TransferData(rx: array<U8>, tx: array<U8>, response: seq<U8>, ok: bool)
      returns (res: Result<TmcStatus, BusError>)
      requires Valid()
      requires rx != tx
      requires |response| == rx.Length
      requires ok ==> rx.Length > 0
      modifies this, rx
      ensures Valid()
      ensures rx[..] == response
      ensures trace == old(trace) + Transaction(tx[..], ok)
      ensures cs == ok && en == old(en)
      ensures res == if ok then Ok(TmcStatus(response[0])) else Err(TransferFailed)
    {
      ClearCs();
      SpiTransfer(rx, tx, response);
      if !ok {
        return Err(TransferFailed);
      }
      SetCs();
      res := Ok(TmcStatus(rx[0]));
    }

    /** `read_register`: a read datagram for `r`; all five received bytes
        come back, status byte included, and a bus error is dropped. */
    method ReadRegister(r: Register, response: seq<U8>, ok: bool)
      returns (res: Result<seq<U8>, BusError>)
      requires Valid()
      requires |response| == 5
      modifies this
      ensures Valid()
      ensures res == Ok(response)
      ensures trace == old(trace) + Transaction(ReadFrame(r), ok)
      ensures cs == ok && en == old(en)
    {
      var tx := new U8[5](_ => 0);
      var rx := new U8[5](_ => 0);
      tx[0] := Addr(r);
      assert tx[..] == ReadFrame(r);
      var discarded := TransferData(rx, tx, response, ok);
      res := Ok(rx[..]);
    }

    /** `write_register`: a write datagram carrying `data` verbatim; all
        five received bytes come back, and a bus error is dropped. */
    method WriteRegister(r: Register, data: seq<U8>, response: seq<U8>, ok: bool)
      returns (res: Result<seq<U8>, BusError>)
      requires Valid()
      requires |data| == 4 && |response| == 5
      modifies this
      ensures Valid()
      ensures res == Ok(response)
      ensures trace == old(trace) + Transaction(WriteFrame(r, data), ok)
      ensures cs == ok && en == old(en)
    {
      var tx := new U8[5](_ => 0);
      var rx := new U8[5](_ => 0);
      tx[0] := WriteCommand(r);
      tx[1] := data[0];
      tx[2] := data[1];
      tx[3] := data[2];
      tx[4] := data[3];
      assert tx[..] == WriteFrame(r, data);
      var discarded := TransferData(rx, tx, response, ok);
      res := Ok(rx[..]);
    }

    /** `write_i32`: a write datagram carrying the little-endian bytes of
        `value`; all five received bytes come back, a bus error is dropped. */
    method WriteI32(r: Register, value: I32, response: seq<U8>, ok: bool)
      returns (res: Result<seq<U8>, BusError>)
      requires Valid()
      requires |response| == 5
      modifies this
      ensures Valid()
      ensures res == Ok(response)
      ensures trace == old(trace) + Transaction(WriteFrame(r, I32ToLe(value)), ok)
      ensures cs == ok && en == old(en)
    {
      var tx := new U8[5](_ => 0);
      var rx := new U8[5](_ => 0);
      tx[0] := WriteCommand(r);
      var bytes := I32ToLe(value);
      tx[1] := bytes[0];
      tx[2] := bytes[1];
      tx[3] := bytes[2];
      tx[4] := bytes[3];
      assert tx[..] == WriteFrame(r, bytes);
      var discarded := TransferData(rx, tx, response, ok);
      res := Ok(rx[..]);
    }

    /** `write_u32`: as `write_i32`, for an unsigned value. */
    method WriteU32(r: Register, value: U32, response: seq<U8>, ok: bool)
      returns (res: Result<seq<U8>, BusError>)
      requires Valid()
      requires |response| == 5
      modifies this
      ensures Valid()
      ensures res == Ok(response)
      ensures trace == old(trace) + Transaction(WriteFrame(r, U32ToLe(value)), ok)
      ensures cs == ok && en == old(en)
    {
      var tx := new U8[5](_ => 0);
      var rx := new U8[5](_ => 0);
      tx[0] := WriteCommand(r);
      var bytes := U32ToLe(value);
      tx[1] := bytes[0];
      tx[2] := bytes[1];
      tx[3] := bytes[2];
      tx[4] := bytes[3];
      assert tx[..] == WriteFrame(r, bytes);
      var discarded := TransferData(rx, tx, response, ok);
      res := Ok(rx[..]);
    }

    /** `read_i32`: a read datagram for `r`; received bytes 1..4, decoded
        little-endian, come back and the status byte is not looked at.  A
        bus error is dropped. */
    method ReadI32(r: Register, response: seq<U8>, ok: bool)
      returns (res: Result<I32, BusError>)
      requires Valid()
      requires |response| == 5
      modifies this
      ensures Valid()
      ensures res == Ok(I32FromLe(response[1..5]))
      ensures trace == old(trace) + Transaction(ReadFrame(r), ok)
      ensures cs == ok && en == old(en)
    {
      var tx := new U8[5](_ => 0);
      var rx := new U8[5](_ => 0);
      tx[0] := Addr(r);
      assert tx[..] == ReadFrame(r);
      var discarded := TransferData(rx, tx, response, ok);
      res := Ok(I32FromLe(rx[1..5]));
    }

    /** `read_u32`: as `read_i32`, decoded unsigned. */
    method ReadU32(r: Register, response: seq<U8>, ok: bool)
      returns (res: Result<U32, BusError>)
      requires Valid()
      requires |response| == 5
      modifies this
      ensures Valid()
      ensures res == Ok(U32FromLe(response[1..5]))
      ensures trace == old(trace) + Transaction(ReadFrame(r), ok)
      ensures cs == ok && en == old(en)
    {
      var tx := new U8[5](_ => 0);
      var rx := new U8[5](_ => 0);
      tx[0] := Addr(r);
      assert tx[..] == ReadFrame(r);
      var discarded := TransferData(rx, tx, response, ok);
      res := Ok(U32FromLe(rx[1..5]));
    }
  }
}
