/** The status byte the TMC5130 returns first in every SPI datagram, as the
    driver decodes it (`TmcStatus`, src/lib.rs).

    The code's getters and the bit table in the comment above them disagree:
    the code reads stop_left from bit 7 and stop_right from bit 6 (the
    comment has them the other way round), and it reads velocity_reached,
    standstill, sg2, driver_error and reset_flag all from bit 4, where the
    comment spreads them over bits 4 to 0.  `TmcStatus` follows the code;
    `DocumentedFlags` follows the comment, and the lemmas below say exactly
    where the two readings part. */
module Status {
  import opened Ints

  /** The raw status byte with the code's getters. */
  datatype TmcStatus = TmcStatus(bits: U8)
  {
    /** Each getter reads one bit; its ensures says which values of the
        byte set it. */
    predicate StopLeft()
      ensures StopLeft() <==> bits >= 0x80
    {
      assert Pow2(7) == 0x80;
      Bit(bits, 7)
    }

    predicate StopRight()
      ensures StopRight() <==> bits % 0x80 >= 0x40
    {
      assert Pow2(6) == 0x40;
      Bit(bits, 6)
    }

    predicate PositionReached()
      ensures PositionReached() <==> bits % 0x40 >= 0x20
    {
      assert Pow2(5) == 0x20;
      Bit(bits, 5)
    }

    predicate VelocityReached()
      ensures VelocityReached() <==> bits % 0x20 >= 0x10
    {
      assert Pow2(4) == 0x10;
      Bit(bits, 4)
    }

    predicate Standstill()
      ensures Standstill() <==> bits % 0x20 >= 0x10
    {
      assert Pow2(4) == 0x10;
      Bit(bits, 4)
    }

    predicate Sg2()
      ensures Sg2() <==> bits % 0x20 >= 0x10
    {
      assert Pow2(4) == 0x10;
      Bit(bits, 4)
    }

    predicate DriverError()
      ensures DriverError() <==> bits % 0x20 >= 0x10
    {
      assert Pow2(4) == 0x10;
      Bit(bits, 4)
    }

    predicate ResetFlag()
      ensures ResetFlag() <==> bits % 0x20 >= 0x10
    {
      assert Pow2(4) == 0x10;
      Bit(bits, 4)
    }
  }

  /** The eight named flags of a status byte. */
  datatype Flags = Flags(
    stopLeft: bool, stopRight: bool, positionReached: bool, velocityReached: bool,
    standstill: bool, sg2: bool, driverError: bool, resetFlag: bool)

  /** All flags as the code's getters read them. */
  function CodeFlags(s: TmcStatus): Flags
  {
    Flags(s.StopLeft(), s.StopRight(), s.PositionReached(), s.VelocityReached(),
          s.Standstill(), s.Sg2(), s.DriverError(), s.ResetFlag())
  }

  /** All flags as the comment's table lays them out: stop_r in bit 7,
      stop_l in bit 6, then position_reached, velocity_reached, standstill,
      sg2, driver_error and reset_flag in bits 5 down to 0. */
  function DocumentedFlags(b: U8): Flags
  {
    Flags(Bit(b, 6), Bit(b, 7), Bit(b, 5), Bit(b, 4), Bit(b, 3), Bit(b, 2), Bit(b, 1), Bit(b, 0))
  }

  /** The five getters declared on bit 4 always agree. */
  lemma OverlappingFlags(s: TmcStatus)
    ensures s.VelocityReached() == s.Standstill() == s.Sg2() == s.DriverError() == s.ResetFlag()
  {
  }

  /** The remainders the getters test, in terms of the high nibble
      `b / 16`. */
  lemma HighNibble2(b: U8)
    ensures b % 0x20 == 16 * (b / 16 % 2) + b % 16
  {
    var q := b / 16;
    assert b == 0x20 * (q / 2) + (16 * (q % 2) + b % 16);
  }

  lemma HighNibble4(b: U8)
    ensures b % 0x40 == 16 * (b / 16 % 4) + b % 16
  {
    var q := b / 16;
    assert b == 0x40 * (q / 4) + (16 * (q % 4) + b % 16);
  }

  lemma HighNibble8(b: U8)
    ensures b % 0x80 == 16 * (b / 16 % 8) + b % 16
  {
    var q := b / 16;
    assert q == 8 * (q / 8) + q % 8;
    assert b == 0x80 * (q / 8) + (16 * (q % 8) + b % 16);
  }

  /** The code's reading ignores bits 3..0 entirely: two bytes that differ
      only there decode to the same flags. */
  lemma LowBitsIgnored(s: TmcStatus, t: TmcStatus)
    requires s.bits / 16 == t.bits / 16
    ensures CodeFlags(s) == CodeFlags(t)
  {
    HighNibble2(s.bits);
    HighNibble4(s.bits);
    HighNibble8(s.bits);
    HighNibble2(t.bits);
    HighNibble4(t.bits);
    HighNibble8(t.bits);
  }

  /** The two readings agree exactly on bytes whose bits 7 and 6 are equal
      and whose bits 4..0 are all equal. */
  lemma LayoutsAgreeIff(b: U8)
    ensures CodeFlags(TmcStatus(b)) == DocumentedFlags(b)
        <==> (Bit(b, 7) == Bit(b, 6)
              && Bit(b, 4) == Bit(b, 3) == Bit(b, 2) == Bit(b, 1) == Bit(b, 0))
  {
  }

  /** A status byte of 0b1000_0001: the comment's table reads stop_r and
      reset_flag; the code reads stop_left only. */
  lemma Example81()
    ensures CodeFlags(TmcStatus(0x81)) == Flags(true, false, false, false, false, false, false, false)
    ensures DocumentedFlags(0x81) == Flags(false, true, false, false, false, false, false, true)
  {
  }
}
