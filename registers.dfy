/** The register address table of the TMC5130 driver (src/registers.rs).

    A closed enumeration of the 48 registers the driver names, each with a
    fixed 7-bit address (its Rust discriminant).  Besides the table itself,
    this module proves what the table guarantees to the transaction engine:
    bit 7 of every address is clear, so it cannot collide with the write
    flag; the mapping is injective; addresses strictly increase in
    declaration order; and the gaps of the chip's address map really are
    gaps. */
module Registers {
  import opened Ints
  import opened Wrappers

  /** One constructor per register, in declaration order. */
  datatype Register =
    | GCONF | GSTAT | IFCNT | NODECONF | IOIN | X_COMPARE
    | IHOLD_IRUN | TPOWERDOWN | TSTEP | TPWMTHRS | TCOOLTHRS | THIGH
    | RAMPMODE | XACTUAL | VACTUAL | VSTART | A1 | V1
    | AMAX | VMAX | DMAX | D1 | VSTOP | TZEROWAIT
    | XTARGET | VDCMIN | SW_MODE | RAMP_STAT | XLATCH | ENCMODE
    | X_ENC | ENC_CONST | ENC_STATUS | ENC_LATCH | ENC_DEVIATION | MSLUT_0_7
    | MSLUTSEL | MSLUTSTART | MSCNT | MSCURACT | CHOPCONF | COOLCONF
    | DCCTRL | DRV_STATUS | PWMCONF | PWM_SCALE | ENCM_CTRL | LOST_STEPS

  /** The register's address byte (`addr`, a cast of the discriminant). */
  function Addr(r: Register): (a: U8)
    ensures a <= 0x73
  {
    match r
    case GCONF         => 0x00
    case GSTAT         => 0x01
    case IFCNT         => 0x02
    case NODECONF      => 0x03
    case IOIN          => 0x04
    case X_COMPARE     => 0x05
    case IHOLD_IRUN    => 0x10
    case TPOWERDOWN    => 0x11
    case TSTEP         => 0x12
    case TPWMTHRS      => 0x13
    case TCOOLTHRS     => 0x14
    case THIGH         => 0x15
    case RAMPMODE      => 0x20
    case XACTUAL       => 0x21
    case VACTUAL       => 0x22
    case VSTART        => 0x23
    case A1            => 0x24
    case V1            => 0x25
    case AMAX          => 0x26
    case VMAX          => 0x27
    case DMAX          => 0x28
    case D1            => 0x2A
    case VSTOP         => 0x2B
    case TZEROWAIT     => 0x2C
    case XTARGET       => 0x2D
    case VDCMIN        => 0x33
    case SW_MODE       => 0x34
    case RAMP_STAT     => 0x35
    case XLATCH        => 0x36
    case ENCMODE       => 0x38
    case X_ENC         => 0x39
    case ENC_CONST     => 0x3A
    case ENC_STATUS    => 0x3B
    case ENC_LATCH     => 0x3C
    case ENC_DEVIATION => 0x3D
    case MSLUT_0_7     => 0x60
    case MSLUTSEL      => 0x68
    case MSLUTSTART    => 0x69
    case MSCNT         => 0x6A
    case MSCURACT      => 0x6B
    case CHOPCONF      => 0x6C
    case COOLCONF      => 0x6D
    case DCCTRL        => 0x6E
    case DRV_STATUS    => 0x6F
    case PWMCONF       => 0x70
    case PWM_SCALE     => 0x71
    case ENCM_CTRL     => 0x72
    case LOST_STEPS    => 0x73
  }

  /** Number of registers in the table. */
  const Count: nat := 48

  /** The position of a register in declaration order. */
  function Ordinal(r: Register): (k: nat)
    ensures k < Count
  {
    match r
    case GCONF         => 0
    case GSTAT         => 1
    case IFCNT         => 2
    case NODECONF      => 3
    case IOIN          => 4
    case X_COMPARE     => 5
    case IHOLD_IRUN    => 6
    case TPOWERDOWN    => 7
    case TSTEP         => 8
    case TPWMTHRS      => 9
    case TCOOLTHRS     => 10
    case THIGH         => 11
    case RAMPMODE      => 12
    case XACTUAL       => 13
    case VACTUAL       => 14
    case VSTART        => 15
    case A1            => 16
    case V1            => 17
    case AMAX          => 18
    case VMAX          => 19
    case DMAX          => 20
    case D1            => 21
    case VSTOP         => 22
    case TZEROWAIT     => 23
    case XTARGET       => 24
    case VDCMIN        => 25
    case SW_MODE       => 26
    case RAMP_STAT     => 27
    case XLATCH        => 28
    case ENCMODE       => 29
    case X_ENC         => 30
    case ENC_CONST     => 31
    case ENC_STATUS    => 32
    case ENC_LATCH     => 33
    case ENC_DEVIATION => 34
    case MSLUT_0_7     => 35
    case MSLUTSEL      => 36
    case MSLUTSTART    => 37
    case MSCNT         => 38
    case MSCURACT      => 39
    case CHOPCONF      => 40
    case COOLCONF      => 41
    case DCCTRL        => 42
    case DRV_STATUS    => 43
    case PWMCONF       => 44
    case PWM_SCALE     => 45
    case ENCM_CTRL     => 46
    case LOST_STEPS    => 47
  }

  /** A 7-bit address as the first byte of a datagram: on its own it has
      bit 7 clear; OR-ing in 0x80 adds 0x80, giving a byte with bit 7 set
      and the same address in bits 6..0. */
  lemma CommandByte(a: U8)
    requires a < 0x80
    ensures !Bit(a, 7) && a % 0x80 == a
    ensures BitOr(a, 0x80) == a + 0x80
    ensures a + 0x80 < 0x100 && Bit(a + 0x80, 7) && (a + 0x80) % 0x80 == a
  {
    assert Pow2(7) == 0x80;
    assert a / 0x80 == 0 && (a + 0x80) / 0x80 == 1;
    BitOrHighBit(a, 7);
  }

  /** Bit 7 of every address is clear, so OR-ing in the write flag 0x80
      sets that bit and keeps the address in bits 6..0. */
  lemma WriteBitClear(r: Register)
    ensures !Bit(Addr(r), 7)
    ensures BitOr(Addr(r), 0x80) == Addr(r) + 0x80
  {
    CommandByte(Addr(r));
  }

  /** Declared discriminants of the first and last registers and of
      XACTUAL and VMAX. */
  lemma KnownAddresses()
    ensures Addr(GCONF) == 0x00 && Addr(XACTUAL) == 0x21
    ensures Addr(VMAX) == 0x27 && Addr(LOST_STEPS) == 0x73
  {
  }

  /** Where the k-th declared register sits in the address map: the
      declaration order laid out in runs of consecutive addresses, with the
      gaps 0x06-0x0F, 0x16-0x1F, 0x29, 0x2E-0x32, 0x37, 0x3E-0x5F and
      0x61-0x67 skipped. */
  function Placement(k: int): int
  {
    if k < 6 then k                 // GCONF .. X_COMPARE at 0x00
    else if k < 12 then k + 0x0A    // IHOLD_IRUN .. THIGH at 0x10
    else if k < 21 then k + 0x14    // RAMPMODE .. DMAX at 0x20
    else if k < 25 then k + 0x15    // D1 .. XTARGET at 0x2A
    else if k < 29 then k + 0x1A    // VDCMIN .. XLATCH at 0x33
    else if k < 35 then k + 0x1B    // ENCMODE .. ENC_DEVIATION at 0x38
    else if k < 36 then k + 0x3D    // MSLUT_0_7 at 0x60
    else k + 0x44                   // MSLUTSEL .. LOST_STEPS at 0x68
  }

  /** The table follows the layout: every register's address is the
      placement of its declaration position. */
  lemma AddrIsPlacement(r: Register)
    ensures Addr(r) == Placement(Ordinal(r))
  {
  }

  /** Later positions are placed at larger addresses. */
  lemma PlacementIncreasing(i: int, j: int)
    requires i < j
    ensures Placement(i) < Placement(j)
  {
  }

  /** A register is declared before another exactly when its address is
      smaller: from GCONF (0x00) to LOST_STEPS (0x73). */
  lemma DeclarationOrderIsAddressOrder(a: Register, b: Register)
    ensures Ordinal(a) < Ordinal(b) <==> Addr(a) < Addr(b)
  {
    AddrIsPlacement(a);
    AddrIsPlacement(b);
    if Ordinal(a) < Ordinal(b) {
      PlacementIncreasing(Ordinal(a), Ordinal(b));
    } else if Ordinal(b) < Ordinal(a) {
      PlacementIncreasing(Ordinal(b), Ordinal(a));
    }
  }

  /** The register an address names, if any: how the chip reads bits 6..0
      of a command byte. */
  function FromAddr(x: int): Option<Register>
  {
    match x
    case 0x00 => Some(GCONF)
    case 0x01 => Some(GSTAT)
    case 0x02 => Some(IFCNT)
    case 0x03 => Some(NODECONF)
    case 0x04 => Some(IOIN)
    case 0x05 => Some(X_COMPARE)
    case 0x10 => Some(IHOLD_IRUN)
    case 0x11 => Some(TPOWERDOWN)
    case 0x12 => Some(TSTEP)
    case 0x13 => Some(TPWMTHRS)
    case 0x14 => Some(TCOOLTHRS)
    case 0x15 => Some(THIGH)
    case 0x20 => Some(RAMPMODE)
    case 0x21 => Some(XACTUAL)
    case 0x22 => Some(VACTUAL)
    case 0x23 => Some(VSTART)
    case 0x24 => Some(A1)
    case 0x25 => Some(V1)
    case 0x26 => Some(AMAX)
    case 0x27 => Some(VMAX)
    case 0x28 => Some(DMAX)
    case 0x2A => Some(D1)
    case 0x2B => Some(VSTOP)
    case 0x2C => Some(TZEROWAIT)
    case 0x2D => Some(XTARGET)
    case 0x33 => Some(VDCMIN)
    case 0x34 => Some(SW_MODE)
    case 0x35 => Some(RAMP_STAT)
    case 0x36 => Some(XLATCH)
    case 0x38 => Some(ENCMODE)
    case 0x39 => Some(X_ENC)
    case 0x3A => Some(ENC_CONST)
    case 0x3B => Some(ENC_STATUS)
    case 0x3C => Some(ENC_LATCH)
    case 0x3D => Some(ENC_DEVIATION)
    case 0x60 => Some(MSLUT_0_7)
    case 0x68 => Some(MSLUTSEL)
    case 0x69 => Some(MSLUTSTART)
    case 0x6A => Some(MSCNT)
    case 0x6B => Some(MSCURACT)
    case 0x6C => Some(CHOPCONF)
    case 0x6D => Some(COOLCONF)
    case 0x6E => Some(DCCTRL)
    case 0x6F => Some(DRV_STATUS)
    case 0x70 => Some(PWMCONF)
    case 0x71 => Some(PWM_SCALE)
    case 0x72 => Some(ENCM_CTRL)
    case 0x73 => Some(LOST_STEPS)
    case _ => None
  }

  /** `FromAddr` undoes `Addr`. */
  lemma FromAddrInverts(r: Register)
    ensures FromAddr(Addr(r)) == Some(r)
  {
  }

  /** Distinct registers have distinct addresses. */
  lemma AddrInjective(a: Register, b: Register)
    ensures Addr(a) == Addr(b) <==> a == b
  {
    FromAddrInverts(a);
    FromAddrInverts(b);
  }

  /** The table's extremes: GCONF has the least and LOST_STEPS the greatest
      address. */
  lemma AddressRange(r: Register)
    ensures Addr(GCONF) <= Addr(r) <= Addr(LOST_STEPS)
  {
    DeclarationOrderIsAddressOrder(GCONF, r);
    DeclarationOrderIsAddressOrder(r, LOST_STEPS);
  }

  /** The gaps of the map: nothing lives at 0x29 (between DMAX and D1) or
      at 0x37 (between XLATCH and ENCMODE), and only the base 0x60 of the
      microstep table is a register: 0x61 to 0x67 are not. */
  lemma Gaps(r: Register)
    ensures Addr(r) != 0x29 && Addr(r) != 0x37
    ensures !(0x61 <= Addr(r) <= 0x67)
    ensures Addr(MSLUT_0_7) == 0x60
  {
  }
}
