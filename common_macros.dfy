/** Bit manipulation of 8-bit registers, as done by the macros of common_macros.h.

    The C macros compute in `int`, which is 16 bits wide on the AVR target: `1<<BIT` and
    the shifts of ROR/ROL are 16-bit operations, and the in-place forms store the result
    back into an 8-bit register, keeping its low byte. The model does the same: `CInt`
    (a `bv16`) is that `int`, `Promote` widens a register to it and `Store` narrows a value
    back. Each in-place macro (`REG |= …`, `REG &= …`, `REG ^= …`, `REG = …`) becomes a
    function from the old register to the new one. Bit positions and rotation counts are
    `CInt` values too, as they are in C. */
module CommonMacros {

  /** C's `int` on the AVR target: 16 bits, two's complement. */
  type CInt = bv16

  /** The register value promoted to `int` before a C operator works on it. */
  function Promote(reg: bv8): (x: CInt)
    ensures x < 0x100
  {
    reg as CInt
  }

  /** Assignment of an `int` value to an 8-bit register: only the low byte is kept. */
  function Store(x: CInt): (r: bv8)
    ensures Promote(r) == x & 0xFF
  {
    (x & 0xFF) as bv8
  }

  /** `1<<BIT` at `int` width. BIT must keep the one inside a non-negative 16-bit `int`. */
  function Mask(bit: CInt): (m: CInt)
    requires bit < 15
    ensures m != 0 && m < 0x8000
    ensures m & (m - 1) == 0
    ensures (m >> bit) & 1 == 1
    ensures forall i: CInt {:trigger m >> i} :: i < 16 && i != bit ==> (m >> i) & 1 == 0
  {
    1 << bit
  }

  /** Reference reading of a register: bit `i` (0 = least significant) is one. */
  predicate BitOf(reg: bv8, i: CInt)
    requires i < 8
  {
    (Promote(reg) >> i) & 1 == 1
  }

  /** Two registers that agree on all eight bits are equal. */
  lemma BitsDetermineRegister(a: bv8, b: bv8)
    requires forall i: CInt :: i < 8 ==> BitOf(a, i) == BitOf(b, i)
    ensures a == b
  {
    assert BitOf(a, 0) == BitOf(b, 0) && BitOf(a, 1) == BitOf(b, 1);
    assert BitOf(a, 2) == BitOf(b, 2) && BitOf(a, 3) == BitOf(b, 3);
    assert BitOf(a, 4) == BitOf(b, 4) && BitOf(a, 5) == BitOf(b, 5);
    assert BitOf(a, 6) == BitOf(b, 6) && BitOf(a, 7) == BitOf(b, 7);
  }

  /** SET_BIT(REG,BIT): the new value of REG after `REG |= (1<<BIT)`. A bit position past
      the register sets a bit that the store drops, so REG is then unchanged. */
  function SetBit(reg: bv8, bit: CInt): (r: bv8)
    requires bit < 15
    ensures bit < 8 ==> BitOf(r, bit)
    ensures forall i: CInt :: i < 8 && i != bit ==> BitOf(r, i) == BitOf(reg, i)
    ensures bit >= 8 ==> r == reg
  {
    Store(Promote(reg) | Mask(bit))
  }

  /** CLEAR_BIT(REG,BIT): the new value of REG after `REG &= ~(1<<BIT)`. */
  function ClearBit(reg: bv8, bit: CInt): (r: bv8)
    requires bit < 15
    ensures bit < 8 ==> !BitOf(r, bit)
    ensures forall i: CInt :: i < 8 && i != bit ==> BitOf(r, i) == BitOf(reg, i)
    ensures bit >= 8 ==> r == reg
  {
    Store(Promote(reg) & !Mask(bit))
  }

  /** TOGGLE_BIT(REG,BIT): the new value of REG after `REG ^= (1<<BIT)`. */
  function ToggleBit(reg: bv8, bit: CInt): (r: bv8)
    requires bit < 15
    ensures bit < 8 ==> BitOf(r, bit) == !BitOf(reg, bit)
    ensures forall i: CInt :: i < 8 && i != bit ==> BitOf(r, i) == BitOf(reg, i)
    ensures bit >= 8 ==> r == reg
  {
    Store(Promote(reg) ^ Mask(bit))
  }

  /** BIT_IS_SET(REG,BIT): the `int` value `REG & (1<<BIT)`, non-zero exactly when the bit is one. */
  function BitIsSet(reg: bv8, bit: CInt): (v: CInt)
    requires bit < 15
    ensures v != 0 <==> bit < 8 && BitOf(reg, bit)
  {
    Promote(reg) & Mask(bit)
  }

  /** BIT_IS_CLEAR(REG,BIT): `!(REG & (1<<BIT))`, true exactly when the bit is zero. */
  function BitIsClear(reg: bv8, bit: CInt): (b: bool)
    requires bit < 15
    ensures b <==> !(bit < 8 && BitOf(reg, bit))
  {
    !(Promote(reg) & Mask(bit) != 0)
  }

  /** GET_BIT(REG,BIT), read as a whole expression: `(REG >> BIT) & 0x01`. */
  function GetBit(reg: bv8, bit: CInt): (v: CInt)
    requires bit < 16
    ensures v == 0 || v == 1
    ensures v == 1 <==> bit < 8 && BitOf(reg, bit)
  {
    (Promote(reg) >> bit) & 0x01
  }

  /** ROR(REG,NUM): the new value of REG after `REG = (REG>>NUM) | (REG<<(8-NUM))`.
      Bit `i` of the result is bit `i + NUM` of REG, counted round the register. */
  function Ror(reg: bv8, num: CInt): (r: bv8)
    requires num <= 8
    ensures forall i: CInt :: i < 8 ==> BitOf(r, i) == BitOf(reg, (i + num) % 8)
  {
    Store((Promote(reg) >> num) | (Promote(reg) << (8 - num)))
  }

  /** ROL(REG,NUM): the new value of REG after `REG = (REG<<NUM) | (REG>>(8-NUM))`.
      Bit `i` of the result is bit `i - NUM` of REG, counted round the register. */
  function Rol(reg: bv8, num: CInt): (r: bv8)
    requires num <= 8
    ensures forall i: CInt :: i < 8 ==> BitOf(r, i) == BitOf(reg, (i + 8 - num) % 8)
  {
    Store((Promote(reg) << num) | (Promote(reg) >> (8 - num)))
  }

  /** CLEAR_BIT after SET_BIT on the same bit leaves that bit zero and the rest as before. */
  lemma ClearAfterSet(reg: bv8, bit: CInt)
    requires bit < 8
    ensures ClearBit(SetBit(reg, bit), bit) == ClearBit(reg, bit)
  {
    BitsDetermineRegister(ClearBit(SetBit(reg, bit), bit), ClearBit(reg, bit));
  }

  /** SET_BIT after CLEAR_BIT on the same bit gives the same register as SET_BIT alone. */
  lemma SetAfterClear(reg: bv8, bit: CInt)
    requires bit < 8
    ensures SetBit(ClearBit(reg, bit), bit) == SetBit(reg, bit)
  {
    BitsDetermineRegister(SetBit(ClearBit(reg, bit), bit), SetBit(reg, bit));
  }

  /** TOGGLE_BIT applied twice restores the register. */
  lemma ToggleTwice(reg: bv8, bit: CInt)
    requires bit < 15
    ensures ToggleBit(ToggleBit(reg, bit), bit) == reg
  {
    BitsDetermineRegister(ToggleBit(ToggleBit(reg, bit), bit), reg);
  }

  /** BIT_IS_CLEAR is the logical negation of BIT_IS_SET, and GET_BIT reads the same bit. */
  lemma BitTestsAgree(reg: bv8, bit: CInt)
    requires bit < 15
    ensures BitIsClear(reg, bit) <==> BitIsSet(reg, bit) == 0
    ensures GetBit(reg, bit) == 1 <==> BitIsSet(reg, bit) != 0
  {
  }

  /** The bit tests report what SET_BIT, CLEAR_BIT and TOGGLE_BIT wrote. */
  lemma TestsSeeWrites(reg: bv8, bit: CInt)
    requires bit < 8
    ensures BitIsSet(SetBit(reg, bit), bit) != 0 && GetBit(SetBit(reg, bit), bit) == 1
    ensures BitIsClear(ClearBit(reg, bit), bit) && GetBit(ClearBit(reg, bit), bit) == 0
    ensures BitIsClear(ToggleBit(reg, bit), bit) <==> BitIsSet(reg, bit) != 0
  {
  }

  /** ROR and ROL are the 8-bit right and left rotations by NUM places. */
  lemma RotationsAreRotations(reg: bv8, num: CInt)
    requires num <= 8
    ensures Ror(reg, num) == reg.RotateRight(num as nat)
    ensures Rol(reg, num) == reg.RotateLeft(num as nat)
  {
  }

  /** ROL by NUM undoes ROR by NUM, and ROR by NUM undoes ROL by NUM. */
  lemma RotationsUndoEachOther(reg: bv8, num: CInt)
    requires num <= 8
    ensures Rol(Ror(reg, num), num) == reg
    ensures Ror(Rol(reg, num), num) == reg
  {
  }

  /** The worked examples of the ROR and ROL doc comments: 00100110 rotated by 2. */
  lemma RotationExamples()
    ensures Ror(0x26, 2) == 0x89
    ensures Rol(0x26, 2) == 0x98
  {
  }
}
