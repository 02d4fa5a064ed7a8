# Door locker control unit: TWI master driver and register bit macros

This project models two pieces of the control unit's low-level code in Dafny and proves
properties of the model.

- **`Twi` (twi.c).** This is the master-mode driver of the AVR two-wire interface (an I2C-bus
  master). Each bus phase writes a control word into TWCR, waits for the hardware, masks
  TWSR down to its five status bits, and maps the result to a `TWI_Retuens_t` code. The
  phases are START, repeated START, SLA+R/W, data write, data read with ACK or NACK, and
  STOP. `TwiDriver` is a class whose fields are the registers TWCR, TWSR, TWDR, TWBR and
  TWAR, the registered callback, and a log of the callbacks the interrupt routine made. A
  ghost field `written` records the last control word the driver wrote into TWCR, since the
  hardware changes TWCR afterwards.
  There is one method per driver function. The hardware's answer to a phase is a
  parameter of that phase's method: the TWSR value at completion and, for a read, the
  received byte. Pure functions (`StartOutcome` … `DataReadOutcome`) give each phase's
  reading of the status. A table-driven reference (`Expected`, `Classify`) lists each
  phase's accepted status codes. Lemmas prove that every phase equals that table reading.
  They also prove that no phase reports OK or an acknowledge unless the masked status is
  exactly the matching expected code (the no-false-acknowledge property).
- **`CommonMacros` (common_macros.h).** These are SET_BIT, CLEAR_BIT, TOGGLE_BIT, BIT_IS_SET,
  BIT_IS_CLEAR, GET_BIT, ROR and ROL on 8-bit registers. The C macros compute in `int`, which
  is 16 bits on the AVR, and the in-place forms store the low byte back. The model does the
  same with `bv16` (`CInt`). Each macro is specified bit by bit against one reference
  reading of a register bit (`BitOf`). The rotations are also proved equal to Dafny's
  built-in `RotateRight`/`RotateLeft`.

Status codes, direction and acknowledge enumerators, and the initial register settings are
defined in twi.h and twi_private.h, which are not part of this model. The model treats
them as parameters of the driver (`StatusCodes`, `Config`). The property that every code
lies in the five status bits and that no two codes are equal is stated as
`StatusCodes.WellFormed` and assumed only by the lemmas that need it. The TWCR bit
positions (TWINT 7, TWEA 6, TWSTA 5, TWSTO 4, TWEN 2, TWIE 0) are those of the
ATmega16/32 data sheet.

Behaviours of twi.c worth knowing, all kept by the model:

- TWI_start and TWI_repeatedStart both report success as `EVENT_OK` (twi.c:102, 130).
- TWI_addressSelect tests the status against all four SLA codes whatever direction was
  requested (twi.c:162-182). A write-mode select whose status is the SLA+R ACK or NACK
  code reports `SLA_R_ACK_SENT` or `SLA_R_NACK_SENT`.
- Both `#if` branches of TWI_init OR the same flag into TWCR (twi.c:66, 68). The last
  statement then writes TWEN alone into TWCR (twi.c:75), so TWI_init never leaves the
  interrupt enabled.
- TWI_stop writes TWINT|TWSTO|TWEN (twi.c:278). Writing one to TWINT clears that flag, and
  no completion sets it after a STOP. The wait at twi.c:281 ends when the hardware clears
  TWSTO, so TWCR then reads TWEN alone.

## Model

| member | source | states |
|---|---|---|
| `CommonMacros.Mask` | Door_Locker_Security_System_WS/CONTROL_ECU/src/utils/common_macros.h:17-35 | `1<<BIT` at `int` width has exactly bit BIT set and every other bit of the 16-bit `int` clear, so it is a non-zero power of two in the non-negative range |
| `CommonMacros.SetBit` | Door_Locker_Security_System_WS/CONTROL_ECU/src/utils/common_macros.h:17 | bit BIT of the new register is one and every other bit is unchanged; a position past the register leaves it unchanged |
| `CommonMacros.ClearBit` | Door_Locker_Security_System_WS/CONTROL_ECU/src/utils/common_macros.h:20 | bit BIT of the new register is zero and every other bit is unchanged |
| `CommonMacros.ToggleBit` | Door_Locker_Security_System_WS/CONTROL_ECU/src/utils/common_macros.h:23 | exactly bit BIT is inverted, every other bit is unchanged |
| `CommonMacros.BitIsSet` | Door_Locker_Security_System_WS/CONTROL_ECU/src/utils/common_macros.h:25-29 | the value is non-zero if and only if bit BIT of REG is one |
| `CommonMacros.BitIsClear` | Door_Locker_Security_System_WS/CONTROL_ECU/src/utils/common_macros.h:31-35 | true if and only if bit BIT of REG is zero |
| `CommonMacros.GetBit` | Door_Locker_Security_System_WS/CONTROL_ECU/src/utils/common_macros.h:53 | the value is 0 or 1 and equals bit BIT of REG |
| `CommonMacros.Ror` | Door_Locker_Security_System_WS/CONTROL_ECU/src/utils/common_macros.h:37-43 | bit i of the result is bit (i + NUM) mod 8 of REG: a right rotation by NUM |
| `CommonMacros.Rol` | Door_Locker_Security_System_WS/CONTROL_ECU/src/utils/common_macros.h:45-51 | bit i of the result is bit (i - NUM) mod 8 of REG: a left rotation by NUM |
| `CommonMacros.ClearAfterSet` | Door_Locker_Security_System_WS/CONTROL_ECU/src/utils/common_macros.h:17-20 | CLEAR_BIT after SET_BIT on the same bit gives the same register as CLEAR_BIT alone, so the bit is zero again |
| `CommonMacros.SetAfterClear` | Door_Locker_Security_System_WS/CONTROL_ECU/src/utils/common_macros.h:17-20 | SET_BIT after CLEAR_BIT on the same bit gives the same register as SET_BIT alone |
| `CommonMacros.ToggleTwice` | Door_Locker_Security_System_WS/CONTROL_ECU/src/utils/common_macros.h:23 | TOGGLE_BIT applied twice restores the original register |
| `CommonMacros.BitTestsAgree` | Door_Locker_Security_System_WS/CONTROL_ECU/src/utils/common_macros.h:25-53 | BIT_IS_CLEAR is the logical negation of BIT_IS_SET, and GET_BIT is 1 exactly when BIT_IS_SET is non-zero |
| `CommonMacros.TestsSeeWrites` | Door_Locker_Security_System_WS/CONTROL_ECU/src/utils/common_macros.h:17-35 | the bit tests see a bit set by SET_BIT, cleared by CLEAR_BIT and inverted by TOGGLE_BIT |
| `CommonMacros.RotationsAreRotations` | Door_Locker_Security_System_WS/CONTROL_ECU/src/utils/common_macros.h:37-51 | ROR and ROL equal the 8-bit rotations right and left by NUM |
| `CommonMacros.RotationsUndoEachOther` | Door_Locker_Security_System_WS/CONTROL_ECU/src/utils/common_macros.h:37-51 | ROL by NUM undoes ROR by NUM and ROR by NUM undoes ROL by NUM, for 0 <= NUM <= 8 |
| `CommonMacros.RotationExamples` | Door_Locker_Security_System_WS/CONTROL_ECU/src/utils/common_macros.h:37-51 | the doc-comment examples: 00100110 rotated right by 2 is 10001001, rotated left by 2 is 10011000 |
| `Twi.GetStatus` | Door_Locker_Security_System_WS/CONTROL_ECU/src/MCAL/TWI/twi.c:290-294 | the low three bits of the masked status are zero and its upper five bits are those of TWSR |
| `Twi.GetStatusIdempotent` | Door_Locker_Security_System_WS/CONTROL_ECU/src/MCAL/TWI/twi.c:290-294 | masking the status twice gives the same value as masking once |
| `Twi.GetStatusIgnoresLowBits` | Door_Locker_Security_System_WS/CONTROL_ECU/src/MCAL/TWI/twi.c:290-294 | TWSR values that agree on bits 7..3 give the same status, whatever the prescaler bits |
| `Twi.LowBitCodeNeverMatches` | Door_Locker_Security_System_WS/CONTROL_ECU/src/MCAL/TWI/twi.c:290-294 | a code with a low bit set never equals a masked status |
| `Twi.StartOutcome` | Door_Locker_Security_System_WS/CONTROL_ECU/src/MCAL/TWI/twi.c:96-103 | EVENT_OK if and only if the masked status is the START code, otherwise START_NOT_SENT |
| `Twi.RepeatedStartOutcome` | Door_Locker_Security_System_WS/CONTROL_ECU/src/MCAL/TWI/twi.c:124-131 | EVENT_OK if and only if the masked status is the repeated-START code, otherwise REPEATED_START_NOT_SENT |
| `Twi.AddressOutcome` | Door_Locker_Security_System_WS/CONTROL_ECU/src/MCAL/TWI/twi.c:162-182 | each SLA ACK/NACK result only for its own code; SLA_RW_FAILED exactly for a status outside the four SLA codes |
| `Twi.DataWriteOutcome` | Door_Locker_Security_System_WS/CONTROL_ECU/src/MCAL/TWI/twi.c:208-219 | DATA_WRITE_ACK_SENT only for the data-ACK code, DATA_WRITE_NACK_SENT only for the data-NACK code, DATA_WRITE_FAILED exactly for any other status |
| `Twi.DataReadOutcome` | Door_Locker_Security_System_WS/CONTROL_ECU/src/MCAL/TWI/twi.c:246-257 | DATA_READ_ACK_SENT only for the received-ACK code, DATA_READ_NACK_SENT only for the received-NACK code, DATA_READ_FAILED exactly for any other status |
| `Twi.ClassifyReportsOnlyTableEntries` | Door_Locker_Security_System_WS/CONTROL_ECU/src/MCAL/TWI/twi.c:162-182 | a first-match table reading returns either the fallback or an entry whose code is the status, and the fallback for any status missing from the table |
| `Twi.AddressOutcomeFollowsTable` | Door_Locker_Security_System_WS/CONTROL_ECU/src/MCAL/TWI/twi.c:162-182 | the address phase's if-chain equals the first-match reading of its four-entry table (W-ACK, W-NACK, R-ACK, R-NACK) |
| `Twi.OutcomesFollowTheTable` | Door_Locker_Security_System_WS/CONTROL_ECU/src/MCAL/TWI/twi.c:84-262 | every phase's status reading equals the first-match reading of that phase's expected-code table |
| `Twi.NoFalseAcknowledge` | Door_Locker_Security_System_WS/CONTROL_ECU/src/MCAL/TWI/twi.c:84-262 | a phase reports a non-failure result only when the masked status is the code paired with that result; any status outside its table yields the phase's failure code |
| `Twi.ExpectedStatusRecognised` | Door_Locker_Security_System_WS/CONTROL_ECU/src/MCAL/TWI/twi.c:84-262 | with distinct codes, each expected code yields its own result, so the reading is exact in both directions |
| `Twi.ControlWordBits` | Door_Locker_Security_System_WS/CONTROL_ECU/src/MCAL/TWI/twi.c:75-278 | which TWCR bits each phase writes: TWINT and TWEN in every phase word; TWSTA only for start; TWSTO only for stop; TWEA only for a read with ACK (clear in the start, transfer and stop words); TWEN and no other bit after init |
| `Twi.AddressByteLayout` | Door_Locker_Security_System_WS/CONTROL_ECU/src/MCAL/TWI/twi.c:145-149 | the SLA+R/W byte `address + mode` (`AddressByte`): for an address with bit 0 clear and a mode of 0 or 1, the address bits 7..1 are kept and bit 0 is set exactly for mode 1 |
| `Twi.TwiDriver.constructor` | Door_Locker_Security_System_WS/CONTROL_ECU/src/MCAL/TWI/twi.c:28 | no callback is registered at start, and no callback has been made |
| `Twi.TwiDriver.Init` | Door_Locker_Security_System_WS/CONTROL_ECU/src/MCAL/TWI/twi.c:58-76 | TWSR = prescaler selector, TWBR = bit rate, TWAR = own address, and TWCR = TWEN alone, whatever the interrupt setting |
| `Twi.TwiDriver.Start` | Door_Locker_Security_System_WS/CONTROL_ECU/src/MCAL/TWI/twi.c:84-104 | TWCR = TWINT\|TWSTA\|TWEN, and the result is the START reading of the completion status |
| `Twi.TwiDriver.RepeatedStart` | Door_Locker_Security_System_WS/CONTROL_ECU/src/MCAL/TWI/twi.c:112-132 | TWCR = TWINT\|TWSTA\|TWEN, and the result is the repeated-START reading of the completion status |
| `Twi.TwiDriver.AddressSelect` | Door_Locker_Security_System_WS/CONTROL_ECU/src/MCAL/TWI/twi.c:141-183 | TWDR = the SLA+R/W byte `address + mode` (`AddressByte`, whose layout `AddressByteLayout` states) for a valid mode, otherwise unchanged; TWCR = TWINT\|TWEN; the result depends on the status alone, not on the direction |
| `Twi.TwiDriver.DataEvent` | Door_Locker_Security_System_WS/CONTROL_ECU/src/MCAL/TWI/twi.c:193-263 | write: TWDR = *data, *data kept, write reading of the status. Read: TWEA set for ACK and clear for NACK, *data always overwritten with TWDR, read reading of the status. Invalid mode: DATA_RW_FAILED with nothing changed |
| `Twi.TwiDriver.Stop` | Door_Locker_Security_System_WS/CONTROL_ECU/src/MCAL/TWI/twi.c:271-282 | the control word written is TWINT\|TWSTO\|TWEN (`written`); on return TWCR is that word with TWINT and TWSTO cleared, i.e. TWEN alone; no status is returned |
| `Twi.TwiDriver.SetCallBack` | Door_Locker_Security_System_WS/CONTROL_ECU/src/MCAL/TWI/twi.c:302-305 | the stored handler is replaced by the given one |
| `Twi.TwiDriver.Isr` | Door_Locker_Security_System_WS/CONTROL_ECU/src/MCAL/TWI/twi.c:37-46 | the stored handler is called (logged) exactly when one is registered |

## Left out

- The busy-wait loops on TWINT and TWSTO are not modelled as loops. They depend on
  hardware timing. Each phase method takes the hardware's answer as parameters instead.
- The interrupt as a mechanism (asynchronous entry, `volatile`) is left out. Only what the
  routine does when it runs is modelled, as `Isr`.
- Concrete status codes, enumerator values, prescaler, bit rate, own address and the
  interrupt flag are not modelled. They are defined in twi.h and twi_private.h, which are
  not part of this model, and depend on the clock frequency.
- Hardware-owned register bits are not modelled beyond what the driver reads. After a
  phase, TWSR is the value the hardware presents, and TWCR keeps the written word (its
  TWINT bit is set again on completion). After a STOP, TWCR is modelled as TWEN alone
  (TWINT and TWSTO clear).
- Twi.TwiDriver.DataEvent: in the source, a read whose acknowledge value is neither ACK
  nor NACK writes no TWCR. If TWINT is then clear, the call never returns. The precondition
  excludes that call instead of modelling non-termination.
- CommonMacros.SetBit, ClearBit, ToggleBit, BitIsSet and BitIsClear: bit positions of 15
  and above, and negative ones, are outside the precondition. `1<<BIT` is undefined in C
  there. GetBit allows positions up to 15. Ror and Rol allow NUM from 0 to 8; outside that
  range a shift count is negative.
- CommonMacros.Ror and Rol: ROR(REG,0) and ROL(REG,8) shift a register of 128 or more into
  the sign bit of a 16-bit `int`. The model takes the two's-complement result that the
  compiler produces.
- ROR and ROL as written have an unbalanced parenthesis, and GET_BIT has no outer
  parentheses. The model uses the rotation the doc comments describe and GET_BIT as a
  standalone expression. Repeated evaluation of a macro argument with side effects is not
  modelled.
- dc_motor.h and keypad.h (declarations only) and main.c (calls into an application file)
  are not part of this model.
- The EEPROM record layer, the inter-ECU UART command protocol and the lock/alarm state
  machine are not part of this model: their source files are not available.
