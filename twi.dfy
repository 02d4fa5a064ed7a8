/** Master-mode driver of the AVR two-wire serial interface (TWI, an I2C-bus master), as
    twi.c implements it over the registers TWCR (control), TWSR (status and prescaler),
    TWDR (data), TWBR (bit rate) and TWAR (own slave address).

    Every bus phase writes a control word into TWCR, waits until the hardware has finished
    the phase, reads the status bits of TWSR and maps them to a return code. The model
    keeps the writes and the mapping. The waiting is replaced by the hardware's answer,
    which each phase method takes as parameters: the TWSR value the hardware presents
    when the phase is complete and, for a read, the byte it has received into TWDR.

    The status codes, the direction and acknowledge enumerators and the initial register
    settings come from headers that are not part of this model (twi.h, twi_private.h);
    they are parameters of the driver (`StatusCodes`, `Config`). The TWCR bit positions
    are those of the ATmega16/32 data sheet. */
module Twi {
  import opened CommonMacros

  /** TWCR bit positions. */
  const TWIE: CInt := 0
  const TWEN: CInt := 2
  const TWSTO: CInt := 4
  const TWSTA: CInt := 5
  const TWEA: CInt := 6
  const TWINT: CInt := 7

  /** TWINT|TWSTA|TWEN: send a START (or repeated START) condition. */
  const StartControl: bv8 := Store(Mask(TWINT) | Mask(TWSTA) | Mask(TWEN))
  /** TWINT|TWEN: transfer TWDR (address or data byte), or receive a byte and answer NACK. */
  const TransferControl: bv8 := Store(Mask(TWINT) | Mask(TWEN))
  /** TWINT|TWEA|TWEN: receive a byte and answer ACK. */
  const AckReadControl: bv8 := Store(Mask(TWINT) | Mask(TWEA) | Mask(TWEN))
  /** TWINT|TWSTO|TWEN: send a STOP condition. */
  const StopControl: bv8 := Store(Mask(TWINT) | Mask(TWSTO) | Mask(TWEN))
  /** TWEN alone: the value TWI_init leaves in TWCR. */
  const EnableControl: bv8 := Store(Mask(TWEN))

  datatype Option<T> = None | Some(value: T)

  /** The driver's return codes (TWI_Retuens_t). */
  datatype TwiResult =
    | EventOk | StartNotSent | RepeatedStartNotSent
    | SlaWAckSent | SlaWNackSent | SlaRAckSent | SlaRNackSent | SlaRwFailed
    | DataWriteAckSent | DataWriteNackSent | DataWriteFailed
    | DataReadAckSent | DataReadNackSent | DataReadFailed
    | DataRwFailed

  /** The hardware status codes a phase expects in the masked TWSR. */
  datatype StatusCodes = StatusCodes(
    start: bv8,          // START condition transmitted
    repeatedStart: bv8,  // repeated START condition transmitted
    mtSlaWAck: bv8,      // SLA+W transmitted, ACK received
    mtSlaWNack: bv8,     // SLA+W transmitted, NACK received
    mtSlaRAck: bv8,      // SLA+R transmitted, ACK received
    mtSlaRNack: bv8,     // SLA+R transmitted, NACK received
    mtDataWAck: bv8,     // data byte transmitted, ACK received
    mtDataWNack: bv8,    // data byte transmitted, NACK received
    mrDataRAck: bv8,     // data byte received, ACK returned
    mrDataRNack: bv8)    // data byte received, NACK returned
  {
    function All(): seq<bv8> {
      [start, repeatedStart, mtSlaWAck, mtSlaWNack, mtSlaRAck, mtSlaRNack,
       mtDataWAck, mtDataWNack, mrDataRAck, mrDataRNack]
    }

    /** What the hardware guarantees of its status codes: they live in the five status
        bits (the low three bits are zero) and no two of them are equal. */
    predicate WellFormed() {
      (forall k :: 0 <= k < |All()| ==> All()[k] & 0x07 == 0) &&
      (forall k, l :: 0 <= k < l < |All()| ==> All()[k] != All()[l])
    }
  }

  /** The selector of TWI_INT_EN in TWI_init's conditional compilation. */
  datatype InterruptSetting = Enable | Disable | Neither

  /** Configuration constants from the driver's headers. */
  datatype Config = Config(
    writeMode: CInt,            // TWI_WRITE_MODE
    readMode: CInt,             // TWI_READ_MODE
    ack: CInt,                  // ACK
    nack: CInt,                 // NACK
    prescalerSelector: bv8,     // TWI_PRESCALER_SELECTOR
    bitRate: bv8,               // BITRATE
    ownAddress: bv8,            // TWI_MY_ADDRESS
    interruptFlag: CInt,        // I2C_INTERRUPT_ENABLED
    interruptSetting: InterruptSetting)

  /** The identity of an application function registered as the TWI callback. */
  datatype Handler = Handler(address: nat)

  /** TWI_getStatus on a TWSR value: `TWSR & 0xF8`, the five status bits with the
      prescaler bits masked off. */
  function GetStatus(twsr: bv8): (s: bv8)
    ensures s & 0x07 == 0
    ensures forall i: CInt :: 3 <= i < 8 ==> BitOf(s, i) == BitOf(twsr, i)
  {
    Store(Promote(twsr) & 0xF8)
  }

  /** The byte `address + mode` that TWI_addressSelect puts into TWDR (SLA+R/W); its bit
      layout is stated by `AddressByteLayout`. */
  function AddressByte(address: bv8, mode: CInt): bv8 {
    Store(Promote(address) + mode)
  }

  /** How TWI_start reads the masked status. */
  function StartOutcome(c: StatusCodes, s: bv8): (r: TwiResult)
    ensures r == EventOk <==> s == c.start
    ensures r == EventOk || r == StartNotSent
  {
    if s != c.start then StartNotSent else EventOk
  }

  /** How TWI_repeatedStart reads the masked status. */
  function RepeatedStartOutcome(c: StatusCodes, s: bv8): (r: TwiResult)
    ensures r == EventOk <==> s == c.repeatedStart
    ensures r == EventOk || r == RepeatedStartNotSent
  {
    if s != c.repeatedStart then RepeatedStartNotSent else EventOk
  }

  /** How TWI_addressSelect reads the masked status: the SLA+W codes first, then the
      SLA+R codes, whatever direction was selected. */
  function AddressOutcome(c: StatusCodes, s: bv8): (r: TwiResult)
    ensures r == SlaWAckSent ==> s == c.mtSlaWAck
    ensures r == SlaWNackSent ==> s == c.mtSlaWNack
    ensures r == SlaRAckSent ==> s == c.mtSlaRAck
    ensures r == SlaRNackSent ==> s == c.mtSlaRNack
    ensures r == SlaRwFailed <==> s !in {c.mtSlaWAck, c.mtSlaWNack, c.mtSlaRAck, c.mtSlaRNack}
    ensures r in {SlaWAckSent, SlaWNackSent, SlaRAckSent, SlaRNackSent, SlaRwFailed}
  {
    if s == c.mtSlaWAck then SlaWAckSent
    else if s == c.mtSlaWNack then SlaWNackSent
    else if s == c.mtSlaRAck then SlaRAckSent
    else if s == c.mtSlaRNack then SlaRNackSent
    else SlaRwFailed
  }

  /** How TWI_dataEvent reads the masked status after transmitting a byte. */
  function DataWriteOutcome(c: StatusCodes, s: bv8): (r: TwiResult)
    ensures r == DataWriteAckSent ==> s == c.mtDataWAck
    ensures r == DataWriteNackSent ==> s == c.mtDataWNack
    ensures r == DataWriteFailed <==> s !in {c.mtDataWAck, c.mtDataWNack}
    ensures r in {DataWriteAckSent, DataWriteNackSent, DataWriteFailed}
  {
    if s == c.mtDataWAck then DataWriteAckSent
    else if s == c.mtDataWNack then DataWriteNackSent
    else DataWriteFailed
  }

  /** How TWI_dataEvent reads the masked status after receiving a byte. */
  function DataReadOutcome(c: StatusCodes, s: bv8): (r: TwiResult)
    ensures r == DataReadAckSent ==> s == c.mrDataRAck
    ensures r == DataReadNackSent ==> s == c.mrDataRNack
    ensures r == DataReadFailed <==> s !in {c.mrDataRAck, c.mrDataRNack}
    ensures r in {DataReadAckSent, DataReadNackSent, DataReadFailed}
  {
    if s == c.mrDataRAck then DataReadAckSent
    else if s == c.mrDataRNack then DataReadNackSent
    else DataReadFailed
  }

  /** The five bus phases whose status the driver interprets. */
  datatype Phase = StartPhase | RepeatedStartPhase | AddressPhase | DataWritePhase | DataReadPhase

  /** Table-driven reading of a phase: the status codes the phase accepts, in the order
      they are tested, each with the result it yields, and the result for every other status. */
  datatype Signature = Signature(accepted: seq<(bv8, TwiResult)>, otherwise: TwiResult)

  /** The expected-status table of each phase. */
  function Expected(c: StatusCodes, p: Phase): Signature {
    match p
    case StartPhase => Signature([(c.start, EventOk)], StartNotSent)
    case RepeatedStartPhase => Signature([(c.repeatedStart, EventOk)], RepeatedStartNotSent)
    case AddressPhase =>
      Signature([(c.mtSlaWAck, SlaWAckSent), (c.mtSlaWNack, SlaWNackSent),
                 (c.mtSlaRAck, SlaRAckSent), (c.mtSlaRNack, SlaRNackSent)], SlaRwFailed)
    case DataWritePhase =>
      Signature([(c.mtDataWAck, DataWriteAckSent), (c.mtDataWNack, DataWriteNackSent)], DataWriteFailed)
    case DataReadPhase =>
      Signature([(c.mrDataRAck, DataReadAckSent), (c.mrDataRNack, DataReadNackSent)], DataReadFailed)
  }

  /** The result of the first table entry whose code equals `s`, or `otherwise`. */
  function Classify(accepted: seq<(bv8, TwiResult)>, otherwise: TwiResult, s: bv8): TwiResult {
    if accepted == [] then otherwise
    else if accepted[0].0 == s then accepted[0].1
    else Classify(accepted[1..], otherwise, s)
  }

  /** The table reading never invents an entry: its result is either the fallback or the
      result of an entry whose code is `s`, and a status missing from the table always
      gives the fallback. */
  lemma {:induction false} ClassifyReportsOnlyTableEntries(accepted: seq<(bv8, TwiResult)>, otherwise: TwiResult, s: bv8)
    ensures Classify(accepted, otherwise, s) == otherwise ||
            (s, Classify(accepted, otherwise, s)) in accepted
    ensures (forall e :: e in accepted ==> e.0 != s) ==> Classify(accepted, otherwise, s) == otherwise
  {
    if accepted != [] && accepted[0].0 != s {
      ClassifyReportsOnlyTableEntries(accepted[1..], otherwise, s);
      assert forall e :: e in accepted[1..] ==> e in accepted;
    }
  }

  /** The result the driver's code gives for masked status `s` in phase `p`. */
  function PhaseOutcome(c: StatusCodes, p: Phase, s: bv8): TwiResult {
    match p
    case StartPhase => StartOutcome(c, s)
    case RepeatedStartPhase => RepeatedStartOutcome(c, s)
    case AddressPhase => AddressOutcome(c, s)
    case DataWritePhase => DataWriteOutcome(c, s)
    case DataReadPhase => DataReadOutcome(c, s)
  }

  /** Each phase's if-chain is exactly the table-driven reading of its expected codes. */
  lemma OutcomesFollowTheTable(c: StatusCodes, p: Phase, s: bv8)
    ensures PhaseOutcome(c, p, s) == Classify(Expected(c, p).accepted, Expected(c, p).otherwise, s)
  {
    var t, o := Expected(c, p).accepted, Expected(c, p).otherwise;
    if p == AddressPhase {
      AddressOutcomeFollowsTable(c, s);
    } else if |t| == 2 {
      var t1 := t[1..];
      assert t1 == [t[1]] && t1[1..] == [];
      assert Classify(t1, o, s) == if s == t[1].0 then t[1].1 else o;
      assert Classify(t, o, s) == if s == t[0].0 then t[0].1 else Classify(t1, o, s);
    } else {
      assert t[1..] == [];
    }
  }

  /** The four-entry table of the address phase, unrolled one entry at a time. */
  lemma AddressOutcomeFollowsTable(c: StatusCodes, s: bv8)
    ensures AddressOutcome(c, s) == Classify(Expected(c, AddressPhase).accepted, SlaRwFailed, s)
  {
    var t := Expected(c, AddressPhase).accepted;
    var t3 := [(c.mtSlaRNack, SlaRNackSent)];
    var t2 := [(c.mtSlaRAck, SlaRAckSent)] + t3;
    var t1 := [(c.mtSlaWNack, SlaWNackSent)] + t2;
    assert t[1..] == t1 && t1[1..] == t2 && t2[1..] == t3 && t3[1..] == [];
    assert Classify(t3, SlaRwFailed, s) == if s == c.mtSlaRNack then SlaRNackSent else SlaRwFailed;
    assert Classify(t2, SlaRwFailed, s) == if s == c.mtSlaRAck then SlaRAckSent else Classify(t3, SlaRwFailed, s);
    assert Classify(t1, SlaRwFailed, s) == if s == c.mtSlaWNack then SlaWNackSent else Classify(t2, SlaRwFailed, s);
    assert Classify(t, SlaRwFailed, s) == if s == c.mtSlaWAck then SlaWAckSent else Classify(t1, SlaRwFailed, s);
  }

  /** No false acknowledge: a phase reports anything other than its failure code only
      when the masked status is the very code its table pairs with that report, and a
      status outside the table always yields the failure code. */
  lemma NoFalseAcknowledge(c: StatusCodes, p: Phase, s: bv8)
    ensures PhaseOutcome(c, p, s) != Expected(c, p).otherwise ==>
              (s, PhaseOutcome(c, p, s)) in Expected(c, p).accepted
    ensures (forall e :: e in Expected(c, p).accepted ==> e.0 != s) ==>
              PhaseOutcome(c, p, s) == Expected(c, p).otherwise
  {
    OutcomesFollowTheTable(c, p, s);
    ClassifyReportsOnlyTableEntries(Expected(c, p).accepted, Expected(c, p).otherwise, s);
  }

  /** With well-formed codes every expected status is recognised as what it stands for:
      the reading of each phase is exact in both directions. */
  lemma ExpectedStatusRecognised(c: StatusCodes, p: Phase, k: nat)
    requires c.WellFormed()
    requires k < |Expected(c, p).accepted|
    ensures PhaseOutcome(c, p, Expected(c, p).accepted[k].0) == Expected(c, p).accepted[k].1
  {
    var all := c.All();
    assert all[2] != all[3] && all[2] != all[4] && all[2] != all[5];
    assert all[3] != all[4] && all[3] != all[5] && all[4] != all[5];
    assert all[6] != all[7] && all[8] != all[9];
  }

  /** The register file of the TWI unit, the registered callback, and the callbacks the
      interrupt handler has made so far. */
  class TwiDriver {
    const codes: StatusCodes
    const config: Config

    var twcr: bv8
    var twsr: bv8
    var twdr: bv8
    var twbr: bv8
    var twar: bv8
    /** The last control word the driver wrote into TWCR. TWCR itself can differ from it
        afterwards, because the hardware clears TWSTO and sets or clears TWINT on its own. */
    ghost var written: bv8

    /** g_Ptr_To_Fun_TWI: NULL_PTR until TWI_SetCallBack stores a function. */
    var callback: Option<Handler>
    /** The handlers the interrupt service routine has called, oldest first. */
    var notified: seq<Handler>

    /** The driver over registers holding whatever they held before TWI_init. */
    constructor (codes: StatusCodes, config: Config, twcr: bv8, twsr: bv8, twdr: bv8, twbr: bv8, twar: bv8)
      ensures this.codes == codes && this.config == config
      ensures this.twcr == twcr && this.twsr == twsr && this.twdr == twdr
      ensures this.twbr == twbr && this.twar == twar
      ensures written == twcr
      ensures callback == None && notified == []
    {
      this.codes := codes;
      this.config := config;
      this.twcr, this.twsr, this.twdr, this.twbr, this.twar := twcr, twsr, twdr, twbr, twar;
      written := twcr;
      callback := None;
      notified := [];
    }

    /** TWI_init. Both branches of the interrupt selection OR the same flag into TWCR, and
        the final write of TWEN alone discards it. */
    method Init()
      modifies this`twsr, this`twbr, this`twcr, this`twar, this`written
      ensures twsr == config.prescalerSelector
      ensures twbr == config.bitRate
      ensures twar == config.ownAddress
      ensures twcr == EnableControl && written == EnableControl
    {
      twsr := config.prescalerSelector;
      twbr := config.bitRate;
      match config.interruptSetting {
        case Enable =>
          twcr := Store(Promote(twcr) | config.interruptFlag);
        case Disable =>
          twcr := Store(Promote(twcr) | config.interruptFlag);
        case Neither =>
      }
      twar := config.ownAddress;
      twcr := EnableControl;
      written := twcr;
    }

    /** TWI_start: send a START condition; `status` is TWSR when TWINT is set again. */
    method Start(status: bv8) returns (r: TwiResult)
      modifies this`twcr, this`twsr, this`written
      ensures twcr == StartControl && written == StartControl
      ensures twsr == status
      ensures r == StartOutcome(codes, GetStatus(status))
    {
      twcr := StartControl;
      written := twcr;
      twsr := status;
      r := StartOutcome(codes, GetStatus(twsr));
    }

    /** TWI_repeatedStart: send a repeated START condition. */
    method RepeatedStart(status: bv8) returns (r: TwiResult)
      modifies this`twcr, this`twsr, this`written
      ensures twcr == StartControl && written == StartControl
      ensures twsr == status
      ensures r == RepeatedStartOutcome(codes, GetStatus(status))
    {
      twcr := StartControl;
      written := twcr;
      twsr := status;
      r := RepeatedStartOutcome(codes, GetStatus(twsr));
    }

    /** TWI_addressSelect: put SLA+R/W into TWDR (only for a known direction) and send it.
        The result depends on the status alone, not on `rw`. */
    method AddressSelect(address: bv8, rw: CInt, status: bv8) returns (r: TwiResult)
      modifies this`twdr, this`twcr, this`twsr, this`written
      ensures twdr == if rw == config.writeMode then AddressByte(address, config.writeMode)
                      else if rw == config.readMode then AddressByte(address, config.readMode)
                      else old(twdr)
      ensures twcr == TransferControl && written == TransferControl
      ensures twsr == status
      ensures r == AddressOutcome(codes, GetStatus(status))
    {
      if rw == config.writeMode {
        twdr := AddressByte(address, config.writeMode);
      } else if rw == config.readMode {
        twdr := AddressByte(address, config.readMode);
      }
      twcr := TransferControl;
      written := twcr;
      twsr := status;
      r := AddressOutcome(codes, GetStatus(twsr));
    }

    /** TWI_dataEvent: `data` is `*data` on entry and `dataOut` on return.
        In write mode the byte is sent. In read mode a byte is received, answered with
        ACK or NACK as `ack` asks, and always stored into `*data`. With an `ack` that is
        neither, TWCR is not written, so no transfer starts: the wait ends only because
        TWINT is still set from the previous phase (otherwise the call never returns), and
        the stale TWDR and TWSR are read. Any other mode changes nothing. */
    method DataEvent(data: bv8, rw: CInt, ack: CInt, status: bv8, received: bv8)
      returns (r: TwiResult, dataOut: bv8)
      requires rw != config.writeMode && rw == config.readMode && ack != config.ack && ack != config.nack
               ==> BitOf(twcr, TWINT)
      modifies this`twdr, this`twcr, this`twsr, this`written
      ensures rw == config.writeMode ==>
                twdr == data && twcr == TransferControl && written == TransferControl && twsr == status &&
                dataOut == data && r == DataWriteOutcome(codes, GetStatus(status))
      ensures rw != config.writeMode && rw == config.readMode ==>
                (if ack == config.ack || ack == config.nack
                 then twcr == (if ack == config.ack then AckReadControl else TransferControl) &&
                      written == twcr && twdr == received && twsr == status
                 else twcr == old(twcr) && written == old(written) && twdr == old(twdr) && twsr == old(twsr)) &&
                dataOut == twdr && r == DataReadOutcome(codes, GetStatus(twsr))
      ensures rw != config.writeMode && rw != config.readMode ==>
                twcr == old(twcr) && written == old(written) && twdr == old(twdr) && twsr == old(twsr) &&
                dataOut == data && r == DataRwFailed
    {
      dataOut := data;
      if rw == config.writeMode {
        twdr := data;
        twcr := TransferControl;
        written := twcr;
        twsr := status;
        r := DataWriteOutcome(codes, GetStatus(twsr));
      } else if rw == config.readMode {
        if ack == config.ack {
          twcr := AckReadControl;
          written := twcr;
        } else if ack == config.nack {
          twcr := TransferControl;
          written := twcr;
        }
        if ack == config.ack || ack == config.nack {
          // the byte arrives and TWINT is set again
          twdr := received;
          twsr := status;
        }
        dataOut := twdr;
        r := DataReadOutcome(codes, GetStatus(twsr));
      } else {
        r := DataRwFailed;
      }
    }

    /** TWI_stop: send a STOP condition. Writing one to TWINT clears the flag, and no
        completion sets it again after a STOP; the hardware clears TWSTO once the condition
        is on the bus, and that is when the wait ends. There is no status to read. */
    method Stop()
      modifies this`twcr, this`written
      ensures written == StopControl
      ensures twcr == ClearBit(ClearBit(written, TWINT), TWSTO) && twcr == EnableControl
      ensures !BitOf(twcr, TWSTO) && !BitOf(twcr, TWINT)
    {
      twcr := StopControl;
      written := twcr;
      twcr := ClearBit(twcr, TWINT);
      twcr := ClearBit(twcr, TWSTO);
    }

    /** TWI_SetCallBack: replace the single registered handler. */
    method SetCallBack(handler: Option<Handler>)
      modifies this`callback
      ensures callback == handler
    {
      callback := handler;
    }

    /** ISR(TWI_vect): call the registered handler, if there is one. */
    method Isr()
      modifies this`notified
      ensures notified == old(notified) + if callback.Some? then [callback.value] else []
    {
      if callback != None {
        notified := notified + [callback.value];
      }
    }
  }

  /** Masking the status twice gives the same value as masking it once. */
  lemma GetStatusIdempotent(twsr: bv8)
    ensures GetStatus(GetStatus(twsr)) == GetStatus(twsr)
  {
  }

  /** The masked status depends on the five status bits only: two TWSR values that differ
      in the prescaler bits and bit 2 read the same. */
  lemma GetStatusIgnoresLowBits(a: bv8, b: bv8)
    requires forall i: CInt :: 3 <= i < 8 ==> BitOf(a, i) == BitOf(b, i)
    ensures GetStatus(a) == GetStatus(b)
  {
    BitsDetermineRegister(GetStatus(a), GetStatus(b));
  }

  /** A code with one of its three low bits set can never equal a masked status, so a
      phase expecting it would never succeed; `WellFormed` rules such codes out. */
  lemma LowBitCodeNeverMatches(code: bv8, twsr: bv8)
    requires code & 0x07 != 0
    ensures GetStatus(twsr) != code
  {
  }

  /** The control bits each phase writes into TWCR. */
  lemma ControlWordBits()
    ensures BitOf(StartControl, TWINT) && BitOf(StartControl, TWSTA) && BitOf(StartControl, TWEN)
    ensures !BitOf(StartControl, TWSTO) && !BitOf(StartControl, TWEA)
    ensures BitOf(TransferControl, TWINT) && BitOf(TransferControl, TWEN)
    ensures !BitOf(TransferControl, TWSTA) && !BitOf(TransferControl, TWSTO) && !BitOf(TransferControl, TWEA)
    ensures BitOf(AckReadControl, TWINT) && BitOf(AckReadControl, TWEA) && BitOf(AckReadControl, TWEN)
    ensures !BitOf(AckReadControl, TWSTA) && !BitOf(AckReadControl, TWSTO)
    ensures BitOf(StopControl, TWINT) && BitOf(StopControl, TWSTO) && BitOf(StopControl, TWEN)
    ensures !BitOf(StopControl, TWSTA) && !BitOf(StopControl, TWEA)
    ensures BitOf(EnableControl, TWEN)
    ensures forall i: CInt :: i < 8 && i != TWEN ==> !BitOf(EnableControl, i)
  {
  }

  /** With a 7-bit slave address in bits 7..1 and a direction of 0 (write) or 1 (read),
      the byte `address + mode` is the SLA+R/W byte of section 3.1.10 of the I2C-bus
      specification (UM10204): the address bits are kept and bit 0 is the R/W bit. */
  lemma AddressByteLayout(address: bv8, mode: CInt)
    requires !BitOf(address, 0)
    requires mode == 0 || mode == 1
    ensures forall i: CInt :: 1 <= i < 8 ==> BitOf(AddressByte(address, mode), i) == BitOf(address, i)
    ensures BitOf(AddressByte(address, mode), 0) <==> mode == 1
  {
  }
}
