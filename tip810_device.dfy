/*
 * The TIP810 driver's devices: the bus-rate table t810Create looks up, the
 * list of devices with its duplicate checks, and per device the callback
 * lists canMessage and canMsgDelete maintain, the transmit path of
 * canWrite, the interrupt service routine's bookkeeping and one pass of
 * the receive task.
 *
 * Callback routines are opaque: a callback is the pair (routine, private
 * pointer), and calling one appends an entry to the device's call trace.
 */
module Tip810Device {
  import opened IpacBase
  import opened Tip810Frame

  const T810_MAGIC_NUMBER := 81001

  /** The counters are unsigned ints and wrap modulo 2^32. */
  const U32 := 0x1_0000_0000

  /** C's conversion of an int to unsigned int. */
  function Unsigned(x: int): (u: int)
    ensures 0 <= u < U32
  {
    x % U32
  }

  /** A counter after ++. */
  function Inc(c: int): (r: int)
    requires 0 <= c < U32
    ensures 0 <= r < U32
    ensures c < U32 - 1 ==> r == c + 1
    ensures c == U32 - 1 ==> r == 0
  {
    (c + 1) % U32
  }

  /** Whether the single bit mask (a power of two) is set in x. */
  predicate HasBit(x: int, mask: nat)
    requires mask > 0
  {
    (x / mask) % 2 == 1
  }

  // ---------------------------------------------------------------------
  // Bus rates
  // ---------------------------------------------------------------------

  /** One row of t810Create's rate table: a rate and the two bus timing bytes. */
  datatype RateEntry = RateEntry(rate: int, busTiming0: Byte, busTiming1: Byte)

  /**
   * The rate table, ending in a row of rate 0. The Kvaser rows are written
   * as negative rates in the source and stored in an unsigned field.
   */
  const RateTable: seq<RateEntry> := [
    RateEntry(5, 0x7f, 0x7f),
    RateEntry(10, 0x67, 0x2f),
    RateEntry(20, 0x53, 0x2f),
    RateEntry(50, 0x47, 0x2f),
    RateEntry(100, 0x43, 0x2f),
    RateEntry(125, 0x03, 0x1c),
    RateEntry(250, 0x01, 0x1c),
    RateEntry(500, 0x00, 0x1c),
    RateEntry(1000, 0x00, 0x14),
    RateEntry(1600, 0x00, 0x11),
    RateEntry(U32 - 125, 0x07, 0x23),
    RateEntry(U32 - 250, 0x03, 0x23),
    RateEntry(U32 - 500, 0x01, 0x23),
    RateEntry(U32 - 1000, 0x00, 0x23),
    RateEntry(0, 0, 0)
  ]

  /** The bus rates t810Create accepts, in Kbit/s, with the Kvaser rates as negative numbers. */
  const LegalRates: set<int> := {5, 10, 20, 50, 100, 125, 250, 500, 1000, 1600, -125, -250, -500, -1000}

  /** busRate, as an unsigned int, is one of the legal rates. */
  predicate RateLegal(busRate: int) {
    exists r :: r in LegalRates && Unsigned(r) == busRate
  }

  /**
   * t810Create's rate lookup: a zero rate, or one that reaches the
   * table's terminating row, is a bad bus rate; otherwise the index of the
   * matching row.
   */
  method FindRate(busRate: int) returns (st: CanStatus, index: nat)
    requires 0 <= busRate < U32
    ensures st == Ok || st == BadBusRate
    ensures st == Ok <==> RateLegal(busRate)
    ensures st == Ok ==> index < |RateTable| && RateTable[index].rate == busRate
  {
    if busRate == 0 {
      return BadBusRate, 0;
    }
    var i := 0;
    while RateTable[i].rate != busRate
      invariant 0 <= i < |RateTable|
      invariant forall k :: 0 <= k < i ==> RateTable[k].rate != busRate && RateTable[k].rate != 0
      decreases |RateTable| - i
    {
      if RateTable[i].rate == 0 {
        RatesListed(busRate);
        return BadBusRate, 0;
      }
      i := i + 1;
    }
    RatesListed(busRate);
    return Ok, i;
  }

  /** The table's rows other than the terminator are exactly the legal rates, as unsigned ints. */
  lemma RatesListed(busRate: int)
    requires 0 < busRate < U32
    ensures (exists k :: 0 <= k < |RateTable| - 1 && RateTable[k].rate == busRate)
            <==> RateLegal(busRate)
  {
    if RateLegal(busRate) {
      var r :| r in LegalRates && Unsigned(r) == busRate;
      if r == 5 { assert RateTable[0].rate == busRate; }
      else if r == 10 { assert RateTable[1].rate == busRate; }
      else if r == 20 { assert RateTable[2].rate == busRate; }
      else if r == 50 { assert RateTable[3].rate == busRate; }
      else if r == 100 { assert RateTable[4].rate == busRate; }
      else if r == 125 { assert RateTable[5].rate == busRate; }
      else if r == 250 { assert RateTable[6].rate == busRate; }
      else if r == 500 { assert RateTable[7].rate == busRate; }
      else if r == 1000 { assert RateTable[8].rate == busRate; }
      else if r == 1600 { assert RateTable[9].rate == busRate; }
      else if r == -125 { assert RateTable[10].rate == busRate; }
      else if r == -250 { assert RateTable[11].rate == busRate; }
      else if r == -500 { assert RateTable[12].rate == busRate; }
      else { assert RateTable[13].rate == busRate; }
    }
    if exists k :: 0 <= k < |RateTable| - 1 && RateTable[k].rate == busRate {
      var k :| 0 <= k < |RateTable| - 1 && RateTable[k].rate == busRate;
      var r := if k < 10 then busRate else busRate - U32;
      assert r in LegalRates && Unsigned(r) == busRate;
    }
  }

  // ---------------------------------------------------------------------
  // Callbacks
  // ---------------------------------------------------------------------

  /** A NULL routine pointer. */
  const NULL := 0

  /** A registered callback: the routine and the private pointer handed to it. */
  datatype Callback = Callback(routine: int, private: int)

  /** The second argument of a callback: a received message or a bus status. */
  datatype Param = Message(m: CanMessage) | BusStatus(status: int)

  /** One callback invocation. */
  datatype Call = Call(cb: Callback, param: Param)

  /** doCallbacks: the calls that running every entry of the list, in order, makes. */
  function Calls(list: seq<Callback>, p: Param): (r: seq<Call>)
    ensures |r| == |list|
    ensures forall i :: 0 <= i < |list| ==> r[i] == Call(list[i], p)
  {
    if list == [] then [] else [Call(list[0], p)] + Calls(list[1..], p)
  }

  /**
   * The list with the first entry equal to cb unlinked, or None when no
   * entry matches.
   */
  function Without(list: seq<Callback>, cb: Callback): (r: Option<seq<Callback>>)
    ensures r.None? <==> cb !in list
    ensures r.Some? ==> |r.value| == |list| - 1
  {
    if list == [] then None
    else if list[0] == cb then Some(list[1..])
    else match Without(list[1..], cb)
      case None => None
      case Some(t) => Some([list[0]] + t)
  }

  /** Unlinking takes out one cb and nothing else. */
  lemma {:induction false} WithoutCounts(list: seq<Callback>, cb: Callback)
    requires cb in list
    ensures multiset(Without(list, cb).value) + multiset{cb} == multiset(list)
  {
    assert list == [list[0]] + list[1..];
    if list[0] != cb {
      WithoutCounts(list[1..], cb);
    }
  }

  /**
   * Without removes exactly the first match: everything before it and
   * everything after it stays, in order.
   */
  lemma {:induction false} WithoutFirst(list: seq<Callback>, cb: Callback, k: nat)
    requires k < |list| && list[k] == cb
    requires forall j :: 0 <= j < k ==> list[j] != cb
    ensures Without(list, cb) == Some(list[..k] + list[k + 1..])
    decreases k
  {
    if k == 0 {
      assert list[..0] + list[1..] == list[1..];
    } else {
      var tail := list[1..];
      WithoutFirst(tail, cb, k - 1);
      assert Without(list, cb) == Some([list[0]] + (tail[..k - 1] + tail[k..]));
      assert [list[0]] + (tail[..k - 1] + tail[k..]) == list[..k] + list[k + 1..];
    }
  }

  /** Deleting a callback just appended to a list that did not hold it restores the list. */
  lemma {:induction false} DeleteUndoesAppend(list: seq<Callback>, cb: Callback)
    requires cb !in list
    ensures Without(list + [cb], cb) == Some(list)
  {
    var l := list + [cb];
    assert forall j :: 0 <= j < |list| ==> l[j] != cb;
    WithoutFirst(l, cb, |list|);
    assert l[..|list|] + l[|list| + 1..] == list;
  }

  /**
   * With cb already registered, deleting after appending it again removes
   * the older registration and keeps the new one at the tail.
   */
  lemma {:induction false} DeleteAfterAppendTakesFirst(list: seq<Callback>, cb: Callback)
    requires cb in list
    ensures Without(list + [cb], cb) == Some(Without(list, cb).value + [cb])
  {
    var k :| 0 <= k < |list| && list[k] == cb && forall j :: 0 <= j < k ==> list[j] != cb by {
      FirstIndexExists(list, cb);
    }
    var l := list + [cb];
    WithoutFirst(list, cb, k);
    WithoutFirst(l, cb, k);
    assert l[..k] + l[k + 1..] == (list[..k] + list[k + 1..]) + [cb];
  }

  lemma FirstIndexExists(list: seq<Callback>, cb: Callback)
    requires cb in list
    ensures exists k :: 0 <= k < |list| && list[k] == cb && forall j :: 0 <= j < k ==> list[j] != cb
  {
    var i := 0;
    while list[i] != cb
      invariant 0 <= i < |list| && cb in list[i..]
      invariant forall j :: 0 <= j < i ==> list[j] != cb
      decreases |list| - i
    {
      assert list[i..] == [list[i]] + list[i + 1..];
      i := i + 1;
    }
  }

  // ---------------------------------------------------------------------
  // The interrupt status
  // ---------------------------------------------------------------------

  /** PCA82C200 interrupt register bits. */
  const PCA_IR_RI := 0x01    // receive
  const PCA_IR_TI := 0x02    // transmit
  const PCA_IR_EI := 0x04    // error
  const PCA_IR_OI := 0x08    // overrun
  /** PCA82C200 status register bits. */
  const PCA_SR_TBS := 0x04   // transmit buffer released
  const PCA_SR_ES := 0x40    // error status
  const PCA_SR_BS := 0x80    // bus status

  /** canBus.h's bus states. */
  const CAN_BUS_OK := 0
  const CAN_BUS_ERROR := 1
  const CAN_BUS_OFF := 2

  /** The interrupt sources t810ISR handles: after an overrun it reads the register again. */
  function Sources(interrupt: int, rescan: Byte): int {
    if HasBit(interrupt, PCA_IR_OI) then rescan else interrupt
  }

  /** The ISR's switch on status & (ES | BS). */
  function BusState(status: Byte): (b: int)
    ensures b == CAN_BUS_OK || b == CAN_BUS_ERROR || b == CAN_BUS_OFF
    ensures status < PCA_SR_ES ==> b == CAN_BUS_OK
  {
    var esbs := (status / 64) * 64;
    if esbs == PCA_SR_ES then CAN_BUS_ERROR
    else if esbs == PCA_SR_BS || esbs == PCA_SR_BS + PCA_SR_ES then CAN_BUS_OFF
    else CAN_BUS_OK
  }

  /**
   * The bus is reported off exactly when BS is set, in error exactly when
   * ES is set without BS, and OK when neither is.
   */
  lemma BusStateBits(status: Byte)
    ensures BusState(status) == CAN_BUS_OFF <==> HasBit(status, PCA_SR_BS)
    ensures BusState(status) == CAN_BUS_ERROR <==> HasBit(status, PCA_SR_ES) && !HasBit(status, PCA_SR_BS)
    ensures BusState(status) == CAN_BUS_OK <==> !HasBit(status, PCA_SR_ES) && !HasBit(status, PCA_SR_BS)
  {
    var q := status / 64;
    assert 0 <= q < 4;
    assert status / 128 == q / 2;
    assert HasBit(status, PCA_SR_ES) <==> q % 2 == 1;
    assert HasBit(status, PCA_SR_BS) <==> q / 2 == 1;
  }

  // ---------------------------------------------------------------------
  // Devices
  // ---------------------------------------------------------------------

  /**
   * t810Dev_t: a registered TIP810 module, its controller, its counters,
   * its callback lists and the pending canRead buffer. The call trace
   * records every callback the driver makes; delivered holds what the
   * receive task copied into a waiting canRead's buffer.
   */
  class Device {
    const name: string
    const card: int
    const slot: int
    const irqNum: int
    const busRate: int
    const magic: int
    const chip: Pca82c200
    var txCount: int
    var rxCount: int
    var overCount: int
    var unusedCount: int
    var unusedId: int
    var errorCount: int
    var busOffCount: int
    var readBuffer: Option<CanMessage>
    var delivered: Option<CanMessage>
    var msgHandlers: seq<seq<Callback>>
    var sigHandlers: seq<Callback>
    var trace: seq<Call>

    /** One callback list per identifier, wrapping counters, and a valid controller. */
    predicate Valid()
      reads this
    {
      |msgHandlers| == CAN_IDENTIFIERS && chip.Valid() &&
      0 <= txCount < U32 && 0 <= rxCount < U32 && 0 <= overCount < U32 &&
      0 <= unusedCount < U32 && 0 <= errorCount < U32 && 0 <= busOffCount < U32
    }

    /** t810Create's initialisation of a new device table. */
    constructor (name: string, card: int, slot: int, irqNum: int, busRate: int, magic: int, chip: Pca82c200)
      requires chip.Valid()
      ensures Valid()
      ensures this.name == name && this.card == card && this.slot == slot && this.irqNum == irqNum
      ensures this.busRate == busRate && this.magic == magic && this.chip == chip
      ensures readBuffer.None? && sigHandlers == [] && trace == [] && delivered.None?
      ensures forall id :: 0 <= id < CAN_IDENTIFIERS ==> msgHandlers[id] == []
      ensures txCount == rxCount == overCount == unusedCount == unusedId == errorCount == busOffCount == 0
    {
      this.name, this.card, this.slot, this.irqNum := name, card, slot, irqNum;
      this.busRate, this.magic, this.chip := busRate, magic, chip;
      txCount, rxCount, overCount, unusedCount, unusedId, errorCount, busOffCount := 0, 0, 0, 0, 0, 0, 0;
      readBuffer, delivered := None, None;
      msgHandlers := seq(CAN_IDENTIFIERS, _ => []);
      sigHandlers, trace := [], [];
    }

    /** doCallbacks: run every callback of the list, in order, with the parameter p. */
    method DoCallbacks(list: seq<Callback>, p: Param)
      modifies this`trace
      ensures trace == old(trace) + Calls(list, p)
    {
      var i := 0;
      while i < |list|
        invariant 0 <= i <= |list|
        invariant trace == old(trace) + Calls(list[..i], p)
      {
        assert list[..i + 1] == list[..i] + [list[i]];
        CallsJoin(list[..i], [list[i]], p);
        trace := trace + [Call(list[i], p)];
        i := i + 1;
      }
      assert list[..i] == list;
    }

    /**
     * canWrite: check the device and the message, take the transmit
     * semaphore (semTaken says whether that succeeded within the timeout),
     * and hand the message to the chip if its transmit buffer is free.
     */
    method CanWrite(m: CanMessage, semTaken: bool) returns (st: CanStatus)
      requires Valid() && Stored(m)
      modifies chip`txDesc0, chip`txDesc1, chip`command, chip.txData
      ensures magic != T810_MAGIC_NUMBER ==> st == BadDevice
      ensures magic == T810_MAGIC_NUMBER && !Sendable(m) ==> st == BadMessage
      ensures magic == T810_MAGIC_NUMBER && Sendable(m) && !semTaken ==> st == Errno
      ensures magic == T810_MAGIC_NUMBER && Sendable(m) && semTaken ==>
                st == (if HasBit(chip.status, PCA_SR_TBS) then Ok else TransmitterBusy)
      ensures st == Ok ==>
                chip.txDesc0 == TxDesc0(m.identifier) && chip.txDesc1 == TxDesc1(m.identifier, m.rtr, m.length) &&
                chip.txData[..] == TxData(m, old(chip.txData[..])) && chip.command == PCA_CMR_TR
      ensures st != Ok ==> unchanged(chip) && unchanged(chip.txData)
    {
      if magic != T810_MAGIC_NUMBER {
        return BadDevice;
      }
      st := CheckMessage(m);
      CheckMessageAccepts(m);
      if st != Ok {
        return;
      }
      if !semTaken {
        return Errno;
      }
      if (chip.status / PCA_SR_TBS) % 2 == 1 {
        chip.PutTxMessage(m);
        return Ok;
      } else {
        return TransmitterBusy;
      }
    }

    /**
     * canMessage: append a callback for one identifier. allocOk says
     * whether malloc succeeded.
     */
    method CanMessage(identifier: int, cb: Callback, allocOk: bool) returns (st: CanStatus)
      requires Valid() && 0 <= identifier < 0x10000
      modifies this`msgHandlers
      ensures Valid()
      ensures magic != T810_MAGIC_NUMBER ==> st == BadDevice
      ensures magic == T810_MAGIC_NUMBER && (identifier >= CAN_IDENTIFIERS || cb.routine == NULL) ==> st == BadMessage
      ensures magic == T810_MAGIC_NUMBER && identifier < CAN_IDENTIFIERS && cb.routine != NULL ==>
                st == (if allocOk then Ok else Errno)
      ensures st == Ok ==> msgHandlers == old(msgHandlers)[identifier := old(msgHandlers)[identifier] + [cb]]
      ensures st != Ok ==> msgHandlers == old(msgHandlers)
    {
      if magic != T810_MAGIC_NUMBER {
        return BadDevice;
      }
      if identifier >= CAN_IDENTIFIERS || cb.routine == NULL {
        return BadMessage;
      }
      if !allocOk {
        return Errno;
      }
      msgHandlers := msgHandlers[identifier := msgHandlers[identifier] + [cb]];
      return Ok;
    }

    /**
     * canMsgDelete: unlink the first callback of the identifier's list that
     * has the same routine and private pointer.
     */
    method CanMsgDelete(identifier: int, cb: Callback) returns (st: CanStatus)
      requires Valid() && 0 <= identifier < 0x10000
      modifies this`msgHandlers
      ensures Valid()
      ensures magic != T810_MAGIC_NUMBER ==> st == BadDevice
      ensures magic == T810_MAGIC_NUMBER && (identifier >= CAN_IDENTIFIERS || cb.routine == NULL) ==> st == BadMessage
      ensures magic == T810_MAGIC_NUMBER && identifier < CAN_IDENTIFIERS && cb.routine != NULL ==>
                st == (if cb in old(msgHandlers)[identifier] then Ok else NoMessage)
      ensures st == Ok ==>
                msgHandlers == old(msgHandlers)[identifier := Without(old(msgHandlers)[identifier], cb).value]
      ensures st != Ok ==> msgHandlers == old(msgHandlers)
    {
      if magic != T810_MAGIC_NUMBER {
        return BadDevice;
      }
      if identifier >= CAN_IDENTIFIERS || cb.routine == NULL {
        return BadMessage;
      }
      var list := msgHandlers[identifier];
      var i := 0;
      while i < |list|
        invariant 0 <= i <= |list|
        invariant forall j :: 0 <= j < i ==> list[j] != cb
      {
        if list[i] == cb {
          WithoutFirst(list, cb, i);
          msgHandlers := msgHandlers[identifier := list[..i] + list[i + 1..]];
          return Ok;
        }
        i := i + 1;
      }
      return NoMessage;
    }

    /** canSignal: append an error-signal callback. */
    method CanSignal(cb: Callback, allocOk: bool) returns (st: CanStatus)
      modifies this`sigHandlers
      ensures st == (if magic != T810_MAGIC_NUMBER then BadDevice else if allocOk then Ok else Errno)
      ensures st == Ok ==> sigHandlers == old(sigHandlers) + [cb]
      ensures st != Ok ==> sigHandlers == old(sigHandlers)
    {
      if magic != T810_MAGIC_NUMBER {
        return BadDevice;
      }
      if !allocOk {
        return Errno;
      }
      sigHandlers := sigHandlers + [cb];
      return Ok;
    }

    /**
     * The error interrupt: classify the chip's status, count an error or a
     * bus-off event, and pass the bus state to every error-signal callback.
     */
    method ErrorInterrupt()
      requires Valid() && 0 <= chip.status < 256
      modifies this`errorCount, this`busOffCount, this`trace
      ensures Valid()
      ensures errorCount == (if BusState(chip.status) == CAN_BUS_ERROR then Inc(old(errorCount)) else old(errorCount))
      ensures busOffCount == (if BusState(chip.status) == CAN_BUS_OFF then Inc(old(busOffCount)) else old(busOffCount))
      ensures trace == old(trace) + Calls(sigHandlers, BusStatus(BusState(chip.status)))
    {
      var status := BusState(chip.status);
      if status == CAN_BUS_ERROR {
        errorCount := Inc(errorCount);
      } else if status == CAN_BUS_OFF {
        busOffCount := Inc(busOffCount);
      }
      DoCallbacks(sigHandlers, BusStatus(status));
    }

    /**
     * t810ISR's bookkeeping for one interrupt. rescan is what the interrupt
     * register reads after an overrun has restarted the chip, and buffer
     * the message structure getRxMessage writes into. A received message is
     * returned for the receive queue.
     */
    method Isr(rescan: Byte, buffer: CanMessage) returns (received: Option<CanMessage>)
      requires Valid() && |buffer.data| == CAN_DATA_SIZE && 0 <= chip.status < 256
      modifies this`overCount, this`errorCount, this`busOffCount, this`txCount, this`trace, chip`command
      ensures Valid()
      ensures overCount == (if HasBit(chip.interrupt, PCA_IR_OI) then Inc(old(overCount)) else old(overCount))
      ensures received == (if HasBit(Sources(chip.interrupt, rescan), PCA_IR_RI)
                           then Some(RxMessage(chip.rxDesc0, chip.rxDesc1, chip.rxData[..], buffer)) else None)
      ensures HasBit(Sources(chip.interrupt, rescan), PCA_IR_EI) ==>
                errorCount == (if BusState(chip.status) == CAN_BUS_ERROR then Inc(old(errorCount)) else old(errorCount)) &&
                busOffCount == (if BusState(chip.status) == CAN_BUS_OFF then Inc(old(busOffCount)) else old(busOffCount)) &&
                trace == old(trace) + Calls(sigHandlers, BusStatus(BusState(chip.status)))
      ensures !HasBit(Sources(chip.interrupt, rescan), PCA_IR_EI) ==>
                errorCount == old(errorCount) && busOffCount == old(busOffCount) && trace == old(trace)
      ensures txCount == (if HasBit(Sources(chip.interrupt, rescan), PCA_IR_TI) then Inc(old(txCount)) else old(txCount))
    {
      var intSource := chip.interrupt;
      if (intSource / PCA_IR_OI) % 2 == 1 {
        overCount := Inc(overCount);
        intSource := rescan;
      }
      received := None;
      if (intSource / PCA_IR_RI) % 2 == 1 {
        var m := chip.GetRxMessage(buffer);
        received := Some(m);
      }
      if (intSource / PCA_IR_EI) % 2 == 1 {
        ErrorInterrupt();
      }
      if (intSource / PCA_IR_TI) % 2 == 1 {
        txCount := Inc(txCount);
      }
    }

    /**
     * One pass of t810RecvTask for a message taken from the receive queue:
     * count it, run its identifier's callbacks or record it as unused, and
     * hand it to a canRead waiting for that identifier.
     */
    method Receive(msg: CanMessage)
      requires Valid() && 0 <= msg.identifier < CAN_IDENTIFIERS
      modifies this`rxCount, this`unusedId, this`unusedCount, this`trace, this`readBuffer, this`delivered
      ensures Valid()
      ensures rxCount == Inc(old(rxCount))
      ensures msgHandlers[msg.identifier] == [] ==>
                unusedId == msg.identifier && unusedCount == Inc(old(unusedCount)) && trace == old(trace)
      ensures msgHandlers[msg.identifier] != [] ==>
                unusedId == old(unusedId) && unusedCount == old(unusedCount) &&
                trace == old(trace) + Calls(msgHandlers[msg.identifier], Message(msg))
      ensures old(readBuffer).Some? && old(readBuffer).value.identifier == msg.identifier ==>
                readBuffer.None? && delivered == Some(msg)
      ensures !(old(readBuffer).Some? && old(readBuffer).value.identifier == msg.identifier) ==>
                readBuffer == old(readBuffer) && delivered == old(delivered)
    {
      rxCount := Inc(rxCount);
      var handlers := msgHandlers[msg.identifier];
      if handlers == [] {
        unusedId := msg.identifier;
        unusedCount := Inc(unusedCount);
      } else {
        DoCallbacks(handlers, Message(msg));
      }
      if readBuffer.Some? && readBuffer.value.identifier == msg.identifier {
        delivered := Some(msg);
        readBuffer := None;
      }
    }
  }

  /** Running two lists one after the other makes the calls of their concatenation. */
  lemma {:induction false} CallsJoin(a: seq<Callback>, b: seq<Callback>, p: Param)
    ensures Calls(a + b, p) == Calls(a, p) + Calls(b, p)
    decreases |a|
  {
    if a == [] {
      assert a + b == b;
    } else {
      assert (a + b)[1..] == a[1..] + b;
      CallsJoin(a[1..], b, p);
    }
  }

  // ---------------------------------------------------------------------
  // The device list
  // ---------------------------------------------------------------------

  /** A device already registered under this name or at this carrier and slot. */
  predicate Clash(d: Device, name: string, card: int, slot: int) {
    d.name == name || (d.card == card && d.slot == slot)
  }

  /** The t810Create settings the chip is left with, in the reset state. */
  const PCA_CR_RR := 0x01
  /** PCA_OCR_OCM_NORMAL | PCA_OCR_OCT0_PUSHPULL | PCA_OCR_OCT1_PUSHPULL */
  const OUTPUT_CONTROL := 0x02 + 0x18 + 0xc0

  /** A request the driver makes of the carrier driver's ipmIrqCmd. */
  datatype IrqRequest = IrqRequest(card: int, slot: int, irqNumber: int, cmd: IrqCmd)

  /**
   * The driver's list of devices, and the interrupt requests it has made
   * of the carrier drivers.
   */
  class Registry {
    /** pt810First: the registered devices, in the order they were created. */
    var devices: seq<Device>
    var irqRequests: seq<IrqRequest>

    /** No two devices share a bus name or a carrier and slot. */
    predicate Valid()
      reads this
    {
      forall i, j :: 0 <= i < j < |devices| ==> !Clash(devices[i], devices[j].name, devices[j].card, devices[j].slot)
    }

    /** A device with this name or carrier and slot is already registered. */
    predicate Taken(name: string, card: int, slot: int)
      reads this
    {
      exists k :: 0 <= k < |devices| && Clash(devices[k], name, card, slot)
    }

    constructor ()
      ensures Valid() && devices == [] && irqRequests == []
    {
      devices, irqRequests := [], [];
    }

    /**
     * t810Create. validated is ipmValidate's status for the slot (0 when it
     * holds a TIP810), allocOk whether malloc and the semaphore creation
     * succeeded, and chip the controller ipmBaseAddr maps for the slot.
     * A created device starts with empty callback lists and zero counters,
     * and its slot's interrupts are enabled last of all.
     */
    method Create(name: string, card: int, slot: int, irqNum: int, busRate: int,
                  validated: int, allocOk: bool, chip: Pca82c200) returns (st: CanStatus, dev: Device?)
      requires Valid() && chip.Valid() && 0 <= busRate < U32
      modifies this, chip`control, chip`acceptanceCode, chip`acceptanceMask,
               chip`busTiming0, chip`busTiming1, chip`outputControl
      ensures Valid()
      ensures validated != 0 ==> st == Ipac(validated)
      ensures validated == 0 && !RateLegal(busRate) ==> st == BadBusRate
      ensures validated == 0 && RateLegal(busRate) && old(Taken(name, card, slot)) ==> st == DuplicateDevice
      ensures validated == 0 && RateLegal(busRate) && !old(Taken(name, card, slot)) ==>
                st == (if allocOk then Ok else Errno)
      ensures st == Ok ==>
                dev != null && fresh(dev) && devices == old(devices) + [dev] &&
                dev.name == name && dev.card == card && dev.slot == slot && dev.busRate == busRate &&
                dev.irqNum == irqNum && dev.magic == T810_MAGIC_NUMBER && dev.chip == chip && dev.Valid() &&
                dev.readBuffer.None? && dev.sigHandlers == [] &&
                (forall id :: 0 <= id < CAN_IDENTIFIERS ==> dev.msgHandlers[id] == []) &&
                dev.txCount == dev.rxCount == dev.overCount == dev.unusedCount == 0 &&
                dev.errorCount == dev.busOffCount == 0 &&
                irqRequests == old(irqRequests) + [IrqRequest(card, slot, 0, StatActive)] &&
                chip.control == PCA_CR_RR && chip.acceptanceCode == 0 && chip.acceptanceMask == 0xff &&
                (exists k :: 0 <= k < |RateTable| && RateTable[k].rate == busRate &&
                             chip.busTiming0 == RateTable[k].busTiming0 && chip.busTiming1 == RateTable[k].busTiming1) &&
                chip.outputControl == OUTPUT_CONTROL
      ensures st != Ok ==> devices == old(devices) && irqRequests == old(irqRequests) && unchanged(chip)
    {
      dev := null;
      if validated != 0 {
        return Ipac(validated), null;
      }
      var index;
      st, index := FindRate(busRate);
      if st != Ok {
        return;
      }
      var i := 0;
      while i < |devices|
        invariant 0 <= i <= |devices|
        invariant forall k :: 0 <= k < i ==> !Clash(devices[k], name, card, slot)
      {
        if devices[i].name == name || (devices[i].card == card && devices[i].slot == slot) {
          return DuplicateDevice, null;
        }
        i := i + 1;
      }
      if !allocOk {
        return Errno, null;
      }
      dev := new Device(name, card, slot, irqNum, busRate, T810_MAGIC_NUMBER, chip);
      devices := devices + [dev];
      chip.control := PCA_CR_RR;
      chip.acceptanceCode := 0;
      chip.acceptanceMask := 0xff;
      chip.busTiming0 := RateTable[index].busTiming0;
      chip.busTiming1 := RateTable[index].busTiming1;
      chip.outputControl := OUTPUT_CONTROL;
      irqRequests := irqRequests + [IrqRequest(card, slot, 0, StatActive)];
    }

    /** canOpen: the first device registered under the bus name. */
    method Open(name: string) returns (st: CanStatus, dev: Device?)
      ensures st == Ok || st == NoDevice
      ensures st == Ok <==> exists k :: 0 <= k < |devices| && devices[k].name == name
      ensures st == Ok ==> dev != null && dev in devices && dev.name == name
    {
      var i := 0;
      while i < |devices|
        invariant 0 <= i <= |devices|
        invariant forall k :: 0 <= k < i ==> devices[k].name != name
      {
        if devices[i].name == name {
          return Ok, devices[i];
        }
        i := i + 1;
      }
      return NoDevice, null;
    }
  }
}
