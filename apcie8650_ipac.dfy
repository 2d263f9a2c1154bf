/*
 * The APCIe8650 carrier as in drvIpac/drvApcie8650.c. Its table, its
 * constants and its interrupt routing are those of the top-level driver
 * (module Apcie8650); its irqCmd differs in Clear, which no longer enables
 * but reads the slot's two interrupt-select words (an interrupt-acknowledge
 * cycle on the IP bus) and writes nothing. The thread reads the pending
 * word through the board map once per slot.
 */
module Apcie8650Ipac {
  import opened IpacBase
  import opened PrivateTable
  import opened CarrierIsr
  import A = Apcie8650

  /** struct mapApcie8650 in 16-bit words: stsCtl, intPending, slotAInt0, slotAInt1, ... */
  const STS_CTL := 0
  const INT_PENDING := 1
  const SLOT_A_INT0 := 2
  const NOSLOT_E_INT0 := 10

  /** The words `slotInt[2*slot]` and `slotInt[2*slot+1]` with slotInt at slotAInt0. */
  function SelectWords(slot: nat): (words: seq<nat>) {
    [SLOT_A_INT0 + 2 * slot, SLOT_A_INT0 + 2 * slot + 1]
  }

  /** What irqCmd returns, the control byte afterwards and the board words it read. */
  datatype Outcome = Outcome(reply: IrqReply, ctl: Byte, acks: seq<nat>)

  /**
   * irqCmd: levels 0 and 6 are accepted and ignored, GetLevel returns 6;
   * Clear reads the slot's select words and returns OK; Enable sets and
   * Disable clears the interrupt enable bit for a card slot and both
   * return OK for any slot; everything else is not implemented.
   */
  function IrqStep(ctl: Byte, slot: nat, cmd: IrqCmd): (r: Outcome)
    ensures r.acks != [] <==> cmd == Clear
    ensures r.ctl != ctl ==> A.CardSlot(slot) && (cmd == Enable || cmd == Disable)
  {
    match cmd
    case IrqLevel(n) =>
      if n == 0 || n == 6 then Outcome(Code(OK), ctl, []) else Outcome(Code(NotImplemented), ctl, [])
    case GetLevel => Outcome(Value(A.IRQ_LEVEL), ctl, [])
    case Clear => Outcome(Code(OK), ctl, SelectWords(slot))
    case Enable => Outcome(Code(OK), if slot < A.SLOTS then WithIntEnable(ctl) else ctl, [])
    case Disable => Outcome(Code(OK), if slot < A.SLOTS then WithoutIntEnable(ctl) else ctl, [])
    case _ => Outcome(Code(NotImplemented), ctl, [])
  }

  /** Except for Clear, the command does what the top-level driver's does, and reads nothing. */
  lemma SameAsTopLevel(ctl: Byte, slot: nat, cmd: IrqCmd)
    requires cmd != Clear
    ensures IrqStep(ctl, slot, cmd) == Outcome(A.IrqStep(ctl, slot, cmd).reply, A.IrqStep(ctl, slot, cmd).ctl, [])
  {
  }

  /**
   * Clear writes nothing and returns OK; for a card slot it reads exactly
   * that slot's INT0 and INT1 select words, all inside the slot area of the
   * map. The top-level driver's Clear enables instead.
   */
  lemma ClearOnlyReads(ctl: Byte, slot: nat)
    ensures IrqStep(ctl, slot, Clear).ctl == ctl && IrqStep(ctl, slot, Clear).reply == Code(OK)
    ensures A.CardSlot(slot) ==> forall w :: w in IrqStep(ctl, slot, Clear).acks ==> SLOT_A_INT0 <= w < NOSLOT_E_INT0
    ensures A.CardSlot(slot) && !IntEnabled(ctl) ==> IrqStep(ctl, slot, Clear).ctl != A.IrqStep(ctl, slot, Clear).ctl
  {
  }

  // --------------------------------------------------------------- class

  /** One APCIe8650 carrier, with the board words irqCmd has read. */
  class Carrier {
    const table: Private
    const card: int
    var ctl: Byte
    var acks: seq<nat>
    const isr: IsrTable
    const thread: WaitThread

    predicate Valid()
      reads this, table, thread
    {
      table.Valid() && table.slots == A.SLOTS && thread.table == isr
    }

    /**
     * The part of initialise that follows a successful mmap: fill the
     * table, set the interrupt enable bit, record the card number and start
     * the thread. ctl is what the control byte held before.
     */
    constructor (ioBase: int, card: int, ctl: Byte, isr: IsrTable)
      ensures Valid() && fresh(table) && fresh(table.memSpaces) && fresh(thread)
      ensures table.memSpaces[..] == Table(ioBase, A.OFFSETS)
      ensures this.card == card && this.ctl == WithIntEnable(ctl) && acks == [] && this.isr == isr
      ensures thread.oldicount == FIRST_OLDICOUNT && thread.reported == [] && thread.calls == []
    {
      table := new Private(ioBase, A.OFFSETS, A.SLOTS);
      this.card := card;
      this.ctl := WithIntEnable(ctl);
      acks := [];
      this.isr := isr;
      thread := new WaitThread(isr);
    }

    method BaseAddr(slot: nat, space: AddrSpace) returns (addr: int)
      requires Valid() && slot < A.SLOTS
      ensures addr == BaseAddrOf(table.memSpaces[..], A.SLOTS, slot, space)
    {
      addr := table.BaseAddr(slot, space);
    }

    method IrqCmd(slot: nat, irqNumber: nat, cmd: IrqCmd) returns (reply: IrqReply)
      modifies this`ctl, this`acks
      ensures reply == IrqStep(old(ctl), slot, cmd).reply && ctl == IrqStep(old(ctl), slot, cmd).ctl
      ensures acks == old(acks) + IrqStep(old(ctl), slot, cmd).acks
    {
      match cmd {
        case IrqLevel(n) =>
          reply := if n == 0 || n == 6 then Code(OK) else Code(NotImplemented);
        case GetLevel =>
          reply := Value(A.IRQ_LEVEL);
        case Clear =>
          acks := acks + [SLOT_A_INT0 + 2 * slot];
          acks := acks + [SLOT_A_INT0 + 2 * slot + 1];
          reply := Code(OK);
        case Enable =>
          if slot < A.SLOTS {
            ctl := WithIntEnable(ctl);
          }
          reply := Code(OK);
        case Disable =>
          if slot < A.SLOTS {
            ctl := WithoutIntEnable(ctl);
          }
          reply := Code(OK);
        case _ =>
          reply := Code(NotImplemented);
      }
    }

    /** intConnect: the static table's entry for the slot; the vector is ignored. */
    method IntConnect(slot: nat, vec: int, routine: int, param: int) returns (st: Status)
      requires isr.slots.Length == ISR_SLOTS && slot < A.SLOTS
      modifies isr.slots
      ensures isr.slots[..] == old(isr.slots[..])[slot := Isr(routine, param)]
      ensures st == OK
    {
      st := isr.Connect(slot, routine, param);
    }

    /**
     * One turn of ipApcie8650WaitForInts after read() returned err bytes
     * and the count icount: the gap check, then, if the read succeeded, one
     * pass over the four slots, iprs[s] being brd_ptr->intPending as read
     * for slot s.
     */
    method WaitStep(err: int, icount: int, iprs: seq<bv16>) returns (running: bool)
      requires Valid() && isr.slots.Length == ISR_SLOTS && |iprs| == A.SLOTS
      modifies thread
      ensures running <==> err == COUNT_BYTES
      ensures thread.oldicount == icount
      ensures thread.reported == old(thread.reported) +
        (if Missed(old(thread.oldicount), icount) then [Skipped(old(thread.oldicount), icount)] else [])
      ensures thread.calls == old(thread.calls) + (if running then Fired(isr.slots[..], iprs) else [])
    {
      running := thread.Wake(err, icount);
      if running {
        thread.Pass(iprs);
      }
    }
  }
}
