/*
 * The Acromag APCIe8650 carrier (four IP slots on PCIe), driven through
 * Linux UIO, as in the top-level drvApcie8650.c: a constant offset table
 * into the mapped I/O window, interrupt commands that only set or clear
 * the one interrupt enable bit of the control byte, and the interrupt
 * routing shared with the TAMC220, here re-reading the pending word for
 * every slot. Its xipIoParse is the one modelled in XipIo.
 */
module Apcie8650 {
  import opened IpacBase
  import opened PrivateTable
  import opened CarrierIsr

  const SLOTS := 4

  /** Offsets into the I/O window of each slot's registers and ID PROM. */
  const REGS_A := 0x0180
  const PROM_A := 0x0040
  const REGS_B := 0x0200
  const PROM_B := 0x0080
  const REGS_C := 0x0280
  const PROM_C := 0x00C0
  const REGS_D := 0x0300
  const PROM_D := 0x0100
  const REGS_SIZE := 0x0400

  /** Each slot has 0x40 bytes of ID space and 0x80 bytes of I/O space. */
  const ID_SIZE := 0x40
  const IO_SIZE := 0x80

  const IRQ_LEVEL := 6

  /** The C offset[IO_SPACES][SLOTS] table flattened: the PROM row, then the register row. */
  const OFFSETS: seq<int> := [PROM_A, PROM_B, PROM_C, PROM_D, REGS_A, REGS_B, REGS_C, REGS_D]

  // ------------------------------------------------------ address table

  /** Slot s's ID space lies at 0x40 * (s + 1), its I/O space at 0x180 + 0x80 * s. */
  lemma OffsetsLayout(slot: nat)
    requires slot < SLOTS
    ensures OFFSETS[Entry(SLOTS, 0, slot)] == ID_SIZE * (slot + 1)
    ensures OFFSETS[Entry(SLOTS, 1, slot)] == 0x180 + IO_SIZE * slot
    ensures OFFSETS[Entry(SLOTS, 1, slot)] + IO_SIZE <= REGS_SIZE
  {
  }

  /** The size of the window at each entry of the table. */
  function WindowSize(n: nat): int {
    if n < SLOTS then ID_SIZE else IO_SIZE
  }

  /** No two windows in the table overlap, and all lie in the card's REGS_SIZE bytes. */
  lemma WindowsApart(m: nat, n: nat)
    requires m < IO_SPACES * SLOTS && n < IO_SPACES * SLOTS && m != n
    ensures OFFSETS[m] + WindowSize(m) <= OFFSETS[n] || OFFSETS[n] + WindowSize(n) <= OFFSETS[m]
    ensures OFFSETS[m] + WindowSize(m) <= REGS_SIZE
  {
  }

  /** What baseAddr returns for a card mapped at ioBase. */
  lemma AddressOfSlot(ioBase: int, slot: nat)
    requires slot < SLOTS
    ensures BaseAddrOf(Table(ioBase, OFFSETS), SLOTS, slot, ID) == ioBase + ID_SIZE * (slot + 1)
    ensures BaseAddrOf(Table(ioBase, OFFSETS), SLOTS, slot, IO) == ioBase + 0x180 + IO_SIZE * slot
  {
    OffsetsLayout(slot);
  }

  // ------------------------------------------------------------ irqCmd

  /** What irqCmd returns and the control byte afterwards. */
  datatype Outcome = Outcome(reply: IrqReply, ctl: Byte)

  /** The slots irqCmd acts on (its `case 0 .. case 3`). */
  predicate CardSlot(slot: nat) {
    slot < SLOTS
  }

  /**
   * irqCmd: levels 0 and 6 are accepted and ignored, GetLevel returns 6;
   * Clear and Enable set the interrupt enable bit and Disable clears it,
   * for a card slot, and all three return OK for any slot; everything else
   * is not implemented. The interrupt line is not looked at.
   */
  function IrqStep(ctl: Byte, slot: nat, cmd: IrqCmd): (r: Outcome)
    ensures r.ctl != ctl ==> CardSlot(slot) && r.reply == Code(OK)
    ensures r.reply.Value? <==> cmd == GetLevel
    ensures r.reply == Code(NotImplemented) <==> !(cmd in {IrqLevel(0), IrqLevel(6), GetLevel, Clear, Enable, Disable})
  {
    match cmd
    case IrqLevel(n) =>
      if n == 0 || n == 6 then Outcome(Code(OK), ctl) else Outcome(Code(NotImplemented), ctl)
    case GetLevel => Outcome(Value(IRQ_LEVEL), ctl)
    case Clear => Outcome(Code(OK), if CardSlot(slot) then WithIntEnable(ctl) else ctl)
    case Enable => Outcome(Code(OK), if CardSlot(slot) then WithIntEnable(ctl) else ctl)
    case Disable => Outcome(Code(OK), if CardSlot(slot) then WithoutIntEnable(ctl) else ctl)
    case _ => Outcome(Code(NotImplemented), ctl)
  }

  /** Clear is Enable on this card ("no 'clear' on APCI8650 so just enable"). */
  lemma ClearIsEnable(ctl: Byte, slot: nat)
    ensures IrqStep(ctl, slot, Clear) == IrqStep(ctl, slot, Enable)
  {
  }

  /** For a card slot, Enable leaves the bit set and Disable leaves it clear, other bits untouched. */
  lemma EnableDisable(ctl: Byte, slot: nat)
    requires CardSlot(slot)
    ensures IntEnabled(IrqStep(ctl, slot, Enable).ctl) && !IntEnabled(IrqStep(ctl, slot, Disable).ctl)
    ensures OtherBits(IrqStep(ctl, slot, Enable).ctl) == OtherBits(ctl) == OtherBits(IrqStep(ctl, slot, Disable).ctl)
  {
  }

  /** The bit is shared by all four slots: disabling any slot disables the slot that was enabled. */
  lemma SharedEnableBit(ctl: Byte, s: nat, t: nat)
    requires CardSlot(s) && CardSlot(t)
    ensures !IntEnabled(IrqStep(IrqStep(ctl, s, Enable).ctl, t, Disable).ctl)
  {
  }

  // --------------------------------------------------------------- class

  /** One APCIe8650 carrier: its private table, card number, control byte and waiting thread. */
  class Carrier {
    const table: Private
    const card: int
    var ctl: Byte
    const isr: IsrTable
    const thread: WaitThread

    predicate Valid()
      reads this, table, thread
    {
      table.Valid() && table.slots == SLOTS && thread.table == isr
    }

    /**
     * The part of initialise that follows a successful mmap: fill the
     * table, set the interrupt enable bit, record the card number and start
     * the thread. ctl is what the control byte held before.
     */
    constructor (ioBase: int, card: int, ctl: Byte, isr: IsrTable)
      ensures Valid() && fresh(table) && fresh(table.memSpaces) && fresh(thread)
      ensures table.memSpaces[..] == Table(ioBase, OFFSETS)
      ensures this.card == card && this.ctl == WithIntEnable(ctl) && this.isr == isr
      ensures thread.oldicount == FIRST_OLDICOUNT && thread.reported == [] && thread.calls == []
    {
      table := new Private(ioBase, OFFSETS, SLOTS);
      this.card := card;
      this.ctl := WithIntEnable(ctl);
      this.isr := isr;
      thread := new WaitThread(isr);
    }

    method BaseAddr(slot: nat, space: AddrSpace) returns (addr: int)
      requires Valid() && slot < SLOTS
      ensures addr == BaseAddrOf(table.memSpaces[..], SLOTS, slot, space)
    {
      addr := table.BaseAddr(slot, space);
    }

    method IrqCmd(slot: nat, irqNumber: nat, cmd: IrqCmd) returns (reply: IrqReply)
      modifies this`ctl
      ensures reply == IrqStep(old(ctl), slot, cmd).reply && ctl == IrqStep(old(ctl), slot, cmd).ctl
    {
      match cmd {
        case IrqLevel(n) =>
          reply := if n == 0 || n == 6 then Code(OK) else Code(NotImplemented);
        case GetLevel =>
          reply := Value(IRQ_LEVEL);
        case Clear =>
          if slot < SLOTS {
            ctl := WithIntEnable(ctl);
          }
          reply := Code(OK);
        case Enable =>
          if slot < SLOTS {
            ctl := WithIntEnable(ctl);
          }
          reply := Code(OK);
        case Disable =>
          if slot < SLOTS {
            ctl := WithoutIntEnable(ctl);
          }
          reply := Code(OK);
        case _ =>
          reply := Code(NotImplemented);
      }
    }

    /** intConnect: the static table's entry for the slot; the vector is ignored. */
    method IntConnect(slot: nat, vec: int, routine: int, param: int) returns (st: Status)
      requires isr.slots.Length == ISR_SLOTS && slot < SLOTS
      modifies isr.slots
      ensures isr.slots[..] == old(isr.slots[..])[slot := Isr(routine, param)]
      ensures st == OK
    {
      st := isr.Connect(slot, routine, param);
    }

    /**
     * One turn of ipApcie8650WaitForInts after read() returned err bytes
     * and the count icount: the gap check, then, if the read succeeded, one
     * pass over the four slots, iprs[s] being the pending word read for s.
     */
    method WaitStep(err: int, icount: int, iprs: seq<bv16>) returns (running: bool)
      requires Valid() && isr.slots.Length == ISR_SLOTS && |iprs| == SLOTS
      modifies thread
      ensures running <==> err == COUNT_BYTES
      ensures thread.oldicount == icount
      ensures thread.reported == old(thread.reported) +
        (if Missed(old(thread.oldicount), icount) then [Skipped(old(thread.oldicount), icount)] else [])
      ensures thread.calls == old(thread.calls) + (if running then Fired(isr.slots[..], iprs) else [])
    {
      running := thread.Wake(err, icount);
      if running {
        thread.Pass(iprs);
      }
    }
  }
}
