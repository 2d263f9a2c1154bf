/*
 * The TEWS TAMC220 carrier (three IP slots on PCIe), driven through Linux
 * UIO: a constant offset table into the mapped I/O window, interrupt
 * commands that set and clear the per-slot enable bits of the ipCtl
 * control words, and the interrupt routing shared with the APCIe8650.
 */
module Tamc220 {
  import opened IpacBase
  import opened PrivateTable
  import opened CarrierIsr

  const SLOTS := 3

  /** Offsets into the I/O window of each slot's registers and ID PROM. */
  const REGS_A := 0x000
  const PROM_A := 0x080
  const REGS_B := 0x100
  const PROM_B := 0x180
  const REGS_C := 0x200
  const PROM_C := 0x280
  const REGS_SIZE := 128

  /** TAMC220_IO_SIZE: the length of the mapped I/O window. */
  const IO_SIZE := 4096

  /** The C offset[IO_SPACES][SLOTS] table flattened: the PROM row, then the register row. */
  const OFFSETS: seq<int> := [PROM_A, PROM_B, PROM_C, REGS_A, REGS_B, REGS_C]

  /** TAMC220_CTLSTS_INT0_ENABLE and _INT1_ENABLE in a slot's ipCtl word. */
  const INT0_ENABLE: bv16 := 0x40
  const INT1_ENABLE: bv16 := 0x80

  /** The 16-bit words of struct ctlStatus: revID, ipCtl[3], rsvd0, ipReset, ipStatus. */
  const REV_ID := 0
  const IP_CTL := 1
  const RSVD0 := 4
  const IP_RESET := 5
  const IP_STATUS := 6

  // ------------------------------------------------------ address table

  /** Slot s's registers lie 0x100 * s into the window and its PROM 0x80 above them. */
  lemma OffsetsLayout(slot: nat)
    requires slot < SLOTS
    ensures OFFSETS[Entry(SLOTS, 1, slot)] == 0x100 * slot
    ensures OFFSETS[Entry(SLOTS, 0, slot)] == 0x100 * slot + 0x80
    ensures OFFSETS[Entry(SLOTS, 0, slot)] + REGS_SIZE <= IO_SIZE
  {
  }

  /** No two windows of REGS_SIZE bytes in the table overlap. */
  lemma WindowsApart(m: nat, n: nat)
    requires m < IO_SPACES * SLOTS && n < IO_SPACES * SLOTS && m != n
    ensures OFFSETS[m] + REGS_SIZE <= OFFSETS[n] || OFFSETS[n] + REGS_SIZE <= OFFSETS[m]
  {
  }

  /** What baseAddr returns for a card mapped at ioBase. */
  lemma AddressOfSlot(ioBase: int, slot: nat)
    requires slot < SLOTS
    ensures BaseAddrOf(Table(ioBase, OFFSETS), SLOTS, slot, IO) == ioBase + 0x100 * slot
    ensures BaseAddrOf(Table(ioBase, OFFSETS), SLOTS, slot, ID) == ioBase + 0x100 * slot + 0x80
  {
    OffsetsLayout(slot);
  }

  // ------------------------------------------------------------ irqCmd

  /** What irqCmd returns and the ipCtl words afterwards. */
  datatype Outcome = Outcome(reply: IrqReply, ipCtl: seq<bv16>)

  /**
   * irqCmd. The line must be 0 or 1 and the slot one of the card's (see
   * Findings for the guard as written). Enable on line 0 sets both enable
   * bits, on line 1 only INT1; Disable clears the line's own bit; GetLevel
   * returns the configured level; the commands that fall through the
   * switch return OK; the rest are not implemented.
   */
  function IrqStep(ipCtl: seq<bv16>, level: int, slot: nat, irqnum: nat, cmd: IrqCmd): (r: Outcome)
    requires |ipCtl| == SLOTS
    ensures |r.ipCtl| == SLOTS
    ensures !IsIrqLine(irqnum) ==> r == Outcome(Code(BadIntLevel), ipCtl)
    ensures IsIrqLine(irqnum) && slot >= SLOTS ==> r == Outcome(Code(BadAddress), ipCtl)
    ensures forall s :: 0 <= s < SLOTS && s != slot ==> r.ipCtl[s] == ipCtl[s]
    ensures r.ipCtl != ipCtl ==> (cmd == Enable || cmd == Disable) && r.reply == Code(OK)
  {
    if !IsIrqLine(irqnum) then Outcome(Code(BadIntLevel), ipCtl)
    else if slot >= SLOTS then Outcome(Code(BadAddress), ipCtl)
    else
      match cmd
      case IrqLevel(_) => Outcome(Code(NotImplemented), ipCtl)
      case GetLevel => Outcome(Value(level), ipCtl)
      case Enable =>
        var w := if irqnum == 0 then SetBits16(SetBits16(ipCtl[slot], INT0_ENABLE), INT1_ENABLE)
                 else SetBits16(ipCtl[slot], INT1_ENABLE);
        Outcome(Code(OK), ipCtl[slot := w])
      case Disable =>
        var w := ClearBits16(ipCtl[slot], if irqnum == 0 then INT0_ENABLE else INT1_ENABLE);
        Outcome(Code(OK), ipCtl[slot := w])
      case Poll => Outcome(Code(NotImplemented), ipCtl)
      case SetEdge => Outcome(Code(NotImplemented), ipCtl)
      case SetLevel => Outcome(Code(NotImplemented), ipCtl)
      case Clear => Outcome(Code(NotImplemented), ipCtl)
      case StatUnused => Outcome(Code(OK), ipCtl)
      case StatActive => Outcome(Code(OK), ipCtl)
  }

  /** The enable bits of a word: bit 6 for line 0, bit 7 for line 1. */
  function LineBit(irqnum: nat): bv16
    requires IsIrqLine(irqnum)
  {
    if irqnum == 0 then INT0_ENABLE else INT1_ENABLE
  }

  /** Enable on line 0 leaves both lines enabled in the slot's word. */
  lemma EnableLine0SetsBoth(ipCtl: seq<bv16>, level: int, slot: nat)
    requires |ipCtl| == SLOTS && slot < SLOTS
    ensures IrqStep(ipCtl, level, slot, 0, Enable).ipCtl[slot] & (INT0_ENABLE | INT1_ENABLE) == INT0_ENABLE | INT1_ENABLE
  {
  }

  /** Enable on line 1 sets bit 7 and leaves bit 6 as it was. */
  lemma EnableLine1SetsInt1(ipCtl: seq<bv16>, level: int, slot: nat)
    requires |ipCtl| == SLOTS && slot < SLOTS
    ensures IrqStep(ipCtl, level, slot, 1, Enable).ipCtl[slot] & INT1_ENABLE == INT1_ENABLE
    ensures IrqStep(ipCtl, level, slot, 1, Enable).ipCtl[slot] & INT0_ENABLE == ipCtl[slot] & INT0_ENABLE
  {
  }

  /** Enable touches no bit of the word other than the two enable bits. */
  lemma EnableKeepsOtherBits(ipCtl: seq<bv16>, level: int, slot: nat, irqnum: nat)
    requires |ipCtl| == SLOTS && slot < SLOTS && IsIrqLine(irqnum)
    ensures IrqStep(ipCtl, level, slot, irqnum, Enable).ipCtl[slot] & !(INT0_ENABLE | INT1_ENABLE)
         == ipCtl[slot] & !(INT0_ENABLE | INT1_ENABLE)
  {
  }

  /** Disable clears the line's bit ... */
  lemma DisableClearsLine(ipCtl: seq<bv16>, level: int, slot: nat, irqnum: nat)
    requires |ipCtl| == SLOTS && slot < SLOTS && IsIrqLine(irqnum)
    ensures IrqStep(ipCtl, level, slot, irqnum, Disable).ipCtl[slot] & LineBit(irqnum) == 0
  {
    assert IrqStep(ipCtl, level, slot, irqnum, Disable).ipCtl[slot] == ClearBits16(ipCtl[slot], LineBit(irqnum));
    SetClear(ipCtl[slot], LineBit(irqnum));
  }

  /** ... and no other bit. */
  lemma DisableKeepsOtherBits(ipCtl: seq<bv16>, level: int, slot: nat, irqnum: nat)
    requires |ipCtl| == SLOTS && slot < SLOTS && IsIrqLine(irqnum)
    ensures IrqStep(ipCtl, level, slot, irqnum, Disable).ipCtl[slot] & !LineBit(irqnum) == ipCtl[slot] & !LineBit(irqnum)
  {
    assert IrqStep(ipCtl, level, slot, irqnum, Disable).ipCtl[slot] == ClearBits16(ipCtl[slot], LineBit(irqnum));
    SetClear(ipCtl[slot], LineBit(irqnum));
  }

  /** Line 1 is symmetric: disabling after enabling gives back a word whose bit 7 was clear. */
  lemma Line1RoundTrip(ipCtl: seq<bv16>, level: int, slot: nat)
    requires |ipCtl| == SLOTS && slot < SLOTS && ipCtl[slot] & INT1_ENABLE == 0
    ensures IrqStep(IrqStep(ipCtl, level, slot, 1, Enable).ipCtl, level, slot, 1, Disable).ipCtl == ipCtl
  {
    Undo(ipCtl[slot], INT1_ENABLE);
  }

  /** Line 0 is not: disabling it after enabling it leaves line 1 enabled. */
  lemma Line0LeavesInt1(ipCtl: seq<bv16>, level: int, slot: nat)
    requires |ipCtl| == SLOTS && slot < SLOTS
    ensures IrqStep(IrqStep(ipCtl, level, slot, 0, Enable).ipCtl, level, slot, 0, Disable).ipCtl[slot] & INT1_ENABLE == INT1_ENABLE
  {
  }

  /** Findings: the slot guard as written, `slot > 5`, and the ctlStatus word slot's ipCtl access lands on. */
  predicate SlotGuardAsWritten(slot: nat) {
    !(slot > 5)
  }

  function CtlWordAsWritten(slot: nat): nat {
    IP_CTL + slot
  }

  /**
   * The guard as written lets slots 3 to 5 through, and ipCtl[slot] then
   * addresses rsvd0, ipReset and ipStatus: Enable on slot 4 sets bits of
   * the IP reset register.
   */
  lemma SlotGuardOverruns()
    ensures SlotGuardAsWritten(4) && CtlWordAsWritten(4) == IP_RESET
    ensures forall slot: nat :: SlotGuardAsWritten(slot) && slot >= SLOTS ==> CtlWordAsWritten(slot) >= RSVD0
  {
  }

  /** With the guard on the card's slots, every ipCtl access stays among the three ipCtl words. */
  lemma SlotGuardCorrected(slot: nat, irqnum: nat, cmd: IrqCmd, ipCtl: seq<bv16>, level: int)
    requires |ipCtl| == SLOTS && IsIrqLine(irqnum)
    ensures IrqStep(ipCtl, level, slot, irqnum, cmd).ipCtl != ipCtl ==> IP_CTL <= CtlWordAsWritten(slot) < RSVD0
  {
  }

  // --------------------------------------------------------------- class

  /**
   * One TAMC220 carrier: its private table, the configuration it keeps
   * (card number, and the level byte GetLevel reports, which initialise
   * never writes), the ipCtl words of its control/status window, the first
   * byte of its I/O window, and the waiting thread it starts.
   */
  class Carrier {
    const table: Private
    const card: int
    const level: int
    const ipCtl: array<bv16>
    var ioByte: Byte
    const isr: IsrTable
    const thread: WaitThread

    predicate Valid()
      reads this, table, thread
    {
      table.Valid() && table.slots == SLOTS && ipCtl.Length == SLOTS && thread.table == isr
    }

    /**
     * The part of initialise that follows a successful mmap: fill the
     * table, set bit 0x04 of the first byte of the I/O window, record the
     * card number and start the thread. ctl and ioByte are what the
     * hardware held before.
     */
    constructor (ioBase: int, card: int, level: int, ctl: seq<bv16>, ioByte: Byte, isr: IsrTable)
      requires |ctl| == SLOTS
      ensures Valid() && fresh(table) && fresh(table.memSpaces) && fresh(ipCtl) && fresh(thread)
      ensures table.memSpaces[..] == Table(ioBase, OFFSETS)
      ensures this.card == card && this.level == level && ipCtl[..] == ctl && this.isr == isr
      ensures this.ioByte == WithIntEnable(ioByte)
      ensures thread.oldicount == FIRST_OLDICOUNT && thread.reported == [] && thread.calls == []
    {
      table := new Private(ioBase, OFFSETS, SLOTS);
      this.card := card;
      this.level := level;
      ipCtl := new bv16[SLOTS](i requires 0 <= i < SLOTS => ctl[i]);
      this.ioByte := WithIntEnable(ioByte);
      this.isr := isr;
      thread := new WaitThread(isr);
    }

    method BaseAddr(slot: nat, space: AddrSpace) returns (addr: int)
      requires Valid() && slot < SLOTS
      ensures addr == BaseAddrOf(table.memSpaces[..], SLOTS, slot, space)
    {
      addr := table.BaseAddr(slot, space);
    }

    method IrqCmd(slot: nat, irqnum: nat, cmd: IrqCmd) returns (reply: IrqReply)
      requires Valid()
      modifies ipCtl
      ensures reply == IrqStep(old(ipCtl[..]), level, slot, irqnum, cmd).reply
      ensures ipCtl[..] == IrqStep(old(ipCtl[..]), level, slot, irqnum, cmd).ipCtl
    {
      if irqnum != 0 && irqnum != 1 {
        return Code(BadIntLevel);
      }
      if slot >= SLOTS {
        return Code(BadAddress);
      }
      reply := Code(OK);
      match cmd {
        case IrqLevel(_) =>
          reply := Code(NotImplemented);
        case GetLevel =>
          reply := Value(level);
        case Enable =>
          if irqnum == 0 {
            ipCtl[slot] := SetBits16(ipCtl[slot], INT0_ENABLE);
            ipCtl[slot] := SetBits16(ipCtl[slot], INT1_ENABLE);
          } else {
            ipCtl[slot] := SetBits16(ipCtl[slot], INT1_ENABLE);
          }
        case Disable =>
          if irqnum == 0 {
            ipCtl[slot] := ClearBits16(ipCtl[slot], INT0_ENABLE);
          } else {
            ipCtl[slot] := ClearBits16(ipCtl[slot], INT1_ENABLE);
          }
        case Poll =>
          reply := Code(NotImplemented);
        case SetEdge =>
          reply := Code(NotImplemented);
        case SetLevel =>
          reply := Code(NotImplemented);
        case Clear =>
          reply := Code(NotImplemented);
        case StatUnused =>
        case StatActive =>
      }
    }

    /** intConnect: the static table's entry for the slot; the vector is ignored. */
    method IntConnect(slot: nat, vec: int, routine: int, param: int) returns (st: Status)
      requires isr.slots.Length == ISR_SLOTS && slot < SLOTS
      modifies isr.slots
      ensures isr.slots[..] == old(isr.slots[..])[slot := Isr(routine, param)]
      ensures st == OK
    {
      st := isr.Connect(slot, routine, param);
    }

    /**
     * One turn of ipTamc220WaitForIntr after read() returned err bytes and
     * the count icount: the gap check, then, if the read succeeded, one
     * pass over the three slots testing the pending word ipr read once.
     */
    method WaitStep(err: int, icount: int, ipr: bv16) returns (running: bool)
      requires Valid() && isr.slots.Length == ISR_SLOTS
      modifies thread
      ensures running <==> err == COUNT_BYTES
      ensures thread.oldicount == icount
      ensures thread.reported == old(thread.reported) +
        (if Missed(old(thread.oldicount), icount) then [Skipped(old(thread.oldicount), icount)] else [])
      ensures thread.calls == old(thread.calls) + (if running then Fired(isr.slots[..], Repeat(ipr, SLOTS)) else [])
    {
      running := thread.Wake(err, icount);
      if running {
        thread.Pass(Repeat(ipr, SLOTS));
      }
    }
  }
}
