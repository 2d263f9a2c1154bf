/*
 * The XVME-9660 carrier driver, drvXy9660.c: the I/O base parsed by
 * initialise and the table of ID and I/O windows it fills, baseAddr,
 * irqCmd on the board's status, enable and clear registers, the
 * configuration xy9660Config writes, and the xipIoParse address parser.
 *
 * devRegisterAddress and devEnableInterruptLevelVME are foreign: the first
 * is a parameter, the second is recorded as the levels it was asked to
 * enable. The board's registers are one byte each.
 */
module Xy9660 {
  import opened IpacBase
  import opened Lexer

  const SLOTS: nat := 4
  /** The address spaces the table holds: ID (the PROM) and I/O (the registers). */
  const IO_SPACES: nat := 2
  /** The A16 window devRegisterAddress maps for the card. */
  const REGS_SIZE: int := 0x400
  /** The one VME level the carrier interrupts on. */
  const IRQ_LEVEL: int := 6

  /** offset[IO_SPACES][SLOTS]: the PROM row, then the register row. */
  const PROM_A: bv32 := 0x0080
  const PROM_B: bv32 := 0x0180
  const PROM_C: bv32 := 0x0280
  const PROM_D: bv32 := 0x0380
  const REGS_A: bv32 := 0x0000
  const REGS_B: bv32 := 0x0100
  const REGS_C: bv32 := 0x0200
  const REGS_D: bv32 := 0x0300

  /** config9660.attr: the global interrupt enable. */
  const GLOBAL_ENAB: bv16 := 1
  /** config9660.param: which registers xy9660Config writes. */
  const CLR: bv16 := 1
  const INT_ENAB: bv16 := 2
  const INT_LEV: bv16 := 4
  const MEM_ENABLE: bv16 := 8
  const AMBASR: bv16 := 16
  const BMBASR: bv16 := 32
  const CMBASR: bv16 := 64
  const DMBASR: bv16 := 128
  /** A one-byte register value. */
  type Byte = x: int | 0 <= x < 0x100

  /** 0xFF & ~m: the other bits of a byte. */
  function Complement(m: Byte): Byte { 0xFF - m }

  // ---------------------------------------------------------- initialise

  /**
   * The I/O base in initialise's parameter string: 0 for a NULL or empty
   * string, otherwise the one hex number "%p" reads at its start (anything
   * after it is ignored); None is S_IPAC_badAddress.
   */
  function IoBase(cardParams: Option<string>): (r: Option<int>)
    ensures r.Some? ==> r.value >= 0
    ensures cardParams.None? || cardParams.value == [] ==> r == Some(0)
  {
    if cardParams.None? || cardParams.value == [] then Some(0)
    else match ScanHex(cardParams.value)
      case None => None
      case Some(sc) => Some(sc.value)
  }

  /** A base written as "0x" and hex digits, followed by anything that is not a hex digit, is read back. */
  lemma IoBaseRoundTrip(base: nat, rest: string)
    requires rest == [] || !IsDigitIn(rest[0], 16)
    ensures IoBase(Some("0x" + Hex(base) + rest)) == Some(base)
  {
    ScanHexHex(base, rest);
  }

  /** A string that does not start, after white space, with a hex number is a bad address. */
  lemma IoBaseRejects(s: string)
    requires |s| > 0 && forall i :: 0 <= i < |s| ==> !IsDigitIn(s[i], 16)
    ensures IoBase(Some(s)) == None
  {
  }

  /** offset[space][slot], space 0 being the PROM (ID) row and 1 the register (I/O) row. */
  function Offset(space: nat, slot: nat): bv32
    requires space < IO_SPACES && slot < SLOTS
  {
    if space == 0 then
      if slot == 0 then PROM_A else if slot == 1 then PROM_B else if slot == 2 then PROM_C else PROM_D
    else
      if slot == 0 then REGS_A else if slot == 1 then REGS_B else if slot == 2 then REGS_C else REGS_D
  }

  /** Where private[space][slot] sits when the table is kept row by row. */
  function Entry(space: nat, slot: nat): (n: nat)
    requires space < IO_SPACES && slot < SLOTS
    ensures n < IO_SPACES * SLOTS
  {
    space * SLOTS + slot
  }

  /** The private table for a card whose registers are mapped at ioBase. */
  function Table(ioBase: bv32): (t: seq<bv32>)
    ensures |t| == IO_SPACES * SLOTS
  {
    seq(IO_SPACES * SLOTS, n requires 0 <= n < IO_SPACES * SLOTS => AddrAdd(ioBase, Offset(n / SLOTS, n % SLOTS)))
  }

  /**
   * The offsets in closed form: slot s's registers lie 0x100 * s into the
   * card's window and its PROM 0x80 above them, all inside REGS_SIZE.
   */
  lemma OffsetValue(space: nat, slot: nat)
    requires space < IO_SPACES && slot < SLOTS
    ensures Offset(space, slot) as int == 0x100 * slot + (if space == 0 then 0x80 else 0)
    ensures Offset(space, slot) as int + 0x80 <= REGS_SIZE
  {
  }

  // ----------------------------------------------------------- baseAddr

  /**
   * The index baseAddr reads, (*memSpaces)[space][slot], for every space
   * the IPAC core may ask for.
   */
  function BaseAddrIndexAsWritten(slot: nat, space: AddrSpace): nat {
    SpaceIndex(space) * SLOTS + slot
  }

  function SpaceIndex(space: AddrSpace): (n: nat)
    ensures n < 4
  {
    match space
    case ID => 0
    case IO => 1
    case IO32 => 2
    case Mem => 3
  }

  /**
   * The table has two rows, but the IPAC core's memory space is the
   * fourth: asking for a slot's memory window reads past the table.
   */
  lemma MemSpaceOverruns(slot: nat)
    requires slot < SLOTS
    ensures BaseAddrIndexAsWritten(slot, Mem) >= IO_SPACES * SLOTS
    ensures BaseAddrIndexAsWritten(slot, IO32) >= IO_SPACES * SLOTS
  {
  }

  /**
   * baseAddr as its description intends: the table entry for the ID and
   * I/O spaces, and NULL for a space the card does not decode.
   */
  function BaseAddrOf(table: seq<bv32>, slot: nat, space: AddrSpace): (addr: bv32)
    requires |table| == IO_SPACES * SLOTS && slot < SLOTS
    ensures space == ID ==> addr == table[Entry(0, slot)]
    ensures space == IO ==> addr == table[Entry(1, slot)]
    ensures space == IO32 || space == Mem ==> addr == 0
  {
    match space
    case ID => table[Entry(0, slot)]
    case IO => table[Entry(1, slot)]
    case IO32 => 0
    case Mem => 0
  }

  // -------------------------------------------------------- the registers

  /**
   * The registers of struct map9660 the driver writes. Of the status
   * register only the GLOBAL_EN bit is kept: the driver sets and clears it
   * and leaves the other bits as they are.
   */
  datatype Regs = Regs(globalEn: bool, lev: Byte, memEn: Byte, amb: Byte, bmb: Byte, cmb: Byte, dmb: Byte, en: Byte, clr: Byte)

  /** struct config9660, without the board pointer and the card number. */
  datatype Config = Config(attr: bv16, param: bv16, clear: Byte, enable: Byte, level: Byte,
                           memEnable: Byte, ambasr: Byte, bmbasr: Byte, cmbasr: Byte, dmbasr: Byte)

  /** The configuration initialise writes: clear, enable and level, global interrupts on. */
  const InitConfig: Config := Config(GLOBAL_ENAB, CLR | INT_ENAB | INT_LEV, 0xFF, 0xFF, IRQ_LEVEL, 0, 0, 0, 0, 0)

  predicate Has(param: bv16, bit: bv16) { param & bit != 0 }

  /**
   * The registers after xy9660Config: a register is rewritten exactly when
   * its bit is set in param, and the status register's global enable
   * follows attr.
   */
  function Configured(r: Regs, c: Config): (q: Regs)
    ensures q.globalEn == Has(c.attr, GLOBAL_ENAB)
    ensures c.param == 0 ==> q == r.(globalEn := Has(c.attr, GLOBAL_ENAB))
  {
    Regs(Has(c.attr, GLOBAL_ENAB),
         if Has(c.param, INT_LEV) then c.level else r.lev,
         if Has(c.param, MEM_ENABLE) then c.memEnable else r.memEn,
         if Has(c.param, AMBASR) then c.ambasr else r.amb,
         if Has(c.param, BMBASR) then c.bmbasr else r.bmb,
         if Has(c.param, CMBASR) then c.cmbasr else r.cmb,
         if Has(c.param, DMBASR) then c.dmbasr else r.dmb,
         if Has(c.param, INT_ENAB) then c.enable else r.en,
         if Has(c.param, CLR) then c.clear else r.clr)
  }

  /** Configuring twice is configuring once. */
  lemma ConfiguredIdempotent(r: Regs, c: Config)
    ensures Configured(Configured(r, c), c) == Configured(r, c)
  {
  }

  /** After initialise the level is 6, every slot is enabled and cleared, and nothing else but the global enable moves. */
  lemma InitConfigured(r: Regs)
    ensures var q := Configured(r, InitConfig);
      q.globalEn && q.lev == 6 && q.en == 0xFF && q.clr == 0xFF &&
      q.memEn == r.memEn && q.amb == r.amb && q.bmb == r.bmb && q.cmb == r.cmb && q.dmb == r.dmb
  {
  }

  // ---------------------------------------------------------------- irqCmd

  /** SLOTx_ZERO: the enable and clear mask with slot's line 0 bit cleared. */
  function SlotZero(slot: nat): Byte
    requires slot < SLOTS
  {
    if slot == 0 then 0xFE else if slot == 1 then 0xFB else if slot == 2 then 0xEF else 0xBF
  }

  datatype IrqOutcome = IrqOutcome(regs: Regs, attr: bv16, reply: IrqReply, enableLevel: bool)

  /**
   * irqCmd: Level0 turns global interrupts off and writes the clear mask,
   * Level6 turns them on, GetLevel answers 6, Enable asks for VME level 6,
   * Clear clears the slot's line 0 and re-enables every slot, Disable
   * writes the slot's mask to the enable register; a slot past D is a bad
   * address for Clear and Disable, and every other command is not
   * implemented. The line number is not used.
   */
  function IrqStep(r: Regs, attr: bv16, clear: Byte, slot: nat, cmd: IrqCmd): (o: IrqOutcome)
    ensures o.enableLevel <==> cmd.Enable?
    ensures o.regs.lev == r.lev && o.regs.memEn == r.memEn
    ensures o.regs.amb == r.amb && o.regs.bmb == r.bmb && o.regs.cmb == r.cmb && o.regs.dmb == r.dmb
  {
    match cmd
    case IrqLevel(l) =>
      if l == 0 then IrqOutcome(r.(globalEn := false, clr := clear), 0, Code(OK), false)
      else if l == 6 then IrqOutcome(r.(globalEn := true), GLOBAL_ENAB, Code(OK), false)
      else IrqOutcome(r, attr, Code(NotImplemented), false)
    case GetLevel => IrqOutcome(r, attr, Value(IRQ_LEVEL), false)
    case Enable => IrqOutcome(r, attr, Code(OK), true)
    case Clear =>
      if slot < SLOTS then IrqOutcome(r.(clr := Complement(SlotZero(slot)), en := 0xFF), attr, Code(OK), false)
      else IrqOutcome(r, attr, Code(BadAddress), false)
    case Disable =>
      if slot < SLOTS then IrqOutcome(r.(en := SlotZero(slot)), attr, Code(OK), false)
      else IrqOutcome(r, attr, Code(BadAddress), false)
    case _ => IrqOutcome(r, attr, Code(NotImplemented), false)
  }

  /**
   * The driver's invariant between its attribute mask and the board: the
   * status register has global interrupts on exactly when attr says so.
   */
  predicate Agrees(r: Regs, attr: bv16) { r.globalEn <==> Has(attr, GLOBAL_ENAB) }

  /** Every irqCmd keeps attr and the status register in agreement. */
  lemma IrqStepAgrees(r: Regs, attr: bv16, clear: Byte, slot: nat, cmd: IrqCmd)
    requires Agrees(r, attr)
    ensures var o := IrqStep(r, attr, clear, slot, cmd); Agrees(o.regs, o.attr)
  {
  }

  /** Level0 and Level6 change only the global enable, and Level0 the clear register. */
  lemma LevelsToggleGlobal(r: Regs, attr: bv16, clear: Byte, slot: nat)
    ensures IrqStep(r, attr, clear, slot, IrqLevel(0)) == IrqOutcome(r.(globalEn := false, clr := clear), 0, Code(OK), false)
    ensures IrqStep(r, attr, clear, slot, IrqLevel(6)) == IrqOutcome(r.(globalEn := true), GLOBAL_ENAB, Code(OK), false)
  {
  }

  /** The bit of a slot's line 0 in the enable, pending and clear registers. */
  function Line0(slot: nat): Byte
    requires slot < SLOTS
  {
    if slot == 0 then 0x01 else if slot == 1 then 0x04 else if slot == 2 then 0x10 else 0x40
  }

  /** Whether a slot's line 0 bit is set in v. */
  predicate LineOn(v: Byte, slot: nat)
    requires slot < SLOTS
  {
    (v / Line0(slot)) % 2 == 1
  }

  /** SLOTx_ZERO is every bit but the slot's line 0. */
  lemma SlotZeroIsMask(slot: nat)
    requires slot < SLOTS
    ensures SlotZero(slot) == Complement(Line0(slot))
  {
  }

  /** Clear writes exactly the slot's line 0 bit to the clear register and enables all lines. */
  lemma ClearWritesSlot(r: Regs, attr: bv16, clear: Byte, slot: nat)
    requires slot < SLOTS
    ensures var o := IrqStep(r, attr, clear, slot, Clear);
      o.regs.clr == Line0(slot) && o.regs.en == 0xFF && o.regs.globalEn == r.globalEn && o.attr == attr
  {
  }

  /**
   * Disable turns off the slot's line 0 and writes 1 to every other bit of
   * the enable register: a slot disabled earlier is enabled again.
   */
  lemma DisableWritesWholeRegister(r: Regs, attr: bv16, clear: Byte, slot: nat, other: nat)
    requires slot < SLOTS && other < SLOTS && other != slot
    ensures var o := IrqStep(r, attr, clear, slot, Disable);
      !LineOn(o.regs.en, slot) && LineOn(o.regs.en, other)
  {
  }

  /** A slot past D changes nothing. */
  lemma BadSlotChangesNothing(r: Regs, attr: bv16, clear: Byte, slot: nat, cmd: IrqCmd)
    requires slot >= SLOTS && (cmd == Clear || cmd == Disable)
    ensures IrqStep(r, attr, clear, slot, cmd) == IrqOutcome(r, attr, Code(BadAddress), false)
  {
  }

  // --------------------------------------------------------------- carrier

  /** One carrier: private9660 with its configuration and the board it drives. */
  class Carrier {
    /** *memSpaces, row by row. */
    const memSpaces: array<bv32>
    const ioBase: bv32
    const clear: Byte
    var attr: bv16
    /** The board's registers. */
    var board: Regs
    /** The VME levels devEnableInterruptLevelVME was asked to enable, in order. */
    var levelsEnabled: seq<int>

    predicate Valid()
      reads this
    {
      memSpaces.Length == IO_SPACES * SLOTS
    }

    /** The table and the board as initialise leaves them. */
    constructor (ioBase: bv32, hw: Regs)
      ensures Valid() && fresh(memSpaces) && this.ioBase == ioBase
      ensures memSpaces[..] == Table(ioBase)
      ensures attr == GLOBAL_ENAB && clear == InitConfig.clear
      ensures board == Configured(hw, InitConfig) && levelsEnabled == []
    {
      this.ioBase := ioBase;
      clear := InitConfig.clear;
      attr := GLOBAL_ENAB;
      levelsEnabled := [];
      board := hw;
      memSpaces := new bv32[IO_SPACES * SLOTS];
      new;
      FillTable();
      Configure(InitConfig);
    }

    /** The two nested loops of initialise over spaces and slots. */
    method FillTable()
      requires Valid()
      modifies memSpaces
      ensures memSpaces[..] == Table(ioBase)
    {
      var space := 0;
      while space < IO_SPACES
        invariant 0 <= space <= IO_SPACES
        invariant forall n :: 0 <= n < space * SLOTS ==> memSpaces[n] == Table(ioBase)[n]
      {
        var slot := 0;
        while slot < SLOTS
          invariant 0 <= slot <= SLOTS
          invariant forall n :: 0 <= n < space * SLOTS + slot ==> memSpaces[n] == Table(ioBase)[n]
        {
          memSpaces[Entry(space, slot)] := AddrAdd(ioBase, Offset(space, slot));
          slot := slot + 1;
        }
        space := space + 1;
      }
      assert memSpaces[..] == Table(ioBase);
    }

    /** xy9660Config: write the registers param selects, then the global enable. */
    method Configure(c: Config)
      modifies this`board
      ensures board == Configured(old(board), c)
    {
      var b := board;
      if Has(c.param, INT_LEV) {
        b := b.(lev := c.level);
      }
      if Has(c.param, MEM_ENABLE) {
        b := b.(memEn := c.memEnable);
      }
      if Has(c.param, AMBASR) {
        b := b.(amb := c.ambasr);
      }
      if Has(c.param, BMBASR) {
        b := b.(bmb := c.bmbasr);
      }
      if Has(c.param, CMBASR) {
        b := b.(cmb := c.cmbasr);
      }
      if Has(c.param, DMBASR) {
        b := b.(dmb := c.dmbasr);
      }
      if Has(c.param, INT_ENAB) {
        b := b.(en := c.enable);
      }
      if Has(c.param, CLR) {
        b := b.(clr := c.clear);
      }
      if Has(c.attr, GLOBAL_ENAB) {
        b := b.(globalEn := true);
      } else {
        b := b.(globalEn := false);
      }
      board := b;
    }

    /** baseAddr, with the ID and I/O spaces looked up and the others NULL (see Findings). */
    method BaseAddr(slot: nat, space: AddrSpace) returns (addr: bv32)
      requires Valid() && slot < SLOTS
      ensures addr == BaseAddrOf(memSpaces[..], slot, space)
    {
      match space {
        case ID => addr := memSpaces[Entry(0, slot)];
        case IO => addr := memSpaces[Entry(1, slot)];
        case IO32 => addr := 0;
        case Mem => addr := 0;
      }
    }

    /** irqCmd on the board; the line number is not used. */
    method IrqCmd(slot: nat, irqNumber: nat, cmd: IrqCmd) returns (reply: IrqReply)
      modifies this`attr, this`board, this`levelsEnabled
      ensures var o := IrqStep(old(board), old(attr), clear, slot, cmd);
        board == o.regs && attr == o.attr && reply == o.reply &&
        levelsEnabled == old(levelsEnabled) + (if o.enableLevel then [IRQ_LEVEL] else [])
    {
      match cmd {
        case IrqLevel(l) =>
          if l == 0 {
            attr := 0;
            board := board.(globalEn := false);
            board := board.(clr := clear);
            return Code(OK);
          } else if l == 6 {
            attr := GLOBAL_ENAB;
            board := board.(globalEn := true);
            return Code(OK);
          }
          return Code(NotImplemented);
        case GetLevel =>
          return Value(IRQ_LEVEL);
        case Enable =>
          levelsEnabled := levelsEnabled + [IRQ_LEVEL];
          return Code(OK);
        case Clear =>
          if slot >= SLOTS {
            return Code(BadAddress);
          }
          board := board.(clr := Complement(SlotZero(slot)));
          board := board.(en := 0xFF);
          return Code(OK);
        case Disable =>
          if slot >= SLOTS {
            return Code(BadAddress);
          }
          board := board.(en := SlotZero(slot));
          return Code(OK);
        case _ =>
          return Code(NotImplemented);
      }
    }
  }

  /**
   * initialise: parse the I/O base, map the card's A16 window (register
   * stands for devRegisterAddress) and build the carrier. The soft reset's
   * busy-wait is left out: hw is the board as the reset leaves it.
   */
  method Initialise(cardParams: Option<string>, register: Request -> Mapping, hw: Regs)
    returns (st: Status, c: Carrier?)
    ensures st == OK <==> c != null
    ensures st == OK <==> IoBase(cardParams).Some? && register(CardRequest(IoBase(cardParams).value)).ok
    ensures c != null ==>
      fresh(c) && c.Valid() && c.ioBase == register(CardRequest(IoBase(cardParams).value)).addr &&
      c.memSpaces[..] == Table(c.ioBase) && c.board == Configured(hw, InitConfig) && Agrees(c.board, c.attr)
  {
    var base := IoBase(cardParams);
    if base.None? {
      return BadAddress, null;
    }
    var mapped := register(CardRequest(base.value));
    if !mapped.ok {
      return BadAddress, null;
    }
    c := new Carrier(mapped.addr, hw);
    st := OK;
  }

  /** The devRegisterAddress call of initialise: A16, REGS_SIZE bytes at the I/O base, cut to 32 bits. */
  function CardRequest(ioBase: int): Request
    requires ioBase >= 0
  {
    Request(A16, (ioBase % 0x1_0000_0000) as bv32, REGS_SIZE)
  }
}
