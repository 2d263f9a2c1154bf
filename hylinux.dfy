/*
 * The Hytec Linux carrier driver, drvIpac/drvHyLinuxCarrier.c, for the
 * IOC9010 blade and the 7002, 7003 and 6335 carriers: its parameter parser
 * and the IP clock word it derives, the address table regaddr fills, the
 * probe cache and the guards of the carrier register accessors, irqCmd on
 * the ipintsel mirror, the vector tables of intConnect and one step of the
 * interrupt thread.
 *
 * The device node, ioctl, mmap and read belong to the kernel: the model
 * takes what they return as parameters, and keeps the carrier's registers
 * as a sequence of 16-bit words indexed by byte offset.
 */
module HyLinux {
  import opened IpacBase
  import opened Lexer

  /** The carrier slot that names the single-carrier system. */
  const MAGICNUM: int := 99
  const NUMIPSLOTS: nat := 6
  /** The I/O region of the IP slots inside the memory window. */
  const IP_IO_BASE_ADDR: int := 0xE00000
  /** IP_B_ID_BASE_ADDR - IP_A_ID_BASE_ADDR: the I/O stride of one slot. */
  const IP_IO_STRIDE: int := 0x100
  /** IP_B_MEMORY_BASE_ADDR - IP_A_MEMORY_BASE_ADDR: the memory stride of one slot. */
  const IP_MEM_STRIDE: int := 0x200000
  const REG_IP_CLOCK: nat := 0x10
  /** The highest register offset the accessors let through. */
  const REG_CONFIG_2: nat := 0x1C

  type Word = x: int | 0 <= x < 0x1_0000

  // ---------------------------------------------------------------- scanparm

  /** What scanparm hands to initialise; fast[i] says IP slot i (A..F) runs at 32 MHz. */
  datatype Params = Params(carrierSlot: int, intLevel: int, fast: seq<bool>)

  predicate ValidParams(p: Params) {
    (0 <= p.carrierSlot <= 21 || p.carrierSlot == MAGICNUM) && 0 <= p.intLevel <= 7 &&
    |p.fast| == NUMIPSLOTS
  }

  /** The clock option of slots A..F, in the order scanparm looks for them. */
  const ClockNames: seq<string> := ["IPCLCKA=", "IPCLCKB=", "IPCLCKC=", "IPCLCKD=", "IPCLCKE=", "IPCLCKF="]

  /** Every slot at 8 MHz, as initialise sets them before scanparm runs. */
  const AllSlow: seq<bool> := [false, false, false, false, false, false]

  /** Slot k's clock option in t, as strstr and "%d" find it. */
  function ClockArg(t: string, k: nat): Arg
    requires k < NUMIPSLOTS
  {
    NamedArg(t, ClockNames[k], PercentD)
  }

  /** The clock options of all six slots, A first. */
  function ClockArgs(t: string): (args: seq<Arg>)
    ensures |args| == NUMIPSLOTS
  {
    seq(NUMIPSLOTS, k requires 0 <= k < NUMIPSLOTS => ClockArg(t, k))
  }

  /**
   * What one clock option leaves: absent or 8 is 8 MHz (false), 32 is
   * 32 MHz (true), and anything else fails the parse.
   */
  function ArgClock(a: Arg): (r: Option<bool>)
    ensures r.Some? <==> a.Absent? || a == Given(8) || a == Given(32)
    ensures r.Some? ==> (r.value <==> a == Given(32))
  {
    match a
    case Absent => Some(false)
    case Malformed => None
    case Given(v) => if v == 8 then Some(false) else if v == 32 then Some(true) else None
  }

  /** The 32 MHz flags of a list of clock options, or None when one of them fails. */
  function Clocks(args: seq<Arg>): (r: Option<seq<bool>>)
    ensures r.Some? <==> forall k :: 0 <= k < |args| ==> ArgClock(args[k]).Some?
    ensures r.Some? ==> |r.value| == |args| &&
                        forall k :: 0 <= k < |args| ==> r.value[k] == ArgClock(args[k]).value
  {
    if args == [] then Some([])
    else match ArgClock(args[0])
      case None => None
      case Some(b) =>
        match Clocks(args[1..])
        case None => None
        case Some(rest) => Some([b] + rest)
  }

  /**
   * scanparm; cp.None? is a NULL string and None is S_IPAC_badAddress, its
   * only error. A NULL or empty string succeeds with the values initialise
   * starts from: carrier slot 0, level 0, every slot at 8 MHz.
   */
  function ScanParm(cp: Option<string>): (r: Option<Params>)
    ensures r.Some? ==> ValidParams(r.value)
    ensures cp.None? || cp.value == [] ==> r == Some(Params(0, 0, AllSlow))
  {
    if cp.None? || cp.value == [] then Some(Params(0, 0, AllSlow))
    else match Leading(cp.value)
      case None => None
      case Some(l) =>
        if (l.first < 0 || l.first > 21) && l.first != MAGICNUM then None
        else if l.second < 0 || l.second > 7 then None
        else match Clocks(ClockArgs(cp.value[l.skip..]))
          case None => None
          case Some(fast) => Some(Params(l.first, l.second, fast))
  }

  /**
   * What scanparm accepts: two leading numbers, a carrier slot of 0..21 or
   * 99, a level of 0..7 and six clock options that are absent, 8 or 32;
   * each slot is at 32 MHz exactly when its option says 32.
   */
  lemma ScanParmAccepts(s: string)
    requires s != []
    ensures ScanParm(Some(s)).Some? <==>
      Leading(s).Some? &&
      (0 <= Leading(s).value.first <= 21 || Leading(s).value.first == MAGICNUM) &&
      0 <= Leading(s).value.second <= 7 &&
      forall k :: 0 <= k < NUMIPSLOTS ==> ArgClock(ClockArg(s[Leading(s).value.skip..], k)).Some?
    ensures ScanParm(Some(s)).Some? ==>
      forall k :: 0 <= k < NUMIPSLOTS ==>
        (ScanParm(Some(s)).value.fast[k] <==> ClockArg(s[Leading(s).value.skip..], k) == Given(32))
  {
    if Leading(s).Some? {
      var args := ClockArgs(s[Leading(s).value.skip..]);
      assert forall k :: 0 <= k < NUMIPSLOTS ==> args[k] == ClockArg(s[Leading(s).value.skip..], k);
    }
  }

  // ----------------------------------------------------- the written form

  function Mhz(fast: bool): nat { if fast then 32 else 8 }

  /**
   * The slot whose option Render writes m-th: C, A, B, D, E, F. scanparm
   * does not care about order; writing slot C first keeps every later
   * name's slot letter out of the text before it.
   */
  function Order(m: nat): (k: nat)
    requires m < NUMIPSLOTS
    ensures k < NUMIPSLOTS && (m > 0 ==> k != 2)
  {
    if m == 0 then 2 else if m <= 2 then m - 1 else m
  }

  /** "IPCLCKx=n," for slot k. */
  function Piece(fast: seq<bool>, k: nat): string
    requires |fast| == NUMIPSLOTS && k < NUMIPSLOTS
  {
    Named(ClockNames[k], Mhz(fast[k])) + ","
  }

  /** The options Render writes, one piece per slot in Order. */
  function Pieces(fast: seq<bool>): (ps: seq<string>)
    requires |fast| == NUMIPSLOTS
    ensures |ps| == NUMIPSLOTS
  {
    seq(NUMIPSLOTS, m requires 0 <= m < NUMIPSLOTS => Piece(fast, Order(m)))
  }

  function Concat(ps: seq<string>): string {
    if ps == [] then "" else ps[0] + Concat(ps[1..])
  }

  /** A parameter string that asks for p, in the documented form. */
  function Render(p: Params): string
    requires ValidParams(p)
  {
    Decimal(p.carrierSlot) + ("," + (Decimal(p.intLevel) + ("," + Concat(Pieces(p.fast)))))
  }

  /** Every accepted setting can be written as a string that scanparm reads back. */
  lemma RoundTrip(p: Params)
    requires ValidParams(p)
    ensures ScanParm(Some(Render(p))) == Some(p)
  {
    ClocksBack(p.fast, Concat(Pieces(p.fast)));
    ScanParmOf(Render(p), p.carrierSlot, p.intLevel, Concat(Pieces(p.fast)), p);
  }

  /** Two numbers, commas and options whose clocks are p's read back as p. */
  lemma ScanParmOf(s: string, a: nat, b: nat, t: string, p: Params)
    requires ValidParams(p) && a == p.carrierSlot && b == p.intLevel
    requires s == Decimal(a) + ("," + (Decimal(b) + ("," + t)))
    requires Clocks(ClockArgs(t)) == Some(p.fast)
    ensures ScanParm(Some(s)) == Some(p)
  {
    LeadingOfJoin(s, a, b, t);
    SkipsTo(s, Decimal(a), Decimal(b), t);
    ScanParmAt(s, Lead(a, b, |Decimal(a)| + |Decimal(b)| + 2), t, p);
  }

  lemma ScanParmAt(s: string, l: Lead, t: string, p: Params)
    requires ValidParams(p) && l == Lead(p.carrierSlot, p.intLevel, l.skip)
    requires s != [] && Leading(s) == Some(l) && l.skip <= |s| && s[l.skip..] == t
    requires Clocks(ClockArgs(t)) == Some(p.fast)
    ensures ScanParm(Some(s)) == Some(p)
  {
  }

  /** The options Render writes give back every slot's clock. */
  lemma ClocksBack(fast: seq<bool>, t: string)
    requires |fast| == NUMIPSLOTS && t == Concat(Pieces(fast))
    ensures Clocks(ClockArgs(t)) == Some(fast)
  {
    var args := ClockArgs(t);
    forall k | 0 <= k < NUMIPSLOTS ensures args[k] == Given(Mhz(fast[k])) {
      var m := if k == 2 then 0 else if k < 2 then k + 1 else k;
      OptionBack(fast, t, m);
    }
    ClocksGiven(args, fast);
  }

  /** Options that each read 8 or 32 give the flags of the 32s. */
  lemma ClocksGiven(args: seq<Arg>, fast: seq<bool>)
    requires |args| == |fast| && forall k :: 0 <= k < |args| ==> args[k] == Given(Mhz(fast[k]))
    ensures Clocks(args) == Some(fast)
  {
    var r := Clocks(args).value;
    assert forall k :: 0 <= k < |args| ==> r[k] == fast[k];
    assert r == fast;
  }

  /** The m-th option Render writes is found and read back. */
  lemma OptionBack(fast: seq<bool>, t: string, m: nat)
    requires |fast| == NUMIPSLOTS && t == Concat(Pieces(fast)) && m < NUMIPSLOTS
    ensures ClockArg(t, Order(m)) == Given(Mhz(fast[Order(m)]))
  {
    var ps := Pieces(fast);
    var k := Order(m);
    var name := ClockNames[k];
    var v := Mhz(fast[k]);
    var pre := Concat(ps[..m]);
    var rest := "," + Concat(ps[m + 1..]);
    ConcatSplit(ps, m);
    PieceCut(pre, name, v, Concat(ps[m + 1..]), t, ps[m]);
    if m == 0 {
      assert pre == [];
      NamedDecimal(pre, name, v, rest, 0);
    } else {
      PreLacks(fast, m);
      NameLetter(k);
      NamedDecimal(pre, name, v, rest, 6);
    }
  }

  /** The text before the m-th option lacks that option's slot letter. */
  lemma PreLacks(fast: seq<bool>, m: nat)
    requires |fast| == NUMIPSLOTS && 0 < m < NUMIPSLOTS
    ensures Lacks(Concat(Pieces(fast)[..m]), ClockNames[Order(m)][6])
  {
    var ps := Pieces(fast)[..m];
    var c := ClockNames[Order(m)][6];
    forall j | 0 <= j < m ensures Lacks(ps[j], c) {
      PieceLacks(fast, Order(j), Order(m));
    }
    LacksConcat(ps, c);
  }

  /** Concat(ps) cut around its m-th piece, with that piece's trailing comma moved into the rest. */
  lemma PieceCut(pre: string, name: string, v: nat, post: string, t: string, piece: string)
    requires piece == Named(name, v) + "," && t == pre + piece + post
    ensures t == pre + Named(name, v) + ("," + post)
  {
  }

  /** The letter of a slot other than C is missing from every other slot's option. */
  lemma PieceLacks(fast: seq<bool>, j: nat, k: nat)
    requires |fast| == NUMIPSLOTS && j < NUMIPSLOTS && k < NUMIPSLOTS && j != k && k != 2
    ensures Lacks(Piece(fast, j), ClockNames[k][6])
  {
    var c := ClockNames[k][6];
    var name := ClockNames[j];
    forall i | 0 <= i < |name| ensures name[i] != c {
      assert name[..6] == "IPCLCK" && name[7] == '=';
    }
    NameLetter(k);
    LacksDecimal(Mhz(fast[j]), c);
    LacksJoin(name, Decimal(Mhz(fast[j])), c);
    LacksJoin(Named(name, Mhz(fast[j])), ",", c);
  }

  /** The slot letter is the first place a name differs from "IPCLCK". */
  lemma NameLetter(k: nat)
    requires k < NUMIPSLOTS && k != 2
    ensures !IsDigit(ClockNames[k][6]) && ClockNames[k][6] != ','
    ensures forall i :: 0 <= i < 6 ==> ClockNames[k][i] != ClockNames[k][6]
  {
    assert ClockNames[k][..6] == "IPCLCK";
  }

  lemma {:induction false} ConcatSplit(ps: seq<string>, m: nat)
    requires m < |ps|
    ensures Concat(ps) == Concat(ps[..m]) + ps[m] + Concat(ps[m + 1..])
  {
    if m == 0 {
      assert ps[..0] == [];
      assert ps[1..] == ps[m + 1..];
    } else {
      ConcatSplit(ps[1..], m - 1);
      assert ps[1..][..m - 1] == ps[..m][1..];
      assert ps[1..][m - 1] == ps[m];
      assert ps[1..][m..] == ps[m + 1..];
    }
  }

  lemma {:induction false} LacksConcat(ps: seq<string>, c: char)
    requires forall i :: 0 <= i < |ps| ==> Lacks(ps[i], c)
    ensures Lacks(Concat(ps), c)
  {
    if ps != [] {
      LacksConcat(ps[1..], c);
      assert Lacks(ps[0], c);
      LacksJoin(ps[0], Concat(ps[1..]), c);
    }
  }

  // ------------------------------------------------------------ the clock

  function Pow2(n: nat): (p: nat)
    ensures p >= 1
  {
    if n == 0 then 1 else 2 * Pow2(n - 1)
  }

  /**
   * The clock register value initialise writes,
   * ipclckA | ipclckB << 1 | ... | ipclckF << 5: each flag is a single bit
   * at its own place, so the OR is this sum.
   */
  function ClockWord(fast: seq<bool>): (w: nat)
    ensures w < Pow2(|fast|)
  {
    if fast == [] then 0
    else (if fast[0] then 1 else 0) + 2 * ClockWord(fast[1..])
  }

  /** Bit i of w. */
  predicate BitOf(w: nat, i: nat) {
    if i == 0 then w % 2 == 1 else BitOf(w / 2, i - 1)
  }

  /** Bit i of the clock word is set exactly when slot i runs at 32 MHz. */
  lemma {:induction false} ClockWordBits(fast: seq<bool>, i: nat)
    requires i < |fast|
    ensures BitOf(ClockWord(fast), i) == fast[i]
  {
    var b := if fast[0] then 1 else 0;
    assert ClockWord(fast) == b + 2 * ClockWord(fast[1..]);
    if i > 0 {
      assert ClockWord(fast) / 2 == ClockWord(fast[1..]);
      ClockWordBits(fast[1..], i - 1);
    }
  }

  // ------------------------------------------------------- address table

  /** The index of an address space in a row of ipadresses. */
  function SpaceIndex(space: AddrSpace): (n: nat)
    ensures n < 4
  {
    match space
    case ID => 0
    case IO => 1
    case IO32 => 2
    case Mem => 3
  }

  function SpaceAt(n: nat): (space: AddrSpace)
    requires n < 4
    ensures SpaceIndex(space) == n
  {
    if n == 0 then ID else if n == 1 then IO else if n == 2 then IO32 else Mem
  }

  /** Where ipadresses[ip][space] sits when the table is kept row by row. */
  function Entry(ip: nat, space: AddrSpace): (n: nat)
    requires ip < NUMIPSLOTS
    ensures n < NUMIPSLOTS * 4 && n / 4 == ip && n % 4 == SpaceIndex(space)
  {
    ip * 4 + SpaceIndex(space)
  }

  /**
   * The address regaddr computes for a slot and space: the I/O window at
   * the fixed I/O region plus 0x100 per slot, the ID window 0x80 above it,
   * the memory window 0x200000 per slot, and 0 for the spaces it leaves
   * cleared.
   */
  function AddressOf(memoryBase: int, ip: nat, space: AddrSpace): (a: int)
    ensures space.IO32? ==> a == 0
    ensures !space.IO32? && ip < NUMIPSLOTS ==> memoryBase <= a && a + 0x80 < memoryBase + 0xE00E00
  {
    match space
    case IO => memoryBase + IP_IO_BASE_ADDR + IP_IO_STRIDE * ip
    case ID => memoryBase + IP_IO_BASE_ADDR + IP_IO_STRIDE * ip + 0x80
    case Mem => memoryBase + IP_MEM_STRIDE * ip
    case IO32 => 0
  }

  /** ipadresses after regaddr, row by row. */
  function AddressTable(memoryBase: int): (t: seq<int>)
    ensures |t| == NUMIPSLOTS * 4
  {
    seq(NUMIPSLOTS * 4, n requires 0 <= n < NUMIPSLOTS * 4 => AddressOf(memoryBase, n / 4, SpaceAt(n % 4)))
  }

  /** Each slot's ID window is its I/O window plus 0x80. */
  lemma IdAboveIo(memoryBase: int, ip: nat)
    requires ip < NUMIPSLOTS
    ensures AddressTable(memoryBase)[Entry(ip, ID)] == AddressTable(memoryBase)[Entry(ip, IO)] + 0x80
  {
  }

  /**
   * The windows of different slots do not overlap: the I/O windows (ID
   * included) are 0x100 apart, the memory windows 0x200000 apart, and all
   * six memory windows end below the I/O region.
   */
  lemma WindowsApart(memoryBase: int, i: nat, j: nat)
    requires i < j < NUMIPSLOTS
    ensures AddressOf(memoryBase, i, IO) + 0x100 <= AddressOf(memoryBase, j, IO)
    ensures AddressOf(memoryBase, i, Mem) + IP_MEM_STRIDE <= AddressOf(memoryBase, j, Mem)
    ensures AddressOf(memoryBase, j, Mem) + IP_MEM_STRIDE <= AddressOf(memoryBase, 0, IO)
  {
  }

  // --------------------------------------------------- register accessors

  /** What probe returns: the carrier type, or S_IPAC_badDriver without a device. */
  datatype Probe = Model(id: int) | NoDriver

  /** The carriers the register accessors talk to. */
  predicate KnownModel(p: Probe) {
    p.Model? && p.id in {0x9010, 0x7002, 0x7003, 0x6335}
  }

  /**
   * The checks of IOC9010CarrierRead and IOC9010CarrierWrite, in order: a
   * negative device handle, a carrier that is not a known model, and an
   * offset past the last register.
   */
  function RegisterGuard(devHandler: int, p: Probe, add: nat): (st: Status)
    ensures st == OK <==> devHandler >= 0 && KnownModel(p) && add <= REG_CONFIG_2
    ensures st in {OK, BadDriver, BadModule, BadAddress}
  {
    if devHandler < 0 then BadDriver
    else if !KnownModel(p) then BadModule
    else if add > REG_CONFIG_2 then BadAddress
    else OK
  }

  // ----------------------------------------------------------------- irqCmd

  /** The ipintsel bit of a slot's interrupt line: 2 * slot + line. */
  function LineBit(slot: nat, irq: nat): bv16
    requires slot < NUMIPSLOTS && irq < 2
  {
    Bit16(2 * slot + irq)
  }

  /** The reply of an Enable or Disable: the ioctl's return, with 1 turned into OK. */
  function IoctlReply(ret: int): IrqReply {
    if ret == 1 || ret == 0 then Code(OK) else Value(ret)
  }

  datatype IrqOutcome = IrqOutcome(sel: bv16, reply: IrqReply)

  /**
   * irqCmd: a line other than 0 and 1 is a bad level, a slot past F a bad
   * address; Enable and Disable set and clear the line's bit and report
   * what the ioctl returned, GetLevel reads the carrier's level, and the
   * level, poll, edge and clear commands are not implemented.
   */
  function IrqStep(sel: bv16, intLevel: int, slot: nat, irq: nat, cmd: IrqCmd, ioctlRet: int): (r: IrqOutcome)
    ensures r.sel != sel ==> irq < 2 && slot <= 5 && (cmd.Enable? || cmd.Disable?)
    ensures irq > 1 ==> r.reply == Code(BadIntLevel)
  {
    if irq != 0 && irq != 1 then IrqOutcome(sel, Code(BadIntLevel))
    else if slot > 5 then IrqOutcome(sel, Code(BadAddress))
    else match cmd
      case IrqLevel(_) => IrqOutcome(sel, Code(NotImplemented))
      case GetLevel => IrqOutcome(sel, Value(intLevel))
      case Enable => IrqOutcome(sel | LineBit(slot, irq), IoctlReply(ioctlRet))
      case Disable => IrqOutcome(sel & !LineBit(slot, irq), IoctlReply(ioctlRet))
      case Poll => IrqOutcome(sel, Code(NotImplemented))
      case SetEdge => IrqOutcome(sel, Code(NotImplemented))
      case SetLevel => IrqOutcome(sel, Code(NotImplemented))
      case Clear => IrqOutcome(sel, Code(NotImplemented))
      case _ => IrqOutcome(sel, Code(OK))
  }

  /** The checks come before the command: a bad line, then a bad slot. */
  lemma IrqChecks(sel: bv16, intLevel: int, slot: nat, irq: nat, cmd: IrqCmd, ioctlRet: int)
    ensures irq > 1 ==> IrqStep(sel, intLevel, slot, irq, cmd, ioctlRet) == IrqOutcome(sel, Code(BadIntLevel))
    ensures irq <= 1 && slot > 5 ==> IrqStep(sel, intLevel, slot, irq, cmd, ioctlRet) == IrqOutcome(sel, Code(BadAddress))
  {
  }

  /** Different lines of different or equal slots own different bits. */
  lemma LinesApart(s1: nat, i1: nat, s2: nat, i2: nat)
    requires s1 < NUMIPSLOTS && i1 < 2 && s2 < NUMIPSLOTS && i2 < 2 && (s1, i1) != (s2, i2)
    ensures LineBit(s1, i1) & LineBit(s2, i2) == 0
  {
    BitsApart(2 * s1 + i1, 2 * s2 + i2);
  }

  /** Enable sets the line's bit. */
  lemma EnableSetsLine(sel: bv16, intLevel: int, slot: nat, irq: nat, ioctlRet: int)
    requires slot < NUMIPSLOTS && irq < 2
    ensures IrqStep(sel, intLevel, slot, irq, Enable, ioctlRet).sel & LineBit(slot, irq) == LineBit(slot, irq)
  {
    SetClear(sel, LineBit(slot, irq));
  }

  /** Enable leaves every other bit. */
  lemma EnableKeepsOthers(sel: bv16, intLevel: int, slot: nat, irq: nat, ioctlRet: int)
    requires slot < NUMIPSLOTS && irq < 2
    ensures IrqStep(sel, intLevel, slot, irq, Enable, ioctlRet).sel & !LineBit(slot, irq) == sel & !LineBit(slot, irq)
  {
    StepSel(sel, intLevel, slot, irq, ioctlRet);
    SetClear(sel, LineBit(slot, irq));
  }

  /** Disable clears the line's bit. */
  lemma DisableClearsLine(sel: bv16, intLevel: int, slot: nat, irq: nat, ioctlRet: int)
    requires slot < NUMIPSLOTS && irq < 2
    ensures IrqStep(sel, intLevel, slot, irq, Disable, ioctlRet).sel & LineBit(slot, irq) == 0
  {
    SetClear(sel, LineBit(slot, irq));
  }

  /** Disable leaves every other bit. */
  lemma DisableKeepsOthers(sel: bv16, intLevel: int, slot: nat, irq: nat, ioctlRet: int)
    requires slot < NUMIPSLOTS && irq < 2
    ensures IrqStep(sel, intLevel, slot, irq, Disable, ioctlRet).sel & !LineBit(slot, irq) == sel & !LineBit(slot, irq)
  {
    StepSel(sel, intLevel, slot, irq, ioctlRet);
    SetClear(sel, LineBit(slot, irq));
  }

  /** Disable undoes Enable on a line that was off. */
  lemma DisableUndoesEnable(sel: bv16, intLevel: int, slot: nat, irq: nat, r1: int, r2: int)
    requires slot < NUMIPSLOTS && irq < 2 && sel & LineBit(slot, irq) == 0
    ensures var e := IrqStep(sel, intLevel, slot, irq, Enable, r1).sel;
      IrqStep(e, intLevel, slot, irq, Disable, r2).sel == sel
  {
    StepSel(sel, intLevel, slot, irq, r1);
    StepSel(SetBits16(sel, LineBit(slot, irq)), intLevel, slot, irq, r2);
    Undo(sel, LineBit(slot, irq));
  }

  lemma StepSel(sel: bv16, intLevel: int, slot: nat, irq: nat, ioctlRet: int)
    requires slot < NUMIPSLOTS && irq < 2
    ensures IrqStep(sel, intLevel, slot, irq, Enable, ioctlRet).sel == SetBits16(sel, LineBit(slot, irq))
    ensures IrqStep(sel, intLevel, slot, irq, Disable, ioctlRet).sel == ClearBits16(sel, LineBit(slot, irq))
  {
  }

  /** Only Enable and Disable touch the mirror. */
  lemma OthersKeepMirror(sel: bv16, intLevel: int, slot: nat, irq: nat, cmd: IrqCmd, ioctlRet: int)
    requires !cmd.Enable? && !cmd.Disable?
    ensures IrqStep(sel, intLevel, slot, irq, cmd, ioctlRet).sel == sel
  {
  }

  // --------------------------------------------------------- vector tables

  /** The size the source gives driverp[] and handler[]. */
  const VECTORS_AS_WRITTEN: nat := 255
  /** A table entry for every vector the interrupt thread's 0xFF mask lets through. */
  const VECTORS: nat := 256
  /** A NULL handler or argument. */
  const NULL: int := 0

  /** vec &= 0xFF on the int read() filled in. */
  function MaskVector(vec: int): (v: nat)
    ensures v < VECTORS
  {
    vec % 256
  }

  /**
   * As written, the tables have 255 entries while the mask lets vector
   * 255 through, so handler[255] and driverp[255] lie past their arrays.
   */
  lemma MaskedVectorOverruns()
    ensures MaskVector(-1) == 255 && MaskVector(255) == 255
    ensures MaskVector(255) >= VECTORS_AS_WRITTEN
  {
  }

  /** irq_desc: the callback and argument of every vector, and the device handle. */
  class IrqDesc {
    const driverp: array<int>
    const handler: array<int>
    const irqFd: int

    predicate Valid() {
      driverp.Length == VECTORS && handler.Length == VECTORS && driverp != handler
    }

    /** malloc and memset: every entry NULL. */
    constructor (fd: int)
      ensures Valid() && fresh(driverp) && fresh(handler) && irqFd == fd
      ensures driverp[..] == Nulls() && handler[..] == Nulls()
    {
      driverp := new int[VECTORS](_ => NULL);
      handler := new int[VECTORS](_ => NULL);
      irqFd := fd;
    }
  }

  function Nulls(): (t: seq<int>)
    ensures |t| == VECTORS && forall v :: 0 <= v < VECTORS ==> t[v] == NULL
  {
    seq(VECTORS, _ => NULL)
  }

  // --------------------------------------------------------------- carrier

  /** One carrier: privinfo. */
  class Carrier {
    const carrierSlot: int
    const intLevel: int
    const clock: nat
    /** What open() returned for the device node. */
    const devHandler: int
    /** The hardware ID the configuration ioctl reports. */
    const hardwareId: int
    /** The IP memory window mmap returned, as the int regaddr adds to. */
    const memoryBase: int
    /** ipadresses[6][4], row by row. */
    const addresses: array<int>
    /** 0 until probe has read a carrier type. */
    var carrierType: int
    /** The carrier's registers, by byte offset. */
    var regs: seq<Word>
    var ipIntSel: bv16
    var irqDesc: IrqDesc?
    /** The interrupt thread has been started. */
    var intFlag: bool
    /** The interrupt threads started so far. */
    var threads: nat
    /** The (handler, argument) calls the interrupt thread has made, in order. */
    var calls: seq<(int, int)>

    predicate Valid()
      reads this, irqDesc
    {
      addresses.Length == NUMIPSLOTS * 4 && |regs| == REG_CONFIG_2 + 1 &&
      (irqDesc != null ==> irqDesc.Valid() && irqDesc.irqFd == devHandler) &&
      (intFlag ==> irqDesc != null) && threads == (if intFlag then 1 else 0)
    }

    /** What probe would return now: the cached type, or a fresh read. */
    function Probed(): Probe
      reads this`carrierType
    {
      if carrierType != 0 then Model(carrierType)
      else if devHandler != 0 then Model(hardwareId)
      else NoDriver
    }

    /** calloc and the fields initialise sets before the carrier's registers are touched. */
    constructor (p: Params, devHandler: int, hardwareId: int, memoryBase: int, hw: seq<Word>)
      requires ValidParams(p) && |hw| == REG_CONFIG_2 + 1
      ensures Valid() && fresh(addresses)
      ensures carrierSlot == p.carrierSlot && intLevel == p.intLevel && clock == ClockWord(p.fast)
      ensures this.devHandler == devHandler && this.hardwareId == hardwareId && this.memoryBase == memoryBase
      ensures carrierType == 0 && regs == hw && ipIntSel == 0
      ensures irqDesc == null && !intFlag && threads == 0 && calls == []
    {
      carrierSlot := p.carrierSlot;
      intLevel := p.intLevel;
      clock := ClockWord(p.fast);
      this.devHandler := devHandler;
      this.hardwareId := hardwareId;
      this.memoryBase := memoryBase;
      addresses := new int[NUMIPSLOTS * 4];
      carrierType := 0;
      regs := hw;
      ipIntSel := 0;
      irqDesc := null;
      intFlag := false;
      threads := 0;
      calls := [];
    }

    /**
     * probe: read the carrier type once and keep it. Its answer never
     * changes: a second call returns what the first one did.
     */
    method Probe() returns (r: Probe)
      modifies this`carrierType
      ensures r == old(Probed()) && Probed() == old(Probed())
      ensures carrierType == if old(carrierType) == 0 && devHandler != 0 then hardwareId else old(carrierType)
    {
      if carrierType == 0 {
        if devHandler != 0 {
          carrierType := hardwareId;
        } else {
          return NoDriver;
        }
      }
      return Model(carrierType);
    }

    /** IOC9010CarrierRead: the guarded read of one register. */
    method CarrierRead(add: nat) returns (st: Status, data: Word)
      requires Valid()
      modifies this`carrierType
      ensures st == RegisterGuard(devHandler, old(Probed()), add) && Probed() == old(Probed())
      ensures st == OK ==> data == regs[add]
    {
      data := 0;
      if devHandler < 0 {
        return BadDriver, data;
      }
      var carrier := Probe();
      if !KnownModel(carrier) {
        return BadModule, data;
      }
      if add > REG_CONFIG_2 {
        return BadAddress, data;
      }
      return OK, regs[add];
    }

    /** IOC9010CarrierWrite: the guarded write of one register; nothing else changes. */
    method CarrierWrite(add: nat, data: Word) returns (st: Status)
      requires Valid()
      modifies this`carrierType, this`regs
      ensures Valid()
      ensures st == RegisterGuard(devHandler, old(Probed()), add) && Probed() == old(Probed())
      ensures old(carrierType) != 0 ==> carrierType == old(carrierType)
      ensures regs == if st == OK then old(regs)[add := data] else old(regs)
    {
      if devHandler < 0 {
        return BadDriver;
      }
      var carrier := Probe();
      if !KnownModel(carrier) {
        return BadModule;
      }
      if add > REG_CONFIG_2 {
        return BadAddress;
      }
      regs := regs[add := data];
      return OK;
    }

    /** regaddr: clear the table, then fill every slot's I/O, ID and memory entries. */
    method RegAddr() returns (st: Status)
      requires Valid()
      modifies addresses
      ensures st == OK && addresses[..] == AddressTable(memoryBase)
    {
      var n := 0;
      while n < NUMIPSLOTS * 4
        invariant 0 <= n <= NUMIPSLOTS * 4
        invariant forall k :: 0 <= k < n ==> addresses[k] == 0
      {
        addresses[n] := 0;
        n := n + 1;
      }
      var ip := 0;
      while ip < NUMIPSLOTS
        invariant 0 <= ip <= NUMIPSLOTS
        invariant forall k :: 0 <= k < NUMIPSLOTS * 4 ==>
          addresses[k] == if k < 4 * ip then AddressTable(memoryBase)[k] else 0
      {
        var addr := memoryBase + IP_IO_BASE_ADDR + IP_IO_STRIDE * ip;
        addresses[Entry(ip, IO)] := addr;
        addresses[Entry(ip, ID)] := addr + 0x80;
        addresses[Entry(ip, Mem)] := memoryBase + IP_MEM_STRIDE * ip;
        ip := ip + 1;
      }
      assert addresses[..] == AddressTable(memoryBase);
      return OK;
    }

    /** baseAddr: the table entry of the slot and space. */
    method BaseAddr(slot: nat, space: AddrSpace) returns (addr: int)
      requires Valid() && slot < NUMIPSLOTS && addresses[..] == AddressTable(memoryBase)
      ensures addr == AddressOf(memoryBase, slot, space)
    {
      addr := addresses[Entry(slot, space)];
    }

    /** irqCmd; ioctlRet is what the enable or disable ioctl returns. */
    method IrqCmd(slot: nat, irq: nat, cmd: IrqCmd, ioctlRet: int) returns (reply: IrqReply)
      modifies this`ipIntSel
      ensures var o := IrqStep(old(ipIntSel), intLevel, slot, irq, cmd, ioctlRet);
        reply == o.reply && ipIntSel == o.sel
    {
      if irq != 0 && irq != 1 {
        return Code(BadIntLevel);
      }
      if slot > 5 {
        return Code(BadAddress);
      }
      reply := Code(OK);
      match cmd {
        case IrqLevel(_) =>
          return Code(NotImplemented);
        case GetLevel =>
          reply := Value(intLevel);
        case Enable =>
          ipIntSel := ipIntSel | LineBit(slot, irq);
          reply := IoctlReply(ioctlRet);
        case Disable =>
          ipIntSel := ipIntSel & !LineBit(slot, irq);
          reply := IoctlReply(ioctlRet);
        case Poll =>
          return Code(NotImplemented);
        case SetEdge =>
          return Code(NotImplemented);
        case SetLevel =>
          return Code(NotImplemented);
        case Clear =>
          return Code(NotImplemented);
        case _ =>
      }
    }

    /** The handler table before a connection: all NULL when no descriptor exists yet. */
    function Handlers(): seq<int>
      reads this, irqDesc, if irqDesc != null then {irqDesc.handler} else {}
    {
      if irqDesc == null then Nulls() else irqDesc.handler[..]
    }

    function Arguments(): seq<int>
      reads this, irqDesc, if irqDesc != null then {irqDesc.driverp} else {}
    {
      if irqDesc == null then Nulls() else irqDesc.driverp[..]
    }

    /**
     * intConnect: the first call allocates the descriptor (allocOk is
     * whether malloc succeeded); every call overwrites the vector's handler
     * and argument; the interrupt thread is started on the first
     * successful call only.
     */
    method IntConnect(vecNum: nat, routine: int, parameter: int, allocOk: bool) returns (st: Status)
      requires Valid() && vecNum < VECTORS
      modifies this`irqDesc, this`intFlag, this`threads
      modifies if irqDesc != null then {irqDesc.driverp, irqDesc.handler} else {}
      ensures Valid()
      ensures st == (if old(irqDesc) == null && !allocOk then NoMemory else OK)
      ensures st == NoMemory ==> irqDesc == null && intFlag == old(intFlag) && threads == old(threads)
      ensures st == OK ==> irqDesc != null && intFlag && threads == 1
      ensures st == OK && old(irqDesc) != null ==> irqDesc == old(irqDesc)
      ensures st == OK && old(irqDesc) == null ==> fresh(irqDesc) && fresh(irqDesc.handler) && fresh(irqDesc.driverp)
      ensures st == OK ==> Handlers() == old(Handlers())[vecNum := routine]
      ensures st == OK ==> Arguments() == old(Arguments())[vecNum := parameter]
    {
      if irqDesc == null {
        if !allocOk {
          return NoMemory;
        }
        irqDesc := new IrqDesc(devHandler);
      }
      irqDesc.driverp[vecNum] := parameter;
      irqDesc.handler[vecNum] := routine;
      if !intFlag {
        intFlag := true;
        threads := threads + 1;
      }
      return OK;
    }

    /**
     * One pass of the interrupt thread's loop: read() either fails, and the
     * thread ends, or yields a vector whose handler is called with its
     * argument when both are non-NULL.
     */
    method ThreadStep(read: Option<int>) returns (running: bool)
      requires Valid() && irqDesc != null
      modifies this`calls
      ensures running == read.Some?
      ensures calls == old(calls) + (if read.None? then [] else DispatchOf(irqDesc.handler[..], irqDesc.driverp[..], read.value))
    {
      if read.None? {
        return false;
      }
      var vec := MaskVector(read.value);
      if irqDesc.handler[vec] != NULL && irqDesc.driverp[vec] != NULL {
        calls := calls + [(irqDesc.handler[vec], irqDesc.driverp[vec])];
      }
      return true;
    }
  }

  /** The calls one vector causes: its handler with its argument, when both are set. */
  function DispatchOf(handler: seq<int>, driverp: seq<int>, vec: int): (calls: seq<(int, int)>)
    requires |handler| == VECTORS && |driverp| == VECTORS
    ensures |calls| <= 1
    ensures calls != [] <==> handler[MaskVector(vec)] != NULL && driverp[MaskVector(vec)] != NULL
  {
    var v := MaskVector(vec);
    if handler[v] != NULL && driverp[v] != NULL then [(handler[v], driverp[v])] else []
  }

  /**
   * A vector connected last to a routine and argument that are both set
   * calls exactly that routine with that argument: the last write wins.
   */
  lemma ConnectedVectorCalls(handler: seq<int>, driverp: seq<int>, vec: nat, routine: int, parameter: int)
    requires |handler| == VECTORS && |driverp| == VECTORS && vec < VECTORS
    requires routine != NULL && parameter != NULL
    ensures DispatchOf(handler[vec := routine], driverp[vec := parameter], vec) == [(routine, parameter)]
    ensures forall w :: 0 <= w < VECTORS && w != vec ==>
      DispatchOf(handler[vec := routine], driverp[vec := parameter], w) == DispatchOf(handler, driverp, w)
  {
  }

  /** A vector no one has connected calls nothing. */
  lemma UnconnectedVectorSilent(vec: int)
    ensures DispatchOf(Nulls(), Nulls(), vec) == []
  {
  }

  // ------------------------------------------------------------ initialise

  /**
   * The status initialise returns: scanparm's, then a failed calloc, a
   * failed open, a failed mmap, and last the guard of the clock write (the
   * carrier type is probed just before it). The level check between
   * scanparm and calloc cannot fail, since scanparm only accepts 0..7.
   */
  function InitStatus(cp: Option<string>, allocOk: bool, devHandler: int, mapOk: bool, hardwareId: int): (st: Status)
    ensures st in {OK, BadAddress, NoMemory, BadDriver, BadModule}
    ensures ScanParm(cp).Some? && allocOk && devHandler >= 0 && !mapOk ==> st == NoMemory
  {
    if ScanParm(cp).None? then BadAddress
    else if !allocOk then NoMemory
    else if devHandler < 0 then BadDriver
    else if !mapOk then NoMemory
    else RegisterGuard(devHandler, if devHandler != 0 then Model(hardwareId) else NoDriver, REG_IP_CLOCK)
  }

  /** mmap's failure value, (void *) -1, read as an address on a 64-bit target. */
  const MAP_FAILED: nat := 0xFFFF_FFFF_FFFF_FFFF

  /**
   * The status initialise returns as written: the mapping check asks
   * whether the returned pointer lies below zero, and no address does, so
   * a failed mmap (MAP_FAILED) is let through to the probe and the clock
   * write. InitStatus is the intended status, with the failure caught.
   */
  function InitStatusAsWritten(cp: Option<string>, allocOk: bool, devHandler: int, mapAddr: nat, hardwareId: int): Status {
    if ScanParm(cp).None? then BadAddress
    else if !allocOk then NoMemory
    else if devHandler < 0 then BadDriver
    else if mapAddr < 0 then NoMemory
    else RegisterGuard(devHandler, if devHandler != 0 then Model(hardwareId) else NoDriver, REG_IP_CLOCK)
  }

  /**
   * As written, the address mmap returns never changes the status: every
   * mapping, failed or not, is treated as the intended code treats a
   * successful one.
   */
  lemma MapResultIgnored(cp: Option<string>, allocOk: bool, devHandler: int, mapAddr: nat, hardwareId: int)
    ensures InitStatusAsWritten(cp, allocOk, devHandler, mapAddr, hardwareId) ==
            InitStatus(cp, allocOk, devHandler, true, hardwareId)
  {
  }

  /**
   * A failed mmap on a known carrier: initialise as written reports
   * success, while the intended check reports that no memory was mapped.
   */
  lemma MapFailureMissed(cp: Option<string>, devHandler: int, hardwareId: int)
    requires ScanParm(cp).Some? && devHandler > 0 && hardwareId in {0x9010, 0x7002, 0x7003, 0x6335}
    ensures InitStatusAsWritten(cp, true, devHandler, MAP_FAILED, hardwareId) == OK
    ensures InitStatus(cp, true, devHandler, false, hardwareId) == NoMemory
  {
  }

  /**
   * initialise succeeds exactly for a good string, successful allocation
   * and mapping, an open device with a non-zero handle and a known carrier.
   */
  lemma InitAccepts(cp: Option<string>, allocOk: bool, devHandler: int, mapOk: bool, hardwareId: int)
    ensures InitStatus(cp, allocOk, devHandler, mapOk, hardwareId) == OK <==>
      ScanParm(cp).Some? && allocOk && devHandler > 0 && mapOk && hardwareId in {0x9010, 0x7002, 0x7003, 0x6335}
  {
  }

  /**
   * initialise, given whether calloc and mmap succeed, what open and the
   * configuration ioctl return, where the memory window lies and what the
   * carrier's registers hold. On success the clock register holds the
   * clock word and the address table is filled.
   */
  method Initialise(cp: Option<string>, allocOk: bool, devHandler: int, mapOk: bool, hardwareId: int,
                    memoryBase: int, hw: seq<Word>)
    returns (st: Status, c: Carrier?)
    requires |hw| == REG_CONFIG_2 + 1
    ensures st == InitStatus(cp, allocOk, devHandler, mapOk, hardwareId)
    ensures st == OK ==> c != null && fresh(c) && c.Valid() && ScanParm(cp).Some?
    ensures st == OK ==> c.carrierSlot == ScanParm(cp).value.carrierSlot && c.intLevel == ScanParm(cp).value.intLevel
    ensures st == OK ==> c.clock == ClockWord(ScanParm(cp).value.fast) && c.regs == hw[REG_IP_CLOCK := c.clock]
    ensures st == OK ==> c.addresses[..] == AddressTable(memoryBase) && c.carrierType == hardwareId
  {
    c := null;
    var p := ScanParm(cp);
    if p.None? {
      return BadAddress, c;
    }
    if !allocOk {
      return NoMemory, c;
    }
    if devHandler < 0 {
      return BadDriver, c;
    }
    if !mapOk {
      return NoMemory, c;
    }
    var fast := p.value.fast;
    assert ClockWord(fast) < 64 by { assert Pow2(|fast|) == 64; }
    c := new Carrier(p.value, devHandler, hardwareId, memoryBase, hw);
    var clk := ClockWord(fast);
    var probed := c.Probe();
    st := c.CarrierWrite(REG_IP_CLOCK, clk);
    if st != OK {
      return st, c;
    }
    st := c.RegAddr();
  }
}
