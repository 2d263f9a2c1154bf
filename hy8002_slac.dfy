/*
 * The SLAC driver in drvIpac/drvHy8002.c, the one built around `privinfo`:
 * its parameter parser, the carrier PROM check, the CSR it composes, the
 * address table regaddr fills, irqCmd on the csrcb/ipintsel mirror, the
 * report bit test and the table lookup of baseAddr.
 *
 * NUMIPSLOTS, IPAC_ADDR_SPACES, IP_MEM_SIZE, ONEMB and VME_MEM_SIZE are not
 * defined in that file; the values of the sibling Hytec driver are used
 * (4 slots, 4 spaces, 0x100, 0x100000, 0xA0). Addresses are 32-bit.
 */
module Hy8002Slac {
  import opened IpacBase
  import opened Lexer
  import Hy8002

  // ------------------------------------------------------------- scanparm

  const IPMEM: string := "IPMEM="
  const IPCLCK: string := "IPCLCK="
  const ROAK: string := "ROAK="
  const MEMOFFS: string := "MEMOFFS="

  /** The largest MEMOFFS value scanparm accepts, 1 << 17. */
  const MemOffsMax: int := 0x2_0000

  /** The values scanparm hands to initialise. */
  datatype Settings = Settings(vmeSlot: int, intLevel: int, ipMem: int, ipClck: int,
                               roak: int, doMemReg: bool, memOffs: int)

  predicate ValidSettings(p: Settings) {
    0 <= p.vmeSlot <= 21 && 0 <= p.intLevel <= 7 && p.ipMem in {1, 2, 4, 8} &&
    p.ipClck in {8, 32} && p.roak in {0, 1} && 0 <= p.memOffs <= MemOffsMax &&
    (!p.doMemReg ==> p.memOffs == 0)
  }

  /**
   * The value an option leaves: its default when absent, the number given
   * when that is one of the allowed values, and None (a failed parse) for
   * anything else.
   */
  function Pick(a: Arg, allowed: set<int>, default: int): (r: Option<int>)
    requires default in allowed
    ensures r.Some? ==> r.value in allowed
    ensures r.Some? <==> a.Absent? || (a.Given? && a.v in allowed)
  {
    match a
    case Absent => Some(default)
    case Malformed => None
    case Given(v) => if v in allowed then Some(v) else None
  }

  /** MEMOFFS: absent, or a number in 0..MemOffsMax. */
  function PickOffset(a: Arg): (r: Option<int>)
    ensures r.Some? ==> 0 <= r.value <= MemOffsMax && (a.Absent? ==> r.value == 0)
    ensures r.Some? <==> a.Absent? || (a.Given? && 0 <= a.v <= MemOffsMax)
  {
    match a
    case Absent => Some(0)
    case Malformed => None
    case Given(v) => if 0 <= v <= MemOffsMax then Some(v) else None
  }

  /**
   * scanparm; cp.None? is a NULL string and None is S_IPAC_badAddress, its
   * only error.
   */
  function ScanParm(cp: Option<string>): (r: Option<Settings>)
    ensures r.Some? ==> ValidSettings(r.value)
    ensures cp.None? || cp.value == [] ==> r.None?
  {
    if cp.None? || cp.value == [] then None
    else match Leading(cp.value)
      case None => None
      case Some(l) =>
        if l.first < 0 || l.first > 21 || l.second < 0 || l.second > 7 then None
        else Options(cp.value[l.skip..], l.first, l.second)
  }

  /**
   * The options after the leading numbers, each looked up with strstr and
   * read with "%d": absent ones take their defaults, a present one outside
   * its range fails the parse, other text is ignored, and a MEMOFFS turns
   * on the memory offset register.
   */
  function Options(t: string, vme: int, itr: int): (r: Option<Settings>)
    requires 0 <= vme <= 21 && 0 <= itr <= 7
    ensures r.Some? ==> ValidSettings(r.value) && r.value.vmeSlot == vme && r.value.intLevel == itr
  {
    var mem := NamedArg(t, MEMOFFS, PercentD);
    var ipm := Pick(NamedArg(t, IPMEM, PercentD), {1, 2, 4, 8}, 1);
    var ipc := Pick(NamedArg(t, IPCLCK, PercentD), {8, 32}, 8);
    var ro := Pick(NamedArg(t, ROAK, PercentD), {0, 1}, 0);
    var off := PickOffset(mem);
    if ipm.Some? && ipc.Some? && ro.Some? && off.Some?
    then Some(Settings(vme, itr, ipm.value, ipc.value, ro.value, mem.Given?, off.value))
    else None
  }

  /** The parameter string that asks for the settings p, in the documented form. */
  function Render(p: Settings): string
    requires ValidSettings(p)
  {
    Decimal(p.vmeSlot) + ("," + (Decimal(p.intLevel) + ("," + RenderOptions(p))))
  }

  function RenderOptions(p: Settings): string
    requires ValidSettings(p)
  {
    Named(IPMEM, p.ipMem) + "," + Named(IPCLCK, p.ipClck) + "," + Named(ROAK, p.roak) + MemTail(p)
  }

  function MemTail(p: Settings): string
    requires ValidSettings(p)
  {
    if p.doMemReg then "," + Named(MEMOFFS, p.memOffs) else ""
  }

  /** Every accepted setting can be written as a string that scanparm reads back. */
  lemma RoundTrip(p: Settings)
    requires ValidSettings(p)
    ensures ScanParm(Some(Render(p))) == Some(p)
  {
    var n := |Decimal(p.vmeSlot)| + |Decimal(p.intLevel)| + 2;
    LeadingOfRender(p);
    RenderSplits(p);
    OptionsRoundTrip(p);
    ScanParmOf(Render(p), Lead(p.vmeSlot, p.intLevel, n), RenderOptions(p), p);
  }

  /** Render(p) starts with the two numbers of p, and the options start after them. */
  lemma LeadingOfRender(p: Settings)
    requires ValidSettings(p)
    ensures Leading(Render(p)) == Some(Lead(p.vmeSlot, p.intLevel, |Decimal(p.vmeSlot)| + |Decimal(p.intLevel)| + 2))
  {
    LeadingOfJoin(Render(p), p.vmeSlot, p.intLevel, RenderOptions(p));
  }

  lemma RenderSplits(p: Settings)
    requires ValidSettings(p)
    ensures |Decimal(p.vmeSlot)| + |Decimal(p.intLevel)| + 2 <= |Render(p)|
    ensures Render(p)[|Decimal(p.vmeSlot)| + |Decimal(p.intLevel)| + 2..] == RenderOptions(p)
  {
    Joined(Decimal(p.vmeSlot), Decimal(p.intLevel), RenderOptions(p));
  }

  lemma ScanParmOf(s: string, l: Lead, t: string, p: Settings)
    requires s != [] && Leading(s) == Some(l) && l.skip <= |s| && s[l.skip..] == t
    requires 0 <= l.first <= 21 && 0 <= l.second <= 7
    requires Options(t, l.first, l.second) == Some(p)
    ensures ScanParm(Some(s)) == Some(p)
  {
  }

  lemma OptionsRoundTrip(p: Settings)
    requires ValidSettings(p)
    ensures Options(RenderOptions(p), p.vmeSlot, p.intLevel) == Some(p)
  {
    IpMemBack(p);
    IpClckBack(p);
    RoakBack(p);
    MemOffsBack(p);
  }

  lemma IpMemBack(p: Settings)
    requires ValidSettings(p)
    ensures NamedArg(RenderOptions(p), IPMEM, PercentD) == Given(p.ipMem)
  {
    var rest := "," + Named(IPCLCK, p.ipClck) + "," + Named(ROAK, p.roak) + MemTail(p);
    SplitAt(p, 0);
    NamedDecimal([], IPMEM, p.ipMem, rest, 0);
  }

  lemma IpClckBack(p: Settings)
    requires ValidSettings(p)
    ensures NamedArg(RenderOptions(p), IPCLCK, PercentD) == Given(p.ipClck)
  {
    var pre := Named(IPMEM, p.ipMem) + ",";
    var rest := "," + Named(ROAK, p.roak) + MemTail(p);
    SplitAt(p, 1);
    NamedLacks(IPMEM, p.ipMem, 'L');
    LacksJoin(Named(IPMEM, p.ipMem), ",", 'L');
    NamedDecimal(pre, IPCLCK, p.ipClck, rest, 3);
  }

  lemma RoakBack(p: Settings)
    requires ValidSettings(p)
    ensures NamedArg(RenderOptions(p), ROAK, PercentD) == Given(p.roak)
  {
    var pre := Named(IPMEM, p.ipMem) + "," + Named(IPCLCK, p.ipClck) + ",";
    SplitAt(p, 2);
    TwoLack(p, 'R');
    LacksJoin(Named(IPMEM, p.ipMem) + "," + Named(IPCLCK, p.ipClck), ",", 'R');
    NamedDecimal(pre, ROAK, p.roak, MemTail(p), 0);
  }

  lemma MemOffsBack(p: Settings)
    requires ValidSettings(p)
    ensures NamedArg(RenderOptions(p), MEMOFFS, PercentD) == if p.doMemReg then Given(p.memOffs) else Absent
  {
    var pre := Named(IPMEM, p.ipMem) + "," + Named(IPCLCK, p.ipClck) + "," + Named(ROAK, p.roak);
    HeadLacksF(p);
    if p.doMemReg {
      LacksJoin(pre, ",", 'F');
      SplitAt(p, 3);
      NamedDecimal(pre + ",", MEMOFFS, p.memOffs, [], 4);
    } else {
      SplitAt(p, 3);
      NotFound(pre, MEMOFFS, 4);
    }
  }

  /** RenderOptions(p) cut around its k-th option, as the lemmas above read it. */
  lemma SplitAt(p: Settings, k: nat)
    requires ValidSettings(p) && k < 4
    ensures var a, b, c := Named(IPMEM, p.ipMem), Named(IPCLCK, p.ipClck), Named(ROAK, p.roak);
      var t := RenderOptions(p);
      (k == 0 ==> t == [] + a + ("," + b + "," + c + MemTail(p))) &&
      (k == 1 ==> t == (a + ",") + b + ("," + c + MemTail(p))) &&
      (k == 2 ==> t == (a + "," + b + ",") + c + MemTail(p)) &&
      (k == 3 && p.doMemReg ==> t == (a + "," + b + "," + c + ",") + Named(MEMOFFS, p.memOffs) + []) &&
      (k == 3 && !p.doMemReg ==> t == a + "," + b + "," + c)
  {
    var a, b, c := Named(IPMEM, p.ipMem), Named(IPCLCK, p.ipClck), Named(ROAK, p.roak);
    if k == 0 {
      Cut0(a, b, c, MemTail(p));
    } else if k == 1 {
      Cut1(a, b, c, MemTail(p));
    } else if k == 2 {
      Cut2(a, b, c, MemTail(p));
    } else if p.doMemReg {
      Cut3(a, b, c, Named(MEMOFFS, p.memOffs));
    }
  }

  lemma Cut0(a: string, b: string, c: string, m: string)
    ensures a + "," + b + "," + c + m == [] + a + ("," + b + "," + c + m)
  {
    assert a + "," + b + "," + c + m == a + ("," + b + "," + c + m);
  }

  lemma Cut1(a: string, b: string, c: string, m: string)
    ensures a + "," + b + "," + c + m == (a + ",") + b + ("," + c + m)
  {
    assert a + "," + b + "," + c + m == (a + "," + b) + ("," + c + m);
  }

  lemma Cut2(a: string, b: string, c: string, m: string)
    ensures a + "," + b + "," + c + m == (a + "," + b + ",") + c + m
  {
  }

  lemma Cut3(a: string, b: string, c: string, x: string)
    ensures a + "," + b + "," + c + ("," + x) == (a + "," + b + "," + c + ",") + x + []
  {
    assert a + "," + b + "," + c + ("," + x) == (a + "," + b + "," + c + ",") + x;
  }

  /** A rendered option lacks every non-digit its name lacks. */
  lemma NamedLacks(name: string, n: nat, c: char)
    requires Lacks(name, c) && !IsDigit(c)
    ensures Lacks(Named(name, n), c)
  {
    LacksDecimal(n, c);
    LacksJoin(name, Decimal(n), c);
  }

  /** The IPMEM and IPCLCK options lack a character both names lack. */
  lemma TwoLack(p: Settings, c: char)
    requires ValidSettings(p) && !IsDigit(c) && c != ','
    requires Lacks(IPMEM, c) && Lacks(IPCLCK, c)
    ensures Lacks(Named(IPMEM, p.ipMem) + "," + Named(IPCLCK, p.ipClck), c)
  {
    NamedLacks(IPMEM, p.ipMem, c);
    NamedLacks(IPCLCK, p.ipClck, c);
    LacksJoin(Named(IPMEM, p.ipMem), ",", c);
    LacksJoin(Named(IPMEM, p.ipMem) + ",", Named(IPCLCK, p.ipClck), c);
  }

  /** The options before MEMOFFS have no 'F', the first letter of MEMOFFS they could not match. */
  lemma HeadLacksF(p: Settings)
    requires ValidSettings(p)
    ensures Lacks(Named(IPMEM, p.ipMem) + "," + Named(IPCLCK, p.ipClck) + "," + Named(ROAK, p.roak), 'F')
  {
    TwoLack(p, 'F');
    NamedLacks(ROAK, p.roak, 'F');
    LacksJoin(Named(IPMEM, p.ipMem) + "," + Named(IPCLCK, p.ipClck), ",", 'F');
    LacksJoin(Named(IPMEM, p.ipMem) + "," + Named(IPCLCK, p.ipClck) + ",", Named(ROAK, p.roak), 'F');
  }

  // ------------------------------------------------------ checkVMEprom

  /** Offsets from the carrier's A16 base of the bytes checkVMEprom reads. */
  const VME_CARR_MAN1: nat := 0x22B
  const VME_CARR_MAN2: nat := 0x22F
  const VME_CARR_MOD1: nat := 0x233
  const VME_CARR_MOD2: nat := 0x237
  const CARR_MANID: nat := 0x89
  const CARR_MODID: nat := 0x8B

  const HYTECID: bv16 := 0x8003
  const PROM_MODEL: bv16 := 0x8002
  const PROM_MODEL_8003: bv16 := 0x8003
  const MANUFACTURER_HYTEC: bv16 := 0x80
  const HYTEC_PROM_MODEL: bv16 := 0x82
  const HYTEC_PROM_MODEL_8003: bv16 := 0x83

  /**
   * (int)(char)b in the low 16 bits: sign-extended on a target whose char
   * is signed.
   */
  function CharWord(b: bv8, signedChar: bool): bv16 {
    if signedChar && b & 0x80 != 0 then (b as bv16) | 0xFF00 else b as bv16
  }

  /** ((hi << 8) + lo) & 0xffff with hi and lo read as char. */
  function RomWord(hi: bv8, lo: bv8, signedChar: bool): bv16 {
    (CharWord(hi, signedChar) << 8) + CharWord(lo, signedChar)
  }

  /** The manufacturer test: the configuration ROM's ID, else the GreenSpring byte. */
  predicate ReadsHytec(rom: seq<bv8>, signedChar: bool)
    requires |rom| > VME_CARR_MOD2
  {
    RomWord(rom[VME_CARR_MAN1], rom[VME_CARR_MAN2], signedChar) == HYTECID ||
    CharWord(rom[CARR_MANID], signedChar) & 0xFF == MANUFACTURER_HYTEC
  }

  /** The model test, in the same two places. */
  predicate ReadsModel(rom: seq<bv8>, signedChar: bool)
    requires |rom| > VME_CARR_MOD2
  {
    var w := RomWord(rom[VME_CARR_MOD1], rom[VME_CARR_MOD2], signedChar);
    var g := CharWord(rom[CARR_MODID], signedChar) & 0xFF;
    w == PROM_MODEL || w == PROM_MODEL_8003 || g == HYTEC_PROM_MODEL || g == HYTEC_PROM_MODEL_8003
  }

  /** A Hytec 8002 or 8003, byte by byte. */
  predicate HytecRom(rom: seq<bv8>)
    requires |rom| > VME_CARR_MOD2
  {
    ((rom[VME_CARR_MAN1] == 0x80 && rom[VME_CARR_MAN2] == 0x03) || rom[CARR_MANID] == 0x80) &&
    ((rom[VME_CARR_MOD1] == 0x80 && (rom[VME_CARR_MOD2] == 0x02 || rom[VME_CARR_MOD2] == 0x03)) ||
     rom[CARR_MODID] == 0x82 || rom[CARR_MODID] == 0x83)
  }

  /**
   * checkVMEprom: rom holds the bytes at the carrier's A16 base. The
   * masking with 0xffff and 0xff makes the answer the same whether char is
   * signed or not.
   */
  function CheckVmeProm(rom: seq<bv8>, signedChar: bool): (st: Status)
    requires |rom| > VME_CARR_MOD2
    ensures st == OK || st == BadModule
    ensures st == OK <==> HytecRom(rom)
  {
    if ReadsHytec(rom, signedChar) && ReadsModel(rom, signedChar) then OK else BadModule
  }

  // ------------------------------------------------------------------ CSR

  const CSR_INTEN: bv16 := 0x0002
  const CSR_CLKSEL: bv16 := 0x0020
  const CSR_MEMMODE: bv16 := 0x0040
  const CSR_INTRELS: bv16 := 0x0200

  /** log2 of the IP memory size, the value of the CSR's size field. */
  function SizeCode(ipMem: int): bv16 {
    if ipMem == 2 then 1 else if ipMem == 4 then 2 else if ipMem == 8 then 3 else 0
  }

  /** The CSR value initialise computes. */
  function Csr(p: Settings): bv16
    requires ValidSettings(p)
  {
    var c := (p.intLevel as bv16) << 2;
    var c := if p.doMemReg then c | CSR_MEMMODE else c;
    var c := if p.ipClck == 32 then c | CSR_CLKSEL else c;
    var c := if p.roak == 1 then c | CSR_INTRELS else c;
    c | (SizeCode(p.ipMem) << 7)
  }

  /** The CSR fields as the board reads them. */
  datatype CsrFields = CsrFields(level: bv16, intEnable: bool, memMode: bool, clock32: bool,
                                 roak: bool, sizeCode: bv16)

  function ReadCsr(c: bv16): CsrFields {
    CsrFields((c >> 2) & 7, c & CSR_INTEN != 0, c & CSR_MEMMODE != 0, c & CSR_CLKSEL != 0,
              c & CSR_INTRELS != 0, (c >> 7) & 3)
  }

  /** Each setting lands in its own CSR field, and interrupts start disabled. */
  lemma CsrRoundTrip(p: Settings)
    requires ValidSettings(p)
    ensures ReadCsr(Csr(p)) ==
      CsrFields(p.intLevel as bv16, false, p.doMemReg, p.ipClck == 32, p.roak == 1, SizeCode(p.ipMem))
  {
  }

  /** The layouts initialise refuses after the parse. */
  predicate Admitted(p: Settings) {
    !(p.ipMem == 2 && p.vmeSlot > 15) && !(p.ipMem >= 4 && !p.doMemReg)
  }

  // -------------------------------------------------------------- regaddr

  const IP_MEM_SIZE: int := 0x100
  const VME_MEM_SIZE: int := 0xA0
  const ONEMB: bv32 := 0x10_0000

  /** The A16 window of the carrier's registers and PROM. */
  function CarrierRequest(vme: bv32): Request {
    Request(A16, AddrAdd(vme << 11, 1 << 10), VME_MEM_SIZE)
  }

  /** The A16 I/O window of IP slot ip. */
  function IoWindow(vme: bv32, ip: bv32): bv32 {
    AddrAdd(vme << 11, ip << 8)
  }

  /** An IP slot number as a register value. */
  function SlotBits(ip: nat): (b: bv32)
    requires ip < 4
    ensures b as int == ip
  {
    if ip == 0 then 0 else if ip == 1 then 1 else if ip == 2 then 2 else 3
  }

  function IoRequest(vme: bv32, ip: nat): Request
    requires ip < 4
  {
    Request(A16, IoWindow(vme, SlotBits(ip)), IP_MEM_SIZE)
  }

  /** What regaddr reads from the carrier: slot, addressing mode, size, and memoffs >> 6. */
  datatype Geometry = Geometry(vme: bv32, isGeo: bool, ipMem: int, moffs: bv32)

  /** The A32 base of a slot under geographic addressing; other sizes keep basetmp. */
  function GeoWindow(ipMem: int, vme: bv32, ip: bv32, prev: bv32): bv32 {
    if ipMem == 1 then (vme << 22) | (ip << 20)
    else if ipMem == 2 then (vme << 23) | (ip << 21)
    else if ipMem == 8 then (vme << 27) | (ip << 23)
    else prev
  }

  /** The A32 base of a slot through the memory offset register. */
  function RegWindow(ipMem: int, moffs: bv32, ip: bv32, prev: bv32): bv32 {
    if ipMem == 1 then (moffs << 22) | (ip << 20)
    else if ipMem == 2 then (moffs << 23) | (ip << 21)
    else if ipMem == 4 then (moffs << 24) | (ip << 22)
    else if ipMem == 8 then (moffs << 25) | (ip << 23)
    else prev
  }

  /** The A32 base regaddr computes for slot ip, prev being the basetmp left before. */
  function MemWindow(g: Geometry, ip: nat, prev: bv32): bv32
    requires ip < 4
  {
    if g.isGeo then GeoWindow(g.ipMem, g.vme, SlotBits(ip), prev)
    else RegWindow(g.ipMem, g.moffs, SlotBits(ip), prev)
  }

  /** Where ipadresses[ip][space] sits when the table is read row by row. */
  function Slot(ip: nat, space: AddrSpace): (n: nat)
    requires ip < 4
    ensures n < 16
  {
    ip * 4 + match space { case ID => 0 case IO => 1 case IO32 => 2 case Mem => 3 }
  }

  const Zeros: seq<bv32> := [0, 0, 0, 0, 0, 0, 0, 0, 0, 0, 0, 0, 0, 0, 0, 0]

  lemma ZerosAt(n: nat)
    requires n < 16
    ensures Zeros[n] == 0
  {
  }

  /** The state regaddr carries from step to step. */
  datatype Fill = Fill(ok: bool, table: seq<bv32>, requests: seq<Request>, basetmp: bv32)

  /** The I/O loop of regaddr from slot ip on: map each slot, ID at +0x80. */
  function IoPass(vme: bv32, ip: nat, f: Fill, register: Request -> Mapping): (r: Fill)
    requires ip <= 4 && |f.table| == 16
    ensures |r.table| == 16
    decreases 4 - ip
  {
    if ip == 4 then f
    else
      var req := IoRequest(vme, ip);
      var m := register(req);
      var f' := f.(requests := f.requests + [req], basetmp := req.base);
      if !m.ok then f'.(ok := false)
      else IoPass(vme, ip + 1,
                  f'.(table := f.table[Slot(ip, IO) := m.addr][Slot(ip, ID) := AddrAdd(m.addr, 0x80)]),
                  register)
  }

  /** The memory loop of regaddr from slot ip on: a zero base fails, else map 1 MB. */
  function MemPass(g: Geometry, ip: nat, f: Fill, register: Request -> Mapping): (r: Fill)
    requires ip <= 4 && |f.table| == 16
    ensures |r.table| == 16
    decreases 4 - ip
  {
    if ip == 4 then f
    else
      var base := MemWindow(g, ip, f.basetmp);
      if base == 0 then f.(ok := false, basetmp := base)
      else
        var req := Request(A32, base, ONEMB as int);
        var m := register(req);
        var f' := f.(requests := f.requests + [req], basetmp := base);
        if !m.ok then f'.(ok := false)
        else MemPass(g, ip + 1, f'.(table := f.table[Slot(ip, Mem) := m.addr]), register)
  }

  /** regaddr, after the requests already made. */
  function RegAddrSpec(g: Geometry, requests: seq<Request>, register: Request -> Mapping): Fill {
    var io := IoPass(g.vme, 0, Fill(true, Zeros, requests, 0), register);
    if io.ok then MemPass(g, 0, io, register) else io
  }

  /** The base the memory loop reaches at slot ip once the I/O loop has run. */
  function MemBaseAt(g: Geometry, ip: nat): bv32
    requires ip < 4
  {
    MemWindow(g, ip, if ip == 0 then IoWindow(g.vme, 3) else MemBaseAt(g, ip - 1))
  }

  /** The I/O loop succeeds iff every slot's A16 window maps. */
  lemma {:induction false} IoPassOk(vme: bv32, ip: nat, f: Fill, register: Request -> Mapping)
    requires ip <= 4 && |f.table| == 16 && f.ok
    ensures IoPass(vme, ip, f, register).ok <==> forall k :: ip <= k < 4 ==> register(IoRequest(vme, k)).ok
    decreases 4 - ip
  {
    if ip < 4 {
      var req := IoRequest(vme, ip);
      var m := register(req);
      if m.ok {
        var t := f.table[Slot(ip, IO) := m.addr][Slot(ip, ID) := AddrAdd(m.addr, 0x80)];
        IoPassOk(vme, ip + 1, f.(requests := f.requests + [req], basetmp := req.base, table := t), register);
      }
    }
  }

  /**
   * The I/O loop leaves the slots before ip and every IO32 and Mem entry
   * alone.
   */
  lemma {:induction false} IoPassKeeps(vme: bv32, ip: nat, f: Fill, register: Request -> Mapping, k: nat, sp: AddrSpace)
    requires ip <= 4 && |f.table| == 16 && k < 4 && (k < ip || sp == IO32 || sp == Mem)
    ensures IoPass(vme, ip, f, register).table[Slot(k, sp)] == f.table[Slot(k, sp)]
    decreases 4 - ip
  {
    if ip < 4 {
      var req := IoRequest(vme, ip);
      var m := register(req);
      if m.ok {
        var t := f.table[Slot(ip, IO) := m.addr][Slot(ip, ID) := AddrAdd(m.addr, 0x80)];
        IoPassKeeps(vme, ip + 1, f.(requests := f.requests + [req], basetmp := req.base, table := t), register, k, sp);
      }
    }
  }

  /**
   * When the I/O loop succeeds it holds, for slot k from ip on, the local
   * address of its I/O window under IO and that plus 0x80 under ID.
   */
  lemma {:induction false} IoPassFills(vme: bv32, ip: nat, f: Fill, register: Request -> Mapping, k: nat)
    requires ip <= k < 4 && |f.table| == 16
    ensures var r := IoPass(vme, ip, f, register);
      r.ok && f.ok ==>
        r.table[Slot(k, IO)] == register(IoRequest(vme, k)).addr &&
        r.table[Slot(k, ID)] == AddrAdd(register(IoRequest(vme, k)).addr, 0x80)
    decreases 4 - ip
  {
    var req := IoRequest(vme, ip);
    var m := register(req);
    if m.ok {
      var t := f.table[Slot(ip, IO) := m.addr][Slot(ip, ID) := AddrAdd(m.addr, 0x80)];
      var f' := f.(requests := f.requests + [req], basetmp := req.base, table := t);
      if k == ip {
        IoPassKeeps(vme, ip + 1, f', register, k, IO);
        IoPassKeeps(vme, ip + 1, f', register, k, ID);
      } else {
        IoPassFills(vme, ip + 1, f', register, k);
      }
    }
  }

  /** A successful I/O loop leaves basetmp at the last slot's bus address. */
  lemma {:induction false} IoPassBasetmp(vme: bv32, ip: nat, f: Fill, register: Request -> Mapping)
    requires ip < 4 && |f.table| == 16
    ensures var r := IoPass(vme, ip, f, register);
      r.ok && f.ok ==> r.basetmp == IoWindow(vme, 3)
    decreases 4 - ip
  {
    var req := IoRequest(vme, ip);
    var m := register(req);
    if m.ok && ip < 3 {
      var t := f.table[Slot(ip, IO) := m.addr][Slot(ip, ID) := AddrAdd(m.addr, 0x80)];
      IoPassBasetmp(vme, ip + 1, f.(requests := f.requests + [req], basetmp := req.base, table := t), register);
    }
  }

  /** The memory loop succeeds iff every slot's base is non-zero and maps. */
  lemma {:induction false} MemPassOk(g: Geometry, ip: nat, f: Fill, register: Request -> Mapping)
    requires ip <= 4 && |f.table| == 16 && f.ok
    requires ip == 0 ==> f.basetmp == IoWindow(g.vme, 3)
    requires 0 < ip < 4 ==> f.basetmp == MemBaseAt(g, ip - 1)
    ensures MemPass(g, ip, f, register).ok <==> forall k :: ip <= k < 4 ==>
      MemBaseAt(g, k) != 0 && register(Request(A32, MemBaseAt(g, k), ONEMB as int)).ok
    decreases 4 - ip
  {
    if ip < 4 {
      var base := MemWindow(g, ip, f.basetmp);
      assert base == MemBaseAt(g, ip);
      if base != 0 {
        var req := Request(A32, base, ONEMB as int);
        var m := register(req);
        if m.ok {
          var f' := f.(requests := f.requests + [req], basetmp := base, table := f.table[Slot(ip, Mem) := m.addr]);
          MemPassOk(g, ip + 1, f', register);
        }
      }
    }
  }

  /** The memory loop only writes the Mem entries of the slots from ip on. */
  lemma {:induction false} MemPassKeeps(g: Geometry, ip: nat, f: Fill, register: Request -> Mapping, k: nat, sp: AddrSpace)
    requires ip <= 4 && |f.table| == 16 && k < 4 && (k < ip || sp != Mem)
    ensures MemPass(g, ip, f, register).table[Slot(k, sp)] == f.table[Slot(k, sp)]
    decreases 4 - ip
  {
    if ip < 4 {
      var base := MemWindow(g, ip, f.basetmp);
      if base != 0 {
        var req := Request(A32, base, ONEMB as int);
        var m := register(req);
        if m.ok {
          var f' := f.(requests := f.requests + [req], basetmp := base, table := f.table[Slot(ip, Mem) := m.addr]);
          MemPassKeeps(g, ip + 1, f', register, k, sp);
        }
      }
    }
  }

  /** When the memory loop succeeds, slot k's Mem entry is its mapped window. */
  lemma {:induction false} MemPassFills(g: Geometry, ip: nat, f: Fill, register: Request -> Mapping, k: nat)
    requires ip <= k < 4 && |f.table| == 16
    requires ip == 0 ==> f.basetmp == IoWindow(g.vme, 3)
    requires 0 < ip ==> f.basetmp == MemBaseAt(g, ip - 1)
    ensures var r := MemPass(g, ip, f, register);
      r.ok && f.ok ==> r.table[Slot(k, Mem)] == register(Request(A32, MemBaseAt(g, k), ONEMB as int)).addr
    decreases 4 - ip
  {
    var base := MemWindow(g, ip, f.basetmp);
    assert base == MemBaseAt(g, ip);
    if base != 0 {
      var req := Request(A32, base, ONEMB as int);
      var m := register(req);
      if m.ok {
        var f' := f.(requests := f.requests + [req], basetmp := base, table := f.table[Slot(ip, Mem) := m.addr]);
        if k == ip {
          MemPassKeeps(g, ip + 1, f', register, k, Mem);
        } else {
          MemPassFills(g, ip + 1, f', register, k);
        }
      }
    }
  }

  /**
   * regaddr succeeds iff every window it asks for maps and no memory base
   * is zero.
   */
  lemma RegAddrOk(g: Geometry, requests: seq<Request>, register: Request -> Mapping)
    ensures RegAddrSpec(g, requests, register).ok <==>
      (forall k :: 0 <= k < 4 ==> register(IoRequest(g.vme, k)).ok) &&
      (forall k :: 0 <= k < 4 ==>
         MemBaseAt(g, k) != 0 && register(Request(A32, MemBaseAt(g, k), ONEMB as int)).ok)
  {
    var f := Fill(true, Zeros, requests, 0);
    IoPassOk(g.vme, 0, f, register);
    IoPassBasetmp(g.vme, 0, f, register);
    var io := IoPass(g.vme, 0, f, register);
    if io.ok {
      MemPassOk(g, 0, io, register);
    }
  }

  /** What RegAddrTable states of one slot. */
  lemma RegAddrSlot(g: Geometry, requests: seq<Request>, register: Request -> Mapping, k: nat)
    requires k < 4
    ensures var r := RegAddrSpec(g, requests, register);
      r.ok ==>
        r.table[Slot(k, IO)] == register(IoRequest(g.vme, k)).addr &&
        r.table[Slot(k, ID)] == AddrAdd(r.table[Slot(k, IO)], 0x80) &&
        r.table[Slot(k, IO32)] == 0
  {
    var f := Fill(true, Zeros, requests, 0);
    var io := IoPass(g.vme, 0, f, register);
    if io.ok {
      IoPassFills(g.vme, 0, f, register, k);
      IoPassKeeps(g.vme, 0, f, register, k, IO32);
      ZerosAt(Slot(k, IO32));
      MemPassKeeps(g, 0, io, register, k, IO);
      MemPassKeeps(g, 0, io, register, k, ID);
      MemPassKeeps(g, 0, io, register, k, IO32);
    }
  }

  /**
   * When regaddr succeeds, the table gives each slot the I/O address, the
   * ID address 0x80 above it, and no 32-bit I/O space.
   */
  lemma RegAddrTable(g: Geometry, requests: seq<Request>, register: Request -> Mapping)
    ensures var r := RegAddrSpec(g, requests, register);
      r.ok ==> forall k :: 0 <= k < 4 ==>
        r.table[Slot(k, IO)] == register(IoRequest(g.vme, k)).addr &&
        r.table[Slot(k, ID)] == AddrAdd(r.table[Slot(k, IO)], 0x80) &&
        r.table[Slot(k, IO32)] == 0
  {
    forall k | 0 <= k < 4 {
      RegAddrSlot(g, requests, register, k);
    }
  }

  /** When regaddr succeeds, each slot's memory entry is its mapped 1 MB window. */
  lemma RegAddrMemTable(g: Geometry, requests: seq<Request>, register: Request -> Mapping)
    ensures var r := RegAddrSpec(g, requests, register);
      r.ok ==> forall k :: 0 <= k < 4 ==>
        r.table[Slot(k, Mem)] == register(Request(A32, MemBaseAt(g, k), ONEMB as int)).addr
  {
    var f := Fill(true, Zeros, requests, 0);
    IoPassBasetmp(g.vme, 0, f, register);
    var io := IoPass(g.vme, 0, f, register);
    if io.ok {
      forall k | 0 <= k < 4
        ensures MemPass(g, 0, io, register).ok ==> MemPass(g, 0, io, register).table[Slot(k, Mem)] == register(Request(A32, MemBaseAt(g, k), ONEMB as int)).addr
      {
        MemPassFills(g, 0, io, register, k);
      }
    }
  }

  /** Under geographic addressing with 1 MB or 2 MB per slot, | on the base is +. */
  lemma GeoOrIsAdd(vme: bv32, ip: bv32)
    requires vme < 32 && ip < 4
    ensures GeoWindow(1, vme, ip, 0) == (vme << 22) + (ip << 20)
    ensures GeoWindow(2, vme, ip, 0) == (vme << 23) + (ip << 21)
  {
  }

  /**
   * Under geographic addressing with 1 MB or 2 MB per slot, different
   * (carrier slot, IP slot) pairs get different 1 MB aligned bases, so the
   * 1 MB windows regaddr maps never overlap.
   */
  lemma GeoWindowsDisjoint(ipMem: int, v1: bv32, i1: bv32, v2: bv32, i2: bv32)
    requires ipMem == 1 || ipMem == 2
    requires v1 <= 21 && v2 <= 21 && i1 < 4 && i2 < 4
    requires ipMem == 2 ==> v1 <= 15 && v2 <= 15
    ensures GeoWindow(ipMem, v1, i1, 0) & 0xF_FFFF == 0
    ensures (v1, i1) != (v2, i2) ==> GeoWindow(ipMem, v1, i1, 0) != GeoWindow(ipMem, v2, i2, 0)
  {
  }

  /** The four slots of one carrier get different 1 MB aligned bases in register mode. */
  lemma RegWindowsDisjoint(ipMem: int, moffs: bv32, i1: bv32, i2: bv32)
    requires ipMem in {1, 2, 4, 8} && moffs < 0x400 && i1 < 4 && i2 < 4
    ensures RegWindow(ipMem, moffs, i1, 0) & 0xF_FFFF == 0
    ensures i1 != i2 ==> RegWindow(ipMem, moffs, i1, 0) != RegWindow(ipMem, moffs, i2, 0)
  {
  }

  /** The A16 I/O windows of different IP slots, on any carriers, never overlap. */
  lemma IoWindowsDisjoint(v1: bv32, i1: bv32, v2: bv32, i2: bv32)
    requires v1 < 32 && v2 < 32 && i1 < 4 && i2 < 4
    ensures IoWindow(v1, i1) & 0xFF == 0 && IoWindow(v1, i1) < 0x1_0000
    ensures (v1, i1) != (v2, i2) ==> IoWindow(v1, i1) != IoWindow(v2, i2)
    ensures AddrAdd(v1 << 11, 1 << 10) != IoWindow(v2, i2) || v1 != v2
  {
  }

  // ---------------------------------------------------------------- irqCmd

  /** The two words irqCmd keeps and writes to the board. */
  datatype Mirror = Mirror(csrcb: bv16, ipIntSel: bv16)

  datatype IrqOutcome = IrqOutcome(mirror: Mirror, reply: IrqReply, dump: bool)

  /** irqCmd; ipStat is what the carrier's status register reads for Poll. */
  function IrqStep(m: Mirror, intLevel: int, slot: nat, irq: nat, cmd: IrqCmd, ipStat: bv16): (r: IrqOutcome)
    ensures r.mirror.ipIntSel & m.ipIntSel == m.ipIntSel
    ensures irq >= 2 ==> r.reply == Code(NotImplemented)
    ensures irq < 2 && slot > 3 ==> r.reply == Code(BadAddress)
  {
    if irq != 0 && irq != 1 then IrqOutcome(m, Code(NotImplemented), false)
    else if slot > 3 then IrqOutcome(m, Code(BadAddress), false)
    else match cmd
      case GetLevel => IrqOutcome(m, Value(intLevel), false)
      case Enable =>
        IrqOutcome(Mirror(SetBits16(m.csrcb, CSR_INTEN), SetBits16(m.ipIntSel, Hy8002.SelectBit(slot, irq))), Code(OK), true)
      case Disable => IrqOutcome(m.(csrcb := ClearBits16(m.csrcb, CSR_INTEN)), Code(OK), true)
      case Poll => IrqOutcome(m, Value((ipStat & Hy8002.PollMask(slot)) as int), false)
      case _ => IrqOutcome(m, Code(NotImplemented), false)
  }

  /**
   * Enable turns on the carrier's interrupt enable and exactly this slot's
   * select bit; Disable turns off only the carrier-wide enable; nothing
   * else writes the board.
   */
  lemma IrqTransitions(m: Mirror, intLevel: int, slot: nat, irq: nat, cmd: IrqCmd, ipStat: bv16)
    ensures var o := IrqStep(m, intLevel, slot, irq, cmd, ipStat);
      (o.dump <==> irq < 2 && slot < 4 && (cmd == Enable || cmd == Disable)) && (!o.dump ==> o.mirror == m)
    ensures irq < 2 && slot < 4 && cmd == Enable ==>
      var o := IrqStep(m, intLevel, slot, irq, cmd, ipStat);
      o.reply == Code(OK) && ReadCsr(o.mirror.csrcb) == ReadCsr(m.csrcb).(intEnable := true) &&
      o.mirror.ipIntSel & Hy8002.SelectBit(slot, irq) != 0 &&
      o.mirror.ipIntSel & !Hy8002.SelectBit(slot, irq) == m.ipIntSel & !Hy8002.SelectBit(slot, irq)
    ensures irq < 2 && slot < 4 && cmd == Disable ==>
      var o := IrqStep(m, intLevel, slot, irq, cmd, ipStat);
      o.reply == Code(OK) && o.mirror.ipIntSel == m.ipIntSel &&
      ReadCsr(o.mirror.csrcb) == ReadCsr(m.csrcb).(intEnable := false)
  {
  }

  /** This irqCmd and the one of the top-level Hytec driver agree on every input. */
  lemma SameAsTopLevel(m: Mirror, intLevel: int, slot: nat, irq: nat, cmd: IrqCmd, ipStat: bv16)
    ensures var a := IrqStep(m, intLevel, slot, irq, cmd, ipStat);
      var b := Hy8002.IrqStep(Hy8002.Mirror(m.csrcb, m.ipIntSel), intLevel, slot, irq, cmd, ipStat);
      a.reply == b.reply && a.dump == b.dump &&
      a.mirror.csrcb == b.mirror.csrcb && a.mirror.ipIntSel == b.mirror.ipIntSel
  {
  }

  // ---------------------------------------------------------------- report

  /** What report prints for a slot: the level and which lines show "active". */
  datatype SlotReport = SlotReport(level: int, int0: bool, int1: bool)

  /** Whether report prints a slot's line as "active": its select bit is set. */
  predicate LineOn(ipIntSel: bv16, slot: nat, irq: nat)
    requires slot < 4 && irq < 2
  {
    ipIntSel & Hy8002.SelectBit(slot, irq) != 0
  }

  function Report(intLevel: int, ipIntSel: bv16, slot: nat): SlotReport
    requires slot < 4
  {
    SlotReport(intLevel, LineOn(ipIntSel, slot, 0), LineOn(ipIntSel, slot, 1))
  }

  /** After Enable, report shows that line of that slot as active. */
  lemma ReportAfterEnable(m: Mirror, intLevel: int, slot: nat, irq: nat, ipStat: bv16)
    requires slot < 4 && irq < 2
    ensures var r := Report(intLevel, IrqStep(m, intLevel, slot, irq, Enable, ipStat).mirror.ipIntSel, slot);
      if irq == 0 then r.int0 else r.int1
  {
    EnableSetsSelect(m, intLevel, slot, irq, ipStat);
    if irq == 0 {
      LineSet(m.ipIntSel, slot, 0);
    } else {
      LineSet(m.ipIntSel, slot, 1);
    }
  }

  /** After Enable, report shows every other slot as before. */
  lemma ReportOthersAfterEnable(m: Mirror, intLevel: int, slot: nat, irq: nat, ipStat: bv16, other: nat)
    requires slot < 4 && irq < 2 && other < 4 && other != slot
    ensures Report(intLevel, IrqStep(m, intLevel, slot, irq, Enable, ipStat).mirror.ipIntSel, other) ==
            Report(intLevel, m.ipIntSel, other)
  {
    EnableSetsSelect(m, intLevel, slot, irq, ipStat);
    ReportKept(intLevel, m.ipIntSel, slot, irq, other);
  }

  lemma EnableSetsSelect(m: Mirror, intLevel: int, slot: nat, irq: nat, ipStat: bv16)
    requires slot < 4 && irq < 2
    ensures IrqStep(m, intLevel, slot, irq, Enable, ipStat).mirror.ipIntSel == m.ipIntSel | Hy8002.SelectBit(slot, irq)
  {
  }

  /** Setting one slot's select bit leaves what report shows for another slot alone. */
  lemma ReportKept(intLevel: int, x: bv16, slot: nat, irq: nat, other: nat)
    requires slot < 4 && irq < 2 && other < 4 && other != slot
    ensures Report(intLevel, x | Hy8002.SelectBit(slot, irq), other) == Report(intLevel, x, other)
  {
    LineKept(x, slot, irq, other, 0);
    LineKept(x, slot, irq, other, 1);
  }

  /** Setting a line's select bit turns it on. */
  lemma LineSet(x: bv16, slot: nat, irq: nat)
    requires slot < 4 && irq < 2
    ensures LineOn(x | Hy8002.SelectBit(slot, irq), slot, irq)
  {
  }

  /** Setting one slot's select bit leaves every other slot's lines as they were. */
  lemma LineKept(x: bv16, slot: nat, irq: nat, other: nat, j: nat)
    requires slot < 4 && irq < 2 && other < 4 && j < 2 && other != slot
    ensures LineOn(x | Hy8002.SelectBit(slot, irq), other, j) == LineOn(x, other, j)
  {
  }

  /** After Disable report shows what it showed before: Disable leaves the select bits set. */
  lemma ReportAfterDisable(m: Mirror, intLevel: int, slot: nat, irq: nat, ipStat: bv16, other: nat)
    requires slot < 4 && irq < 2 && other < 4
    ensures var d := IrqStep(m, intLevel, slot, irq, Disable, ipStat).mirror.ipIntSel;
      Report(intLevel, d, other) == Report(intLevel, m.ipIntSel, other)
  {
  }

  // ------------------------------------------------------------ initialise

  /** The carrier registers the driver writes: CSR, memory offset, interrupt select. */
  datatype Regs = Regs(csr: bv16, memoff: bv16, intsel: bv16)

  /** The 16-bit word a value is stored in. */
  function Word(n: int): bv16
    requires n >= 0
  {
    (n % 0x1_0000) as bv16
  }

  /** One carrier: privinfo with the registers it drives. */
  class PrivInfo {
    const vmeSlot: int
    const intLevel: int
    const baseAdr: bv32
    const clock: int
    const ipMemMode: int
    const isGeoMem: bool
    const memOffs: bv16
    /** ipadresses[4][4], row by row. */
    const addresses: array<bv32>
    var csrcb: bv16
    var ipIntSel: bv16
    /** The carrier's registers. */
    var regs: Regs
    /** The devRegisterAddress calls made so far. */
    var requests: seq<Request>

    predicate Valid() {
      addresses.Length == 16 && 0 <= vmeSlot <= 21 && 0 <= intLevel <= 7 && ipMemMode in {1, 2, 4, 8}
    }

    function Geo(): Geometry
      requires Valid()
    {
      Geometry(vmeSlot as bv32, isGeoMem, ipMemMode, (memOffs as bv32) >> 6)
    }

    function MirrorOf(): Mirror
      reads this
    {
      Mirror(csrcb, ipIntSel)
    }

    /** The fields initialise sets, before any register is written. */
    constructor (p: Settings, base: bv32, hw: Regs, requested: seq<Request>)
      requires ValidSettings(p)
      ensures Valid() && fresh(addresses)
      ensures vmeSlot == p.vmeSlot && intLevel == p.intLevel && baseAdr == base
      ensures clock == p.ipClck && ipMemMode == p.ipMem && isGeoMem == !p.doMemReg
      ensures memOffs == Word(p.memOffs) && csrcb == Csr(p) && ipIntSel == 0
      ensures regs == hw && requests == requested
    {
      vmeSlot := p.vmeSlot;
      intLevel := p.intLevel;
      baseAdr := base;
      clock := p.ipClck;
      ipMemMode := p.ipMem;
      isGeoMem := !p.doMemReg;
      memOffs := Word(p.memOffs);
      csrcb := Csr(p);
      ipIntSel := 0;
      addresses := new bv32[16];
      regs := hw;
      requests := requested;
    }

    /** regaddr: clear the table, then map every slot's I/O and memory windows. */
    method RegAddr(register: Request -> Mapping) returns (status: Status)
      requires Valid()
      modifies addresses, this`requests
      ensures var r := RegAddrSpec(Geo(), old(requests), register);
        (status == OK <==> r.ok) && (status == OK || status == BadAddress) &&
        addresses[..] == r.table && requests == r.requests
    {
      var ip := 0;
      while ip < 4
        invariant 0 <= ip <= 4 && requests == old(requests)
        invariant forall n :: 0 <= n < ip * 4 ==> addresses[n] == 0
      {
        var ia := 0;
        while ia < 4
          invariant 0 <= ia <= 4 && requests == old(requests)
          invariant forall n :: 0 <= n < ip * 4 + ia ==> addresses[n] == 0
        {
          addresses[ip * 4 + ia] := 0;
          ia := ia + 1;
        }
        ip := ip + 1;
      }
      assert addresses[..] == Zeros;
      var g := Geo();
      var basetmp: bv32 := 0;
      ip := 0;
      while ip < 4
        invariant 0 <= ip <= 4 && addresses.Length == 16
        invariant IoPass(g.vme, ip, Fill(true, addresses[..], requests, basetmp), register) ==
                  IoPass(g.vme, 0, Fill(true, Zeros, old(requests), 0), register)
      {
        var req := IoRequest(g.vme, ip);
        basetmp := req.base;
        var m := register(req);
        requests := requests + [req];
        if !m.ok {
          return BadAddress;
        }
        ghost var before := addresses[..];
        addresses[Slot(ip, IO)] := m.addr;
        addresses[Slot(ip, ID)] := AddrAdd(m.addr, 0x80);
        assert addresses[..] == before[Slot(ip, IO) := m.addr][Slot(ip, ID) := AddrAdd(m.addr, 0x80)];
        ip := ip + 1;
      }
      ghost var io := Fill(true, addresses[..], requests, basetmp);
      ip := 0;
      while ip < 4
        invariant 0 <= ip <= 4 && addresses.Length == 16
        invariant MemPass(g, ip, Fill(true, addresses[..], requests, basetmp), register) == MemPass(g, 0, io, register)
      {
        basetmp := MemWindow(g, ip, basetmp);
        if basetmp == 0 {
          return BadAddress;
        }
        var req := Request(A32, basetmp, ONEMB as int);
        var m := register(req);
        requests := requests + [req];
        if !m.ok {
          return BadAddress;
        }
        ghost var before := addresses[..];
        addresses[Slot(ip, Mem)] := m.addr;
        assert addresses[..] == before[Slot(ip, Mem) := m.addr];
        ip := ip + 1;
      }
      return OK;
    }

    /** baseAddr: the table entry for the slot and space. */
    method BaseAddr(slot: nat, space: AddrSpace) returns (addr: bv32)
      requires Valid() && slot < 4
      ensures addr == addresses[Slot(slot, space)]
    {
      addr := addresses[Slot(slot, space)];
    }

    /** irqCmd: update the mirror and, for Enable and Disable, write CSR then INTSEL. */
    method IrqCmd(slot: nat, irq: nat, cmd: IrqCmd, ipStat: bv16) returns (reply: IrqReply)
      modifies this`csrcb, this`ipIntSel, this`regs
      ensures var o := IrqStep(old(MirrorOf()), intLevel, slot, irq, cmd, ipStat);
        reply == o.reply && MirrorOf() == o.mirror &&
        regs == if o.dump then old(regs).(csr := csrcb, intsel := ipIntSel) else old(regs)
    {
      if irq != 0 && irq != 1 {
        return Code(NotImplemented);
      }
      if slot > 3 {
        return Code(BadAddress);
      }
      var dodump := false;
      reply := Code(NotImplemented);
      match cmd {
        case GetLevel =>
          reply := Value(intLevel);
        case Enable =>
          ipIntSel := SetBits16(ipIntSel, Hy8002.SelectBit(slot, irq));
          csrcb := SetBits16(csrcb, CSR_INTEN);
          dodump := true;
          reply := Code(OK);
        case Disable =>
          csrcb := ClearBits16(csrcb, CSR_INTEN);
          dodump := true;
          reply := Code(OK);
        case Poll =>
          reply := Value((ipStat & Hy8002.PollMask(slot)) as int);
        case _ =>
      }
      if dodump {
        regs := regs.(csr := csrcb);
        regs := regs.(intsel := ipIntSel);
      }
    }
  }

  /**
   * The status initialise returns when checkVMEprom fails, as written: the
   * status of devUnregisterAddress.
   */
  function PromFailureAsWritten(check: Status, unregistered: Status): Status {
    unregistered
  }

  /** A board that is not a Hytec carrier is reported as initialised. */
  lemma PromFailureReportsOk(rom: seq<bv8>, signedChar: bool)
    requires |rom| > VME_CARR_MOD2 && rom[CARR_MANID] == 0 && rom[VME_CARR_MAN1] == 0
    ensures CheckVmeProm(rom, signedChar) == BadModule
    ensures PromFailureAsWritten(CheckVmeProm(rom, signedChar), OK) == OK
  {
  }

  /** The status evidently intended: the PROM check's own error. */
  function PromFailure(check: Status, unregistered: Status): (st: Status)
    requires check != OK
    ensures st != OK && st == check
  {
    check
  }

  /**
   * The status initialise returns, step by step: parse, map the carrier's
   * A16 window, check its PROM, allocate privinfo (allocOk says whether
   * calloc succeeds), refuse unsupported layouts, map the IP windows,
   * enable the interrupt level.
   */
  function InitStatus(cp: Option<string>, register: Request -> Mapping, unregistered: Status,
                      rom: seq<bv8>, signedChar: bool, allocOk: bool, levelOk: bool): Status
    requires |rom| > VME_CARR_MOD2
  {
    var parsed := ScanParm(cp);
    if parsed.None? then BadAddress
    else AttachStatus(parsed.value, register, unregistered, CheckVmeProm(rom, signedChar), allocOk, levelOk)
  }

  /** The status of initialise once the string has parsed to p and the PROM check gave prom. */
  function AttachStatus(p: Settings, register: Request -> Mapping, unregistered: Status,
                        prom: Status, allocOk: bool, levelOk: bool): Status
    requires ValidSettings(p)
  {
    if !register(CarrierRequest(p.vmeSlot as bv32)).ok then BadAddress
    else if prom != OK then PromFailure(prom, unregistered)
    else if !allocOk then NoMemory
    else if !Admitted(p) then BadAddress
    else SetupStatus(p, register, levelOk)
  }

  /** The status of the steps after the checks: map the IP windows, enable the level. */
  function SetupStatus(p: Settings, register: Request -> Mapping, levelOk: bool): Status
    requires ValidSettings(p)
  {
    if !RegAddrSpec(InitialGeometry(p), [CarrierRequest(p.vmeSlot as bv32)], register).ok then BadAddress
    else if !levelOk then BadIntLevel
    else OK
  }

  /**
   * initialise succeeds iff the string parses to an admitted layout, the
   * carrier maps and carries a Hytec PROM, privinfo is allocated, every IP
   * window maps and the interrupt level can be enabled; a string that does
   * not parse and a carrier window that does not map are both
   * S_IPAC_badAddress, and a failed calloc after a good PROM check is
   * S_IPAC_noMemory.
   */
  lemma InitStatusOk(cp: Option<string>, register: Request -> Mapping, unregistered: Status,
                     rom: seq<bv8>, signedChar: bool, allocOk: bool, levelOk: bool)
    requires |rom| > VME_CARR_MOD2
    ensures var st := InitStatus(cp, register, unregistered, rom, signedChar, allocOk, levelOk);
      (st == OK <==>
        ScanParm(cp).Some? && register(CarrierRequest(ScanParm(cp).value.vmeSlot as bv32)).ok &&
        HytecRom(rom) && allocOk && Admitted(ScanParm(cp).value) && levelOk &&
        RegAddrSpec(InitialGeometry(ScanParm(cp).value),
                    [CarrierRequest(ScanParm(cp).value.vmeSlot as bv32)], register).ok) &&
      (ScanParm(cp).None? ==> st == BadAddress) &&
      (ScanParm(cp).Some? && !register(CarrierRequest(ScanParm(cp).value.vmeSlot as bv32)).ok ==>
         st == BadAddress) &&
      (ScanParm(cp).Some? && register(CarrierRequest(ScanParm(cp).value.vmeSlot as bv32)).ok &&
       HytecRom(rom) && !allocOk ==>
         st == NoMemory)
  {
    if ScanParm(cp).Some? && register(CarrierRequest(ScanParm(cp).value.vmeSlot as bv32)).ok {
      var res := CheckVmeProm(rom, signedChar);
      assert res == OK <==> HytecRom(rom);
    }
  }

  /**
   * initialise: parse, map the carrier's A16 window, check its PROM, compose
   * the CSR, refuse unsupported layouts, write CSR and memory offset, map
   * the IP windows, enable the interrupt level, clear INTSEL. register
   * stands for devRegisterAddress, unregistered for what
   * devUnregisterAddress returns, rom for the bytes at the carrier's A16
   * base, hw for its registers before, levelOk for devEnableInterruptLevel.
   */
  method Initialise(cp: Option<string>, register: Request -> Mapping, unregistered: Status,
                    rom: seq<bv8>, signedChar: bool, allocOk: bool, hw: Regs, levelOk: bool)
    returns (status: Status, pv: PrivInfo?)
    requires |rom| > VME_CARR_MOD2
    ensures status == InitStatus(cp, register, unregistered, rom, signedChar, allocOk, levelOk)
    ensures status == OK <==> pv != null
    ensures pv != null ==>
      ScanParm(cp).Some? && fresh(pv) && fresh(pv.addresses) &&
      Configured(pv, ScanParm(cp).value, register(CarrierRequest(ScanParm(cp).value.vmeSlot as bv32)).addr, hw, register)
  {
    var parsed := ScanParm(cp);
    if parsed.None? {
      return BadAddress, null;
    }
    var prom := CheckVmeProm(rom, signedChar);
    status, pv := Attach(parsed.value, register, unregistered, prom, allocOk, hw, levelOk);
  }

  /**
   * initialise once the string has parsed to p; prom is what checkVMEprom
   * returns for the carrier, which initialise asks only once the carrier's
   * window is mapped, and allocOk whether the calloc of privinfo that
   * follows a good PROM check succeeds.
   */
  method Attach(p: Settings, register: Request -> Mapping, unregistered: Status,
                prom: Status, allocOk: bool, hw: Regs, levelOk: bool)
    returns (status: Status, pv: PrivInfo?)
    requires ValidSettings(p)
    ensures status == AttachStatus(p, register, unregistered, prom, allocOk, levelOk)
    ensures status == OK <==> pv != null
    ensures pv != null ==>
      fresh(pv) && fresh(pv.addresses) && Configured(pv, p, register(CarrierRequest(p.vmeSlot as bv32)).addr, hw, register)
  {
    var creq := CarrierRequest(p.vmeSlot as bv32);
    var mapped := register(creq);
    if !mapped.ok {
      return BadAddress, null;
    }
    if prom != OK {
      return PromFailure(prom, unregistered), null;
    }
    if !allocOk {
      return NoMemory, null;
    }
    if p.ipMem == 2 && p.vmeSlot > 15 {
      return BadAddress, null;
    }
    if p.ipMem >= 4 && !p.doMemReg {
      return BadAddress, null;
    }
    status, pv := Setup(p, mapped.addr, hw, register, levelOk);
  }

  /** What a successful initialise leaves in its privinfo. */
  predicate Configured(pv: PrivInfo, p: Settings, base: bv32, hw: Regs, register: Request -> Mapping)
    requires ValidSettings(p)
    reads pv, pv.addresses
  {
    pv.Valid() && pv.csrcb == Csr(p) && pv.ipIntSel == 0 && pv.baseAdr == base &&
    pv.regs == InitialRegs(p, hw) &&
    pv.addresses[..] == RegAddrSpec(InitialGeometry(p), [CarrierRequest(p.vmeSlot as bv32)], register).table
  }

  /**
   * The part of initialise after the checks: fill in privinfo (whose
   * calloc Attach has already seen succeed), write the registers, map the
   * slots.
   */
  method Setup(p: Settings, base: bv32, hw: Regs, register: Request -> Mapping, levelOk: bool)
    returns (status: Status, pv: PrivInfo?)
    requires ValidSettings(p) && Admitted(p)
    ensures status == SetupStatus(p, register, levelOk)
    ensures status == OK <==> pv != null
    ensures pv != null ==> fresh(pv) && fresh(pv.addresses) && Configured(pv, p, base, hw, register)
  {
    var c := Prepare(p, base, hw);
    ghost var g := InitialGeometry(p);
    var res := c.RegAddr(register);
    if res != OK {
      return res, null;
    }
    if !levelOk {
      return BadIntLevel, null;
    }
    c.regs := c.regs.(intsel := c.ipIntSel);
    return OK, c;
  }

  /** Allocate privinfo and write the CSR and, in register mode, the memory offset. */
  method Prepare(p: Settings, base: bv32, hw: Regs) returns (c: PrivInfo)
    requires ValidSettings(p)
    ensures fresh(c) && fresh(c.addresses) && c.Valid() && c.Geo() == InitialGeometry(p)
    ensures c.requests == [CarrierRequest(p.vmeSlot as bv32)]
    ensures c.csrcb == Csr(p) && c.ipIntSel == 0 && c.baseAdr == base
    ensures c.regs == InitialRegs(p, hw).(intsel := hw.intsel)
  {
    c := new PrivInfo(p, base, hw, [CarrierRequest(p.vmeSlot as bv32)]);
    c.regs := c.regs.(csr := c.csrcb);
    if !c.isGeoMem {
      c.regs := c.regs.(memoff := c.memOffs);
    }
  }

  /** The geometry regaddr sees for parsed settings. */
  function InitialGeometry(p: Settings): Geometry
    requires ValidSettings(p)
  {
    Geometry(p.vmeSlot as bv32, !p.doMemReg, p.ipMem, (Word(p.memOffs) as bv32) >> 6)
  }

  /** The registers after a successful initialise. */
  function InitialRegs(p: Settings, hw: Regs): Regs
    requires ValidSettings(p)
  {
    Regs(Csr(p), if p.doMemReg then Word(p.memOffs) else hw.memoff, 0)
  }

  /**
   * MEMOFFS values above 0xFFFF pass the parse but are kept in a 16-bit
   * word, so 0x10040 selects the same memory windows as 0x40.
   */
  lemma MemOffsAliases()
    ensures InitialGeometry(Settings(0, 0, 1, 8, 0, true, 0x1_0040)) ==
            InitialGeometry(Settings(0, 0, 1, 8, 0, true, 0x40))
  {
    assert Word(0x1_0040) == Word(0x40) by {
      assert 0x1_0040 % 0x1_0000 == 0x40 % 0x1_0000;
    }
  }
}
