/*
 * The EPICS-upstream half of drvIpac/drvHy8002.c (the functions working on
 * private_t): the parameter parser scanparm, the VME64x configuration ROM
 * check checkVMEprom, and irqCmd on the carrier's interrupt select
 * register. The SLAC half of the same file is module Hy8002Slac.
 */
module Hy8002Upstream {
  import opened IpacBase
  import opened Lexer

  // ------------------------------------------------------------- scanparm

  /**
   * The six out-parameters of scanparm. The function stores into them as it
   * goes, so on an error the ones already stored keep their new values and
   * the rest keep the caller's.
   */
  datatype Params = Params(vmeSlot: int, intLevel: int, ipMem: int, ipClock: int,
                           roak: int, memBase: int)

  /** What scanparm returns, and the out-parameters as it leaves them. */
  datatype Outcome = Outcome(status: Status, out: Params)

  /** What "%d, %d %n" reads: the two numbers and the index %n stores. */
  datatype Prefix = Prefix(vme: int, itr: int, skip: nat)

  /**
   * sscanf(params, "%d, %d %n"): a number, a comma straight after it, a
   * second number, then any white space. None when fewer than two numbers
   * are converted.
   */
  function PrefixOf(s: string): (r: Option<Prefix>)
    ensures r.Some? ==> r.value.skip <= |s|
  {
    var a := ScanDec(s);
    if a.None? || a.value.next >= |s| || s[a.value.next] != ',' then None
    else PrefixAfterComma(s, a.value.value, a.value.next + 1)
  }

  /** The second number, read from index i on, and the white space after it. */
  function PrefixAfterComma(s: string, vme: int, i: nat): (r: Option<Prefix>)
    requires i <= |s|
    ensures r.Some? ==> r.value.skip <= |s|
  {
    var b := ScanDec(s[i..]);
    if b.None? then None
    else Some(Prefix(vme, b.value.value, SkipWhite(s, i + b.value.next)))
  }

  const IPMEM: string := "IPMEM="
  const MEMBASE: string := "MEMBASE="
  const IPCLCK: string := "IPCLCK="
  const ROAK: string := "ROAK="

  /** The membase test: not negative, and the four slots' memory ends below 0x10000 * 64 KB. */
  predicate MemBaseFits(mem: int, ipMem: int) {
    mem >= 0 && mem + ipMem * 64 <= 0xffff
  }

  /**
   * scanparm; params.None? is a NULL pointer and init holds the values the
   * caller's variables had. BadAddress is its only error.
   */
  function ScanParm(params: Option<string>, init: Params): (r: Outcome)
    ensures r.status == OK || r.status == BadAddress
  {
    if params.None? || params.value == [] then Outcome(BadAddress, init)
    else match PrefixOf(params.value)
      case None => Outcome(BadAddress, init)
      case Some(l) =>
        if l.vme < 0 || l.vme > 21 then Outcome(BadAddress, init)
        else if l.itr < 0 || l.itr > 7 then Outcome(BadAddress, init.(vmeSlot := l.vme))
        else
          ReadOptions(params.value[l.skip..], init.(vmeSlot := l.vme, intLevel := l.itr))
  }

  /** The options in t, each found with strstr and read with sscanf, applied to p. */
  function ReadOptions(t: string, p: Params): Outcome {
    Options(NamedArg(t, IPMEM, PercentD), NamedArg(t, MEMBASE, PercentI),
            NamedArg(t, IPCLCK, PercentD), NamedArg(t, ROAK, PercentD), p)
  }

  /**
   * The four option steps, in the order scanparm takes them, given what
   * strstr and sscanf found for each name: a step with a malformed or out
   * of range value stops with BadAddress, an absent one leaves the
   * variable alone. The MEMBASE test uses ipmem as it stands after the
   * IPMEM step.
   */
  function Options(ipm: Arg, mem: Arg, ipc: Arg, ro: Arg, p: Params): (r: Outcome)
    ensures r.status == OK || r.status == BadAddress
    ensures r.status == OK ==> !ipm.Malformed? && !mem.Malformed? && !ipc.Malformed? && !ro.Malformed?
    ensures r.out.vmeSlot == p.vmeSlot && r.out.intLevel == p.intLevel
  {
    if ipm.Malformed? || (ipm.Given? && ipm.v !in {1, 2, 4, 8}) then Outcome(BadAddress, p)
    else
      var p1 := if ipm.Given? then p.(ipMem := ipm.v) else p;
      if mem.Malformed? || (mem.Given? && !MemBaseFits(mem.v, p1.ipMem)) then Outcome(BadAddress, p1)
      else
        var p2 := if mem.Given? then p1.(memBase := mem.v) else p1;
        if ipc.Malformed? || (ipc.Given? && ipc.v !in {8, 32}) then Outcome(BadAddress, p2)
        else
          var p3 := if ipc.Given? then p2.(ipClock := ipc.v) else p2;
          if ro.Malformed? || (ro.Given? && ro.v !in {0, 1}) then Outcome(BadAddress, p3)
          else Outcome(OK, if ro.Given? then p3.(roak := ro.v) else p3)
  }

  /** The value an option leaves in its variable when the parse succeeds. */
  function Chosen(a: Arg, old_: int): int {
    if a.Given? then a.v else old_
  }

  /** An option that passes its test: absent, or a number meeting it. */
  predicate Passes(a: Arg, allowed: set<int>) {
    a.Absent? || (a.Given? && a.v in allowed)
  }

  /**
   * The option steps succeed exactly when every option passes its own test,
   * and then each variable holds the value given for it, or the caller's
   * value when the option is absent: scanparm supplies no defaults.
   */
  lemma OptionsAccept(ipm: Arg, mem: Arg, ipc: Arg, ro: Arg, p: Params)
    ensures var r := Options(ipm, mem, ipc, ro, p);
      var ipMem := Chosen(ipm, p.ipMem);
      r.status == OK <==>
        Passes(ipm, {1, 2, 4, 8}) && (mem.Absent? || (mem.Given? && MemBaseFits(mem.v, ipMem))) &&
        Passes(ipc, {8, 32}) && Passes(ro, {0, 1})
    ensures var r := Options(ipm, mem, ipc, ro, p);
      r.status == OK ==>
        r.out == Params(p.vmeSlot, p.intLevel, Chosen(ipm, p.ipMem), Chosen(ipc, p.ipClock),
                        Chosen(ro, p.roak), Chosen(mem, p.memBase))
  {
  }

  /**
   * scanparm succeeds exactly when the string starts with two
   * comma-separated numbers, the slot is 0..21, the level is 0..7 and every
   * option passes its test; the slot and level are then stored.
   */
  lemma ScanParmAccepts(params: Option<string>, init: Params)
    ensures var r := ScanParm(params, init);
      r.status == OK <==>
        params.Some? && params.value != [] && PrefixOf(params.value).Some? &&
        var l := PrefixOf(params.value).value;
        0 <= l.vme <= 21 && 0 <= l.itr <= 7 &&
        ReadOptions(params.value[l.skip..], init).status == OK
    ensures var r := ScanParm(params, init);
      r.status == OK ==> r.out.vmeSlot == PrefixOf(params.value).value.vme &&
                         r.out.intLevel == PrefixOf(params.value).value.itr
  {
    if params.Some? && params.value != [] && PrefixOf(params.value).Some? {
      var l := PrefixOf(params.value).value;
      var t := params.value[l.skip..];
      var p := init.(vmeSlot := l.vme, intLevel := l.itr);
      OptionsAccept(NamedArg(t, IPMEM, PercentD), NamedArg(t, MEMBASE, PercentI),
                    NamedArg(t, IPCLCK, PercentD), NamedArg(t, ROAK, PercentD), p);
      OptionsAccept(NamedArg(t, IPMEM, PercentD), NamedArg(t, MEMBASE, PercentI),
                    NamedArg(t, IPCLCK, PercentD), NamedArg(t, ROAK, PercentD), init);
    }
  }

  /** A string with no options leaves every option variable as the caller set it. */
  lemma NoDefaults(vme: nat, itr: nat, init: Params)
    requires vme <= 21 && itr <= 7
    ensures ScanParm(Some(Decimal(vme) + ("," + Decimal(itr))), init) ==
            Outcome(OK, init.(vmeSlot := vme, intLevel := itr))
  {
    var dv, dl := Decimal(vme), Decimal(itr);
    ScanDecDecimal(vme, "," + dl);
    ScanDecDecimal(itr, []);
    assert dl + [] == dl;
    PrefixToEnd(dv, dl, vme, itr);
    NoOptions(init.(vmeSlot := vme, intLevel := itr));
    ReadBack(dv + ("," + dl), Prefix(vme, itr, |dv| + |dl| + 1), [], init.(vmeSlot := vme, intLevel := itr), init);
  }

  /** "vme,level" and nothing after: %n stores the length of the string. */
  lemma PrefixToEnd(dv: string, dl: string, vme: int, itr: int)
    requires ScanDec(dv + ("," + dl)) == Some(Scan(vme, |dv|))
    requires ScanDec(dl) == Some(Scan(itr, |dl|))
    ensures PrefixOf(dv + ("," + dl)) == Some(Prefix(vme, itr, |dv| + |dl| + 1))
    ensures (dv + ("," + dl))[|dv| + |dl| + 1..] == []
  {
    var s := dv + ("," + dl);
    assert s[|dv|] == ',' && s[|dv| + 1..] == dl;
    PrefixFirst(s, vme, |dv|);
    PrefixSecond(s, |dv| + 1, vme, itr, |dl|);
  }

  /** With no option in the text, every option variable keeps its value. */
  lemma NoOptions(p: Params)
    ensures ReadOptions([], p) == Outcome(OK, p)
  {
    NotFound([], IPMEM, 0);
    NotFound([], MEMBASE, 0);
    NotFound([], IPCLCK, 0);
    NotFound([], ROAK, 0);
  }

  /** Where the pieces sit in dv + "," + dl + rest. */
  lemma Joined(dv: string, dl: string, rest: string)
    ensures var s := dv + ("," + (dl + rest));
      |s| == |dv| + |dl| + |rest| + 1 && s[|dv|] == ',' && s[|dv| + 1..] == dl + rest &&
      s[|dv| + 1 + |dl|..] == rest
  {
    var s := dv + ("," + (dl + rest));
    assert s[|dv| + 1..] == dl + rest;
    assert s[|dv| + 1 + |dl|..] == rest;
  }

  lemma PrefixFirst(s: string, vme: int, n: nat)
    requires ScanDec(s) == Some(Scan(vme, n))
    requires n < |s| && s[n] == ','
    ensures PrefixOf(s) == PrefixAfterComma(s, vme, n + 1)
  {
  }

  lemma PrefixSecond(s: string, i: nat, vme: int, itr: int, n: nat)
    requires i <= |s|
    requires ScanDec(s[i..]) == Some(Scan(itr, n))
    ensures PrefixAfterComma(s, vme, i) == Some(Prefix(vme, itr, SkipWhite(s, i + n)))
  {
  }

  /** The settings scanparm can produce from any starting values. */
  predicate ValidParams(p: Params) {
    0 <= p.vmeSlot <= 21 && 0 <= p.intLevel <= 7 && p.ipMem in {1, 2, 4, 8} &&
    MemBaseFits(p.memBase, p.ipMem) && p.ipClock in {8, 32} && p.roak in {0, 1}
  }

  /** A parameter string that names every setting, in the documented form. */
  function Render(p: Params): string
    requires ValidParams(p)
  {
    Decimal(p.vmeSlot) + ("," + (Decimal(p.intLevel) + (" " + RenderOptions(p))))
  }

  function RenderOptions(p: Params): string
    requires ValidParams(p)
  {
    Named(IPMEM, p.ipMem) + "," + Named(MEMBASE, p.memBase) + "," + Named(IPCLCK, p.ipClock) + "," +
    Named(ROAK, p.roak)
  }

  /**
   * Every valid setting has a string that scanparm reads back, whatever
   * the caller's variables held before.
   */
  lemma RoundTrip(p: Params, init: Params)
    requires ValidParams(p)
    ensures ScanParm(Some(Render(p)), init) == Outcome(OK, p)
  {
    PrefixOfRender(p);
    RenderSplits(p);
    OptionsRoundTrip(p, init.(vmeSlot := p.vmeSlot, intLevel := p.intLevel));
    ReadBack(Render(p), HeadOf(p), RenderOptions(p), p, init);
  }

  lemma ReadBack(s: string, l: Prefix, t: string, p: Params, init: Params)
    requires s != [] && PrefixOf(s) == Some(l) && 0 <= l.vme <= 21 && 0 <= l.itr <= 7
    requires l.skip <= |s| && s[l.skip..] == t
    requires ReadOptions(t, init.(vmeSlot := l.vme, intLevel := l.itr)) == Outcome(OK, p)
    ensures ScanParm(Some(s), init) == Outcome(OK, p)
  {
  }

  /** What "%d, %d %n" reads from Render(p). */
  function HeadOf(p: Params): Prefix
    requires ValidParams(p)
  {
    Prefix(p.vmeSlot, p.intLevel, |Decimal(p.vmeSlot)| + |Decimal(p.intLevel)| + 2)
  }

  /** Render(p) starts with the two numbers of p, and the white space after them is skipped. */
  lemma PrefixOfRender(p: Params)
    requires ValidParams(p)
    ensures PrefixOf(Render(p)) == Some(HeadOf(p))
  {
    var opts := RenderOptions(p);
    var dv, dl := Decimal(p.vmeSlot), Decimal(p.intLevel);
    ScanDecDecimal(p.vmeSlot, "," + (dl + (" " + opts)));
    ScanDecDecimal(p.intLevel, " " + opts);
    StartsWithName(p);
    PrefixBack(dv, dl, opts, p.vmeSlot, p.intLevel);
  }

  lemma RenderSplits(p: Params)
    requires ValidParams(p)
    ensures HeadOf(p).skip <= |Render(p)| && Render(p) != []
    ensures Render(p)[HeadOf(p).skip..] == RenderOptions(p)
  {
    Spaced(Decimal(p.vmeSlot), Decimal(p.intLevel), RenderOptions(p));
  }

  /** "vme,level opts" with opts starting with a non-space: both numbers, and the options start after the space. */
  lemma PrefixBack(dv: string, dl: string, opts: string, vme: int, itr: int)
    requires opts != [] && !IsSpace(opts[0])
    requires ScanDec(dv + ("," + (dl + (" " + opts)))) == Some(Scan(vme, |dv|))
    requires ScanDec(dl + (" " + opts)) == Some(Scan(itr, |dl|))
    ensures PrefixOf(dv + ("," + (dl + (" " + opts)))) == Some(Prefix(vme, itr, |dv| + |dl| + 2))
  {
    Joined(dv, dl, " " + opts);
    Spaced(dv, dl, opts);
    LeadFromParts(dv + ("," + (dl + (" " + opts))), vme, itr, |dv|, |dl|);
  }

  /** "%d, %d %n" on a string whose pieces sit at known places. */
  lemma LeadFromParts(s: string, vme: int, itr: int, a: nat, b: nat)
    requires ScanDec(s) == Some(Scan(vme, a))
    requires a + b + 2 < |s| && s[a] == ','
    requires ScanDec(s[a + 1..]) == Some(Scan(itr, b))
    requires s[a + b + 1] == ' ' && !IsSpace(s[a + b + 2])
    ensures PrefixOf(s) == Some(Prefix(vme, itr, a + b + 2))
  {
    PrefixFirst(s, vme, a);
    PrefixSecond(s, a + 1, vme, itr, b);
    SkipOneSpace(s, a + b + 1);
  }

  /** Where the space and the options sit in dv + "," + dl + " " + opts. */
  lemma Spaced(dv: string, dl: string, opts: string)
    requires opts != []
    ensures var s := dv + ("," + (dl + (" " + opts)));
      |s| == |dv| + |dl| + |opts| + 2 && s[|dv| + |dl| + 1] == ' ' && s[|dv| + |dl| + 2] == opts[0] &&
      s[|dv| + |dl| + 2..] == opts
  {
    var s := dv + ("," + (dl + (" " + opts)));
    assert s[|dv| + |dl| + 2..] == opts;
  }

  lemma OptionsRoundTrip(p: Params, init: Params)
    requires ValidParams(p) && init.vmeSlot == p.vmeSlot && init.intLevel == p.intLevel
    ensures ReadOptions(RenderOptions(p), init) == Outcome(OK, p)
  {
    IpMemBack(p);
    MemBaseBack(p);
    IpClckBack(p);
    RoakBack(p);
    AllGiven(p, init);
  }

  lemma AllGiven(p: Params, init: Params)
    requires ValidParams(p) && init.vmeSlot == p.vmeSlot && init.intLevel == p.intLevel
    ensures Options(Given(p.ipMem), Given(p.memBase), Given(p.ipClock), Given(p.roak), init) == Outcome(OK, p)
  {
  }

  /** The options start with the letter I, which is not white space. */
  lemma StartsWithName(p: Params)
    requires ValidParams(p)
    ensures |RenderOptions(p)| > 0 && !IsSpace(RenderOptions(p)[0])
  {
    assert RenderOptions(p)[0] == IPMEM[0];
  }

  lemma SkipOneSpace(s: string, i: nat)
    requires i + 1 < |s| && s[i] == ' ' && !IsSpace(s[i + 1])
    ensures SkipWhite(s, i) == i + 1
  {
  }

  lemma IpMemBack(p: Params)
    requires ValidParams(p)
    ensures NamedArg(RenderOptions(p), IPMEM, PercentD) == Given(p.ipMem)
  {
    var a, b, c, d := Named(IPMEM, p.ipMem), Named(MEMBASE, p.memBase), Named(IPCLCK, p.ipClock), Named(ROAK, p.roak);
    Cut0(a, b, c, d);
    NamedDecimal([], IPMEM, p.ipMem, "," + b + "," + c + "," + d, 0);
  }

  lemma MemBaseBack(p: Params)
    requires ValidParams(p)
    ensures NamedArg(RenderOptions(p), MEMBASE, PercentI) == Given(p.memBase)
  {
    var a, b, c, d := Named(IPMEM, p.ipMem), Named(MEMBASE, p.memBase), Named(IPCLCK, p.ipClock), Named(ROAK, p.roak);
    Cut1(a, b, c, d);
    NamedLacks(IPMEM, p.ipMem, 'B');
    LacksJoin(a, ",", 'B');
    NamedDecimal(a + ",", MEMBASE, p.memBase, "," + c + "," + d, 3);
  }

  lemma IpClckBack(p: Params)
    requires ValidParams(p)
    ensures NamedArg(RenderOptions(p), IPCLCK, PercentD) == Given(p.ipClock)
  {
    var a, b, c, d := Named(IPMEM, p.ipMem), Named(MEMBASE, p.memBase), Named(IPCLCK, p.ipClock), Named(ROAK, p.roak);
    Cut2(a, b, c, d);
    TwoLack(p, 'L');
    LacksJoin(a + "," + b, ",", 'L');
    NamedDecimal(a + "," + b + ",", IPCLCK, p.ipClock, "," + d, 3);
  }

  lemma RoakBack(p: Params)
    requires ValidParams(p)
    ensures NamedArg(RenderOptions(p), ROAK, PercentD) == Given(p.roak)
  {
    var a, b, c, d := Named(IPMEM, p.ipMem), Named(MEMBASE, p.memBase), Named(IPCLCK, p.ipClock), Named(ROAK, p.roak);
    Cut3(a, b, c, d);
    TwoLack(p, 'R');
    NamedLacks(IPCLCK, p.ipClock, 'R');
    LacksJoin(a + "," + b, ",", 'R');
    LacksJoin(a + "," + b + ",", c, 'R');
    LacksJoin(a + "," + b + "," + c, ",", 'R');
    NamedDecimal(a + "," + b + "," + c + ",", ROAK, p.roak, [], 0);
  }

  lemma Cut0(a: string, b: string, c: string, d: string)
    ensures a + "," + b + "," + c + "," + d == [] + a + ("," + b + "," + c + "," + d)
  {
    assert a + "," + b + "," + c + "," + d == a + ("," + b + "," + c + "," + d);
  }

  lemma Cut1(a: string, b: string, c: string, d: string)
    ensures a + "," + b + "," + c + "," + d == (a + ",") + b + ("," + c + "," + d)
  {
    assert a + "," + b + "," + c + "," + d == (a + "," + b) + ("," + c + "," + d);
  }

  lemma Cut2(a: string, b: string, c: string, d: string)
    ensures a + "," + b + "," + c + "," + d == (a + "," + b + ",") + c + ("," + d)
  {
    assert a + "," + b + "," + c + "," + d == (a + "," + b + "," + c) + ("," + d);
  }

  lemma Cut3(a: string, b: string, c: string, d: string)
    ensures a + "," + b + "," + c + "," + d == (a + "," + b + "," + c + ",") + d + []
  {
  }

  /** A rendered option lacks every non-digit its name lacks. */
  lemma NamedLacks(name: string, n: nat, c: char)
    requires Lacks(name, c) && !IsDigit(c)
    ensures Lacks(Named(name, n), c)
  {
    LacksDecimal(n, c);
    LacksJoin(name, Decimal(n), c);
  }

  /** The IPMEM and MEMBASE options lack a character both names lack. */
  lemma TwoLack(p: Params, c: char)
    requires ValidParams(p) && !IsDigit(c) && c != ','
    requires Lacks(IPMEM, c) && Lacks(MEMBASE, c)
    ensures Lacks(Named(IPMEM, p.ipMem) + "," + Named(MEMBASE, p.memBase), c)
  {
    NamedLacks(IPMEM, p.ipMem, c);
    NamedLacks(MEMBASE, p.memBase, c);
    LacksJoin(Named(IPMEM, p.ipMem), ",", c);
    LacksJoin(Named(IPMEM, p.ipMem) + ",", Named(MEMBASE, p.memBase), c);
  }

  // --------------------------------------------------------- checkVMEprom

  /** Offsets in the VME64x configuration ROM of the bytes checkVMEprom reads. */
  const VME64CR_VALIDC: nat := 0x01F
  const VME64CR_VALIDR: nat := 0x023
  const VME64CR_MAN1: nat := 0x027
  const VME64CR_MAN2: nat := 0x02B
  const VME64CR_MAN3: nat := 0x02F
  const VME64CR_MOD1: nat := 0x033
  const VME64CR_MOD2: nat := 0x037
  const VME64CR_MOD3: nat := 0x03B
  const VME64CR_MOD4: nat := 0x03F

  const IEEE_MANUFACTURER_HYTEC: bv32 := 0x008003
  const HYTEC_MODEL_8002: bv32 := 0x8002_0000
  const HYTEC_MODEL_8004: bv32 := 0x8004_0000

  /** Three ROM bytes as one number, most significant first. */
  function Id3(b1: bv8, b2: bv8, b3: bv8): (w: bv32)
    ensures w == IEEE_MANUFACTURER_HYTEC <==> b1 == 0x00 && b2 == 0x80 && b3 == 0x03
  {
    ((b1 as bv32) << 16) + ((b2 as bv32) << 8) + b3 as bv32
  }

  /** Four ROM bytes as one number, most significant first. */
  function Id4(b1: bv8, b2: bv8, b3: bv8, b4: bv8): (w: bv32)
    ensures w == HYTEC_MODEL_8002 || w == HYTEC_MODEL_8004 <==>
      b1 == 0x80 && (b2 == 0x02 || b2 == 0x04) && b3 == 0x00 && b4 == 0x00
  {
    ((b1 as bv32) << 24) + ((b2 as bv32) << 16) + ((b3 as bv32) << 8) + b4 as bv32
  }

  /** The manufacturer number in the configuration ROM. */
  function ManufacturerId(rom: seq<bv8>): bv32
    requires |rom| > VME64CR_MOD4
  {
    Id3(rom[VME64CR_MAN1], rom[VME64CR_MAN2], rom[VME64CR_MAN3])
  }

  /** The board number in the configuration ROM. */
  function BoardId(rom: seq<bv8>): bv32
    requires |rom| > VME64CR_MOD4
  {
    Id4(rom[VME64CR_MOD1], rom[VME64CR_MOD2], rom[VME64CR_MOD3], rom[VME64CR_MOD4])
  }

  /** The identifier bytes of a Hytec 8002 or 8004 in its configuration ROM. */
  predicate HytecCarrierRom(rom: seq<bv8>)
    requires |rom| > VME64CR_MOD4
  {
    rom[VME64CR_VALIDC] == 0x43 && rom[VME64CR_VALIDR] == 0x52 &&
    rom[VME64CR_MAN1] == 0x00 && rom[VME64CR_MAN2] == 0x80 && rom[VME64CR_MAN3] == 0x03 &&
    rom[VME64CR_MOD1] == 0x80 && (rom[VME64CR_MOD2] == 0x02 || rom[VME64CR_MOD2] == 0x04) &&
    rom[VME64CR_MOD3] == 0x00 && rom[VME64CR_MOD4] == 0x00
  }

  /**
   * checkVMEprom: probeOk says whether devReadProbe could read the first
   * byte, rom holds the configuration ROM's bytes.
   */
  function CheckVmeProm(probeOk: bool, rom: seq<bv8>): (st: Status)
    requires |rom| > VME64CR_MOD4
    ensures st == OK || st == NoModule || st == BadModule
    ensures st == NoModule <==> !probeOk
    ensures st == OK <==> probeOk && HytecCarrierRom(rom)
  {
    if !probeOk then NoModule
    else if rom[VME64CR_VALIDC] != 'C' as bv8 || rom[VME64CR_VALIDR] != 'R' as bv8 then BadModule
    else if ManufacturerId(rom) != IEEE_MANUFACTURER_HYTEC then BadModule
    else if BoardId(rom) != HYTEC_MODEL_8002 && BoardId(rom) != HYTEC_MODEL_8004 then BadModule
    else OK
  }


  // --------------------------------------------------------------- irqCmd

  const CSR_INTSEL0: bv16 := 0x0004

  /** The C limit on 1 << (4 * irqNumber + slot) in an int: the shift is below 31. */
  predicate ShiftDefined(slot: nat, irq: nat) { 4 * irq + slot < 31 }

  /**
   * irqBit = 1 << (4 * irqNumber + slot) as it reaches the 16-bit
   * registers: the bit itself below 16, nothing at or above.
   */
  function IrqBit(slot: nat, irq: nat): bv16
    requires ShiftDefined(slot, irq)
  {
    var n := 4 * irq + slot;
    if n < 16 then Bit16(n) else 0
  }

  /** What one irqCmd does: the new intsel and the return value. */
  datatype IrqOutcome = IrqOutcome(intsel: bv16, reply: IrqReply)

  /**
   * The level field of the CSR, (csr / CSR_INTSEL0) & 7; CSR_INTSEL0 is 4,
   * so the unsigned division is a shift by two.
   */
  function CsrLevel(csr: bv16): int
  {
    ((csr >> 2) & 7) as int
  }

  /**
   * irqCmd on the carrier registers; csr, intsel and ipstat are the values
   * the registers read.
   */
  function IrqStep(csr: bv16, intsel: bv16, ipstat: bv16, slot: nat, irq: nat, cmd: IrqCmd): (r: IrqOutcome)
    requires ShiftDefined(slot, irq)
    ensures !(cmd.Enable? || cmd.Disable?) ==> r.intsel == intsel
    ensures cmd.Enable? || cmd.Disable? ==> r.reply == Code(OK)
  {
    var bit := IrqBit(slot, irq);
    match cmd
    case GetLevel => IrqOutcome(intsel, Value(CsrLevel(csr)))
    case Enable => IrqOutcome(SetBits16(intsel, bit), Code(OK))
    case Disable => IrqOutcome(ClearBits16(intsel, bit), Code(OK))
    case Poll => IrqOutcome(intsel, Value((ipstat & bit) as int))
    case _ => IrqOutcome(intsel, Code(NotImplemented))
  }

  /** GetLevel reports a level 0..7, and reports f exactly when CSR bits 2..4 hold f. */
  lemma LevelField(csr: bv16, f: bv16)
    requires f < 8
    ensures 0 <= CsrLevel(csr) < 8
    ensures CsrLevel(csr) == f as int <==> csr & 0x1C == f << 2
  {
    FieldShift(csr, f);
  }

  lemma FieldShift(csr: bv16, v: bv16)
    requires v < 8
    ensures (csr >> 2) & 7 == v <==> csr & 0x1C == v << 2
  {
  }

  /** An IP module line (slot 0..3, line 0 or 1) owns one bit of intsel. */
  lemma LineBit(slot: nat, irq: nat)
    requires slot < 4 && irq < 2
    ensures IrqBit(slot, irq) == Bit16(4 * irq + slot) != 0
  {
  }

  /** Different lines own different bits. */
  lemma LineBitsApart(s1: nat, i1: nat, s2: nat, i2: nat)
    requires s1 < 4 && i1 < 2 && s2 < 4 && i2 < 2 && (s1, i1) != (s2, i2)
    ensures IrqBit(s1, i1) & IrqBit(s2, i2) == 0
  {
    BitsApart(4 * i1 + s1, 4 * i2 + s2);
  }

  /**
   * Enable sets exactly the line's bit and reports OK; the other bits of
   * intsel, and so the other lines, keep their state.
   */
  lemma EnableOwnBit(csr: bv16, intsel: bv16, ipstat: bv16, slot: nat, irq: nat)
    requires ShiftDefined(slot, irq)
    ensures IrqStep(csr, intsel, ipstat, slot, irq, Enable).reply == Code(OK)
    ensures IrqStep(csr, intsel, ipstat, slot, irq, Enable).intsel & IrqBit(slot, irq) == IrqBit(slot, irq)
    ensures IrqStep(csr, intsel, ipstat, slot, irq, Enable).intsel & !IrqBit(slot, irq) == intsel & !IrqBit(slot, irq)
  {
    StepWrites(csr, intsel, ipstat, slot, irq);
    EnableSetsBit(csr, intsel, ipstat, slot, irq);
    EnableKeepsOthers(csr, intsel, ipstat, slot, irq);
  }

  /** Disable clears exactly the line's bit and reports OK. */
  lemma DisableOwnBit(csr: bv16, intsel: bv16, ipstat: bv16, slot: nat, irq: nat)
    requires ShiftDefined(slot, irq)
    ensures IrqStep(csr, intsel, ipstat, slot, irq, Disable).reply == Code(OK)
    ensures IrqStep(csr, intsel, ipstat, slot, irq, Disable).intsel & IrqBit(slot, irq) == 0
    ensures IrqStep(csr, intsel, ipstat, slot, irq, Disable).intsel & !IrqBit(slot, irq) == intsel & !IrqBit(slot, irq)
  {
    StepWrites(csr, intsel, ipstat, slot, irq);
    DisableClearsBit(csr, intsel, ipstat, slot, irq);
    DisableKeepsOthers(csr, intsel, ipstat, slot, irq);
  }

  // The bit-vector facts one at a time: the solver handles each alone
  // far more cheaply than their conjunction.

  lemma EnableSetsBit(csr: bv16, intsel: bv16, ipstat: bv16, slot: nat, irq: nat)
    requires ShiftDefined(slot, irq)
    ensures IrqStep(csr, intsel, ipstat, slot, irq, Enable).intsel & IrqBit(slot, irq) == IrqBit(slot, irq)
  {
    StepWrites(csr, intsel, ipstat, slot, irq);
    SetClear(intsel, IrqBit(slot, irq));
  }

  lemma EnableKeepsOthers(csr: bv16, intsel: bv16, ipstat: bv16, slot: nat, irq: nat)
    requires ShiftDefined(slot, irq)
    ensures IrqStep(csr, intsel, ipstat, slot, irq, Enable).intsel & !IrqBit(slot, irq) == intsel & !IrqBit(slot, irq)
  {
    StepWrites(csr, intsel, ipstat, slot, irq);
    SetClear(intsel, IrqBit(slot, irq));
  }

  lemma DisableClearsBit(csr: bv16, intsel: bv16, ipstat: bv16, slot: nat, irq: nat)
    requires ShiftDefined(slot, irq)
    ensures IrqStep(csr, intsel, ipstat, slot, irq, Disable).intsel & IrqBit(slot, irq) == 0
  {
    StepWrites(csr, intsel, ipstat, slot, irq);
    SetClear(intsel, IrqBit(slot, irq));
  }

  lemma DisableKeepsOthers(csr: bv16, intsel: bv16, ipstat: bv16, slot: nat, irq: nat)
    requires ShiftDefined(slot, irq)
    ensures IrqStep(csr, intsel, ipstat, slot, irq, Disable).intsel & !IrqBit(slot, irq) == intsel & !IrqBit(slot, irq)
  {
    StepWrites(csr, intsel, ipstat, slot, irq);
    SetClear(intsel, IrqBit(slot, irq));
  }

  /** What Enable and Disable write, with the bit left abstract. */
  lemma StepWrites(csr: bv16, intsel: bv16, ipstat: bv16, slot: nat, irq: nat)
    requires ShiftDefined(slot, irq)
    ensures IrqStep(csr, intsel, ipstat, slot, irq, Enable) == IrqOutcome(intsel | IrqBit(slot, irq), Code(OK))
    ensures IrqStep(csr, intsel, ipstat, slot, irq, Disable) == IrqOutcome(intsel & !IrqBit(slot, irq), Code(OK))
  {
    EnableWrites(csr, intsel, ipstat, slot, irq);
    DisableWrites(csr, intsel, ipstat, slot, irq);
  }

  lemma EnableWrites(csr: bv16, intsel: bv16, ipstat: bv16, slot: nat, irq: nat)
    requires ShiftDefined(slot, irq)
    ensures IrqStep(csr, intsel, ipstat, slot, irq, Enable) == IrqOutcome(intsel | IrqBit(slot, irq), Code(OK))
  {
  }

  lemma DisableWrites(csr: bv16, intsel: bv16, ipstat: bv16, slot: nat, irq: nat)
    requires ShiftDefined(slot, irq)
    ensures IrqStep(csr, intsel, ipstat, slot, irq, Disable) == IrqOutcome(intsel & !IrqBit(slot, irq), Code(OK))
  {
  }


  /** The commands other than Enable and Disable leave intsel alone. */
  lemma StepKeeps(csr: bv16, intsel: bv16, ipstat: bv16, slot: nat, irq: nat, cmd: IrqCmd)
    requires ShiftDefined(slot, irq) && !cmd.Enable? && !cmd.Disable?
    ensures IrqStep(csr, intsel, ipstat, slot, irq, cmd).intsel == intsel
  {
  }

  /** Disable undoes Enable on a line that was disabled. */
  lemma DisableUndoesEnable(csr: bv16, intsel: bv16, ipstat: bv16, slot: nat, irq: nat)
    requires ShiftDefined(slot, irq)
    requires intsel & IrqBit(slot, irq) == 0
    ensures var e := IrqStep(csr, intsel, ipstat, slot, irq, Enable).intsel;
      IrqStep(csr, e, ipstat, slot, irq, Disable).intsel == intsel
  {
    Undo(intsel, IrqBit(slot, irq));
  }

  /**
   * Poll and GetLevel only read: Poll is non-zero exactly when the line's
   * status bit is set, and neither touches intsel.
   */
  lemma ReadsOnly(csr: bv16, intsel: bv16, ipstat: bv16, slot: nat, irq: nat)
    requires ShiftDefined(slot, irq)
    ensures var o := IrqStep(csr, intsel, ipstat, slot, irq, Poll);
      o.intsel == intsel && o.reply.Value? && (o.reply.value != 0 <==> ipstat & IrqBit(slot, irq) != 0)
    ensures var o := IrqStep(csr, intsel, ipstat, slot, irq, GetLevel);
      o == IrqOutcome(intsel, Value(CsrLevel(csr)))
  {
  }

  /** Any other command is not implemented and changes nothing. */
  lemma OthersNotImplemented(csr: bv16, intsel: bv16, ipstat: bv16, slot: nat, irq: nat, cmd: IrqCmd)
    requires ShiftDefined(slot, irq)
    requires !(cmd.GetLevel? || cmd.Enable? || cmd.Disable? || cmd.Poll?)
    ensures IrqStep(csr, intsel, ipstat, slot, irq, cmd) == IrqOutcome(intsel, Code(NotImplemented))
  {
  }

  /** The carrier's register block (ctrl_t), as irqCmd reads and writes it. */
  class Ctrl {
    var ipstat: bv16
    var memoff: bv16
    var csr: bv16
    var intsel: bv16

    constructor (ipstat0: bv16, memoff0: bv16, csr0: bv16, intsel0: bv16)
      ensures ipstat == ipstat0 && memoff == memoff0 && csr == csr0 && intsel == intsel0
    {
      ipstat, memoff, csr, intsel := ipstat0, memoff0, csr0, intsel0;
    }

    /** irqCmd: only Enable and Disable write, and only intsel. */
    method IrqCmd(slot: nat, irq: nat, cmd: IrqCmd) returns (reply: IrqReply)
      requires ShiftDefined(slot, irq)
      modifies this`intsel
      ensures intsel == IrqStep(csr, old(intsel), ipstat, slot, irq, cmd).intsel
      ensures reply == IrqStep(csr, old(intsel), ipstat, slot, irq, cmd).reply
    {
      var irqBit := IrqBit(slot, irq);
      match cmd {
        case GetLevel =>
          reply := Value(CsrLevel(csr));
        case Enable =>
          intsel := SetBits16(intsel, irqBit);
          reply := Code(OK);
        case Disable =>
          intsel := ClearBits16(intsel, irqBit);
          reply := Code(OK);
        case Poll =>
          reply := Value((ipstat & irqBit) as int);
        case _ =>
          reply := Code(NotImplemented);
      }
    }
  }
}
