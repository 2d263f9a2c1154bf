/*
 * The Hytec VICB8002/8004 VME carrier driver (drvHy8002.c): the parameter
 * string tokenizer, the CSR and memory-base words initialise computes, the
 * carrier PROM check, the lazy per-slot address cache of baseAddr, and the
 * interrupt-select mirror of irqCmd with its write-out to the board.
 */
module Hy8002 {
  import opened IpacBase
  import opened Lexer

  // ------------------------------------------------------------ tokenizer

  const SPACE: char := ' '
  const EQUAL: char := '='

  /** The first index at or after i that is not a blank (only ' ' counts). */
  function SkipSpaces(s: string, i: nat): (j: nat)
    requires i <= |s|
    ensures i <= j <= |s|
    ensures forall k :: i <= k < j ==> s[k] == SPACE
    ensures j < |s| ==> s[j] != SPACE
    decreases |s| - i
  {
    if i == |s| || s[i] != SPACE then i else SkipSpaces(s, i + 1)
  }

  /** The first index at or after i that holds one of stops, or |s|. */
  function Until(s: string, i: nat, stops: set<char>): (j: nat)
    requires i <= |s|
    ensures i <= j <= |s|
    ensures forall k :: i <= k < j ==> s[k] !in stops
    ensures j < |s| ==> s[j] in stops
    decreases |s| - i
  {
    if i == |s| || s[i] in stops then i else Until(s, i + 1, stops)
  }

  /** A value read from the string and the index the scan goes on from. */
  datatype Step = Step(value: int, next: nat)

  /**
   * One of the three leading integers: blanks, then a token up to the next
   * blank read with "%d"; the scan resumes after the token's terminator.
   * The end test is `i >= |s|` (see Findings: the driver tests `i == len`).
   */
  function Positional(s: string, i: nat): (r: Option<Step>)
  {
    if i >= |s| then None
    else
      var j := SkipSpaces(s, i);
      if j == |s| then None
      else
        var e := Until(s, j, {SPACE});
        match ScanDec(s[j..e])
        case None => None
        case Some(sc) => Some(Step(sc.value, e + 1))
  }

  /**
   * getassign: after an option name ending at ila, blanks, '=', blanks and a
   * token read with "%i"; next is the index of the token's terminator.
   */
  function GetAssign(s: string, ila: nat): (r: Option<Step>)
    requires ila <= |s|
    ensures r.Some? ==> ila < r.value.next <= |s|
  {
    var a := SkipSpaces(s, ila);
    if a == |s| || s[a] != EQUAL then None
    else
      var i := SkipSpaces(s, a + 1);
      if i == |s| then None
      else
        var e := Until(s, i, {SPACE});
        match ScanInt(s[i..e])
        case None => None
        case Some(sc) => Some(Step(sc.value, e))
  }

  /** The option names the tokenizer knows. */
  datatype OptName = AB32 | CD32 | IPMEM | IPCLCK | MEMOFFS

  /** The option a token names, compared as strcmp does; None for any other token. */
  function NameOf(token: string): (r: Option<OptName>)
    ensures r.Some? <==> token in {"AB32", "CD32", "IPMEM", "IPCLCK", "MEMOFFS"}
  {
    if token == "AB32" then Some(AB32)
    else if token == "CD32" then Some(CD32)
    else if token == "IPMEM" then Some(IPMEM)
    else if token == "IPCLCK" then Some(IPCLCK)
    else if token == "MEMOFFS" then Some(MEMOFFS)
    else None
  }

  /**
   * MEMOFFS must be below this bound. The driver accepts values below 1 << 17
   * (see Findings); the model uses the 16 bits the carrier's register holds.
   */
  const MemOffsLimit: int := 0x1_0000

  /**
   * The options read so far: the driver's out-parameters and its two
   * "got" flags, plus the option names in the order they were read.
   */
  datatype Opts = Opts(ipMem: int, ab32: bool, cd32: bool, ipClck: int,
                       doMemReg: bool, memOffs: int,
                       gotIpMem: bool, gotIpClck: bool, given: seq<OptName>)

  /** The option defaults scanparm sets before reading options. */
  const Defaults: Opts := Opts(1, false, false, 8, false, 0, false, false, [])

  /** The driver's flag recording that the named option was read already. */
  predicate Given(o: Opts, name: OptName) {
    match name
    case AB32 => o.ab32
    case CD32 => o.cd32
    case IPMEM => o.gotIpMem
    case IPCLCK => o.gotIpClck
    case MEMOFFS => o.doMemReg
  }

  /** AB32 and CD32 stand alone; the other options take "=value". */
  predicate Valued(name: OptName) {
    name.IPMEM? || name.IPCLCK? || name.MEMOFFS?
  }

  /** The values a valued option accepts. */
  predicate InRange(name: OptName, v: int) {
    match name
    case IPMEM => v in {1, 2, 4, 8}
    case IPCLCK => v == 8 || v == 32
    case _ => 0 <= v < MemOffsLimit
  }

  /** The options after the named one is read with value v. */
  function Accept(o: Opts, name: OptName, v: int): Opts {
    var o' := o.(given := o.given + [name]);
    match name
    case AB32 => o'.(ab32 := true)
    case CD32 => o'.(cd32 := true)
    case IPMEM => o'.(ipMem := v, gotIpMem := true)
    case IPCLCK => o'.(ipClck := v, gotIpClck := true)
    case MEMOFFS => o'.(doMemReg := true, memOffs := v)
  }

  /** Where the option loop goes on, with the options read so far. */
  datatype Resume = Resume(next: nat, opts: Opts)

  /**
   * One pass of the option loop at i < |s|: blanks, a name up to a blank or
   * '=', then the value for a valued option. None is a return of 0: only
   * blanks left, an unknown name, a repeated option, a missing or
   * unreadable value, or a value out of range.
   */
  function OptionStep(s: string, i: nat, o: Opts): (r: Option<Resume>)
    requires i < |s|
    ensures r.Some? ==> i < r.value.next <= |s| + 1
  {
    var j := SkipSpaces(s, i);
    if j == |s| then None
    else
      var e := Until(s, j, {SPACE, EQUAL});
      OptionNamed(s, e, o, s[j..e])
  }

  /** The rest of a pass once the option name is read; e is the index after it. */
  function OptionNamed(s: string, e: nat, o: Opts, token: string): (r: Option<Resume>)
    requires e <= |s|
    ensures r.Some? ==> e < r.value.next <= |s| + 1
  {
    match NameOf(token)
    case None => None
    case Some(name) => OptionValue(s, e, o, name)
  }

  /** Reading the value, if any, of the known option name. */
  function OptionValue(s: string, e: nat, o: Opts, name: OptName): (r: Option<Resume>)
    requires e <= |s|
    ensures r.Some? ==> e < r.value.next <= |s| + 1
  {
    if Given(o, name) then None
    else if !Valued(name) then Some(Resume(e + 1, Accept(o, name, 0)))
    else match GetAssign(s, e)
      case None => None
      case Some(a) =>
        if InRange(name, a.value) then Some(Resume(a.next + 1, Accept(o, name, a.value))) else None
  }

  /** The option loop of scanparm, from index i on. */
  function Options(s: string, i: nat, o: Opts): Option<Opts>
    decreases |s| + 1 - i
  {
    if i >= |s| then Some(o)
    else match OptionStep(s, i, o)
      case None => None
      case Some(r) => Options(s, r.next, r.opts)
  }

  /** What a successful scanparm hands to initialise. */
  datatype Params = Params(vmeSlot: int, intLevel: int, hsIntNum: int,
                           ipMem: int, ab32: bool, cd32: bool, ipClck: int,
                           doMemReg: bool, memOffs: int, given: seq<OptName>)

  function ParamsOf(vme: int, lev: int, hs: int, o: Opts): Params {
    Params(vme, lev, hs, o.ipMem, o.ab32, o.cd32, o.ipClck, o.doMemReg, o.memOffs, o.given)
  }

  /** scanparm: three leading integers, then the options; None is a return of 0. */
  function Parse(s: string): (r: Option<Params>)
    ensures r.Some? ==> |s| > 0 && 0 <= r.value.vmeSlot <= 21 && 0 <= r.value.intLevel <= 7 && 0 <= r.value.hsIntNum <= 255
  {
    if |s| == 0 then None
    else match Positional(s, 0)
      case None => None
      case Some(v) =>
        if v.value < 0 || v.value > 21 then None
        else match Positional(s, v.next)
          case None => None
          case Some(l) =>
            if l.value < 0 || l.value > 7 then None
            else match Positional(s, l.next)
              case None => None
              case Some(h) =>
                if h.value < 0 || h.value > 255 then None
                else match Options(s, h.next, Defaults)
                  case None => None
                  case Some(o) => Some(ParamsOf(v.value, l.value, h.value, o))
  }

  /** No option name occurs twice. */
  predicate NoRepeats(names: seq<OptName>) {
    forall a, b :: 0 <= a < b < |names| ==> names[a] != names[b]
  }

  /** The options read so far agree with the driver's flags and ranges. */
  predicate OptsInvariant(o: Opts) {
    && NoRepeats(o.given)
    && (o.ab32 <==> AB32 in o.given)
    && (o.cd32 <==> CD32 in o.given)
    && (o.gotIpMem <==> IPMEM in o.given)
    && (o.gotIpClck <==> IPCLCK in o.given)
    && (o.doMemReg <==> MEMOFFS in o.given)
    && o.ipMem in {1, 2, 4, 8} && (!o.gotIpMem ==> o.ipMem == 1)
    && (o.ipClck == 8 || o.ipClck == 32) && (!o.gotIpClck ==> o.ipClck == 8)
    && 0 <= o.memOffs < MemOffsLimit && (!o.doMemReg ==> o.memOffs == 0)
  }

  /**
   * What a successful parse guarantees: the ranges of the three integers,
   * option values in range, absent options at their defaults, and every
   * option name known and given at most once.
   */
  predicate ValidParams(p: Params) {
    && 0 <= p.vmeSlot <= 21 && 0 <= p.intLevel <= 7 && 0 <= p.hsIntNum <= 255
    && OptsInvariant(Opts(p.ipMem, p.ab32, p.cd32, p.ipClck, p.doMemReg, p.memOffs,
                          IPMEM in p.given, IPCLCK in p.given, p.given))
  }

  /** Accepting a known option that was not given before keeps the invariant. */
  lemma AppendKeepsNoRepeats(g: seq<OptName>, name: OptName)
    requires NoRepeats(g) && name !in g
    ensures NoRepeats(g + [name])
  {
    var g' := g + [name];
    forall a, b | 0 <= a < b < |g'| ensures g'[a] != g'[b] {
      if b == |g| {
        assert g'[a] == g[a];
      }
    }
  }

  /** Accepting an option that was not given before keeps the invariant. */
  lemma AcceptKeepsInvariant(o: Opts, name: OptName, v: int)
    requires OptsInvariant(o) && !Given(o, name)
    requires Valued(name) ==> InRange(name, v)
    ensures OptsInvariant(Accept(o, name, v))
  {
    assert name !in o.given;
    AppendKeepsNoRepeats(o.given, name);
  }

  lemma OptionStepKeepsInvariant(s: string, i: nat, o: Opts)
    requires i < |s| && OptsInvariant(o)
    ensures OptionStep(s, i, o).Some? ==> OptsInvariant(OptionStep(s, i, o).value.opts)
  {
    var j := SkipSpaces(s, i);
    if j < |s| {
      var e := Until(s, j, {SPACE, EQUAL});
      match NameOf(s[j..e])
      case None =>
      case Some(name) =>
        if !Given(o, name) {
          if !Valued(name) {
            AcceptKeepsInvariant(o, name, 0);
          } else if GetAssign(s, e).Some? && InRange(name, GetAssign(s, e).value.value) {
            AcceptKeepsInvariant(o, name, GetAssign(s, e).value.value);
          }
        }
    }
  }

  lemma {:induction false} OptionsKeepInvariant(s: string, i: nat, o: Opts)
    requires OptsInvariant(o)
    ensures Options(s, i, o).Some? ==> OptsInvariant(Options(s, i, o).value)
    decreases |s| + 1 - i
  {
    if i < |s| {
      OptionStepKeepsInvariant(s, i, o);
      match OptionStep(s, i, o)
      case None =>
      case Some(r) => OptionsKeepInvariant(s, r.next, r.opts);
    }
  }

  /**
   * A successful parse has its integers in range, option values in range,
   * defaults for the options not given, and no unknown or repeated option.
   */
  lemma ParseValid(s: string)
    ensures Parse(s).Some? ==> ValidParams(Parse(s).value)
  {
    if Parse(s).Some? {
      var v := Positional(s, 0).value;
      var l := Positional(s, v.next).value;
      var h := Positional(s, l.next).value;
      OptionsKeepInvariant(s, h.next, Defaults);
    }
  }

  /** With nothing after the three integers, every option takes its default. */
  lemma ParseDefaults(s: string)
    requires Parse(s).Some? && Parse(s).value.given == []
    ensures var p := Parse(s).value;
      p.ipMem == 1 && !p.ab32 && !p.cd32 && p.ipClck == 8 && !p.doMemReg && p.memOffs == 0
  {
    ParseValid(s);
  }

  method SkipSpacesFrom(s: string, i0: nat) returns (i: nat)
    requires i0 <= |s|
    ensures i == SkipSpaces(s, i0)
  {
    i := i0;
    while i < |s| && s[i] == SPACE
      invariant i0 <= i <= |s|
      invariant SkipSpaces(s, i) == SkipSpaces(s, i0)
    {
      i := i + 1;
    }
  }

  method ScanUntil(s: string, i0: nat, stops: set<char>) returns (i: nat)
    requires i0 <= |s|
    ensures i == Until(s, i0, stops)
  {
    i := i0;
    while i < |s| && s[i] !in stops
      invariant i0 <= i <= |s|
      invariant Until(s, i, stops) == Until(s, i0, stops)
    {
      i := i + 1;
    }
  }

  /** The reading of one leading integer, as scanparm does it inline. */
  method ReadPositional(s: string, i0: nat) returns (r: Option<Step>)
    ensures r == Positional(s, i0)
  {
    if i0 >= |s| {
      return None;
    }
    var i := SkipSpacesFrom(s, i0);
    if i == |s| {
      return None;
    }
    var ila := ScanUntil(s, i, {SPACE});
    var sc := ScanDec(s[i..ila]);
    if sc.None? {
      return None;
    }
    return Some(Step(sc.value.value, ila + 1));
  }

  method ReadAssign(s: string, ila0: nat) returns (r: Option<Step>)
    requires ila0 <= |s|
    ensures r == GetAssign(s, ila0)
  {
    var ila := SkipSpacesFrom(s, ila0);
    if ila == |s| || s[ila] != EQUAL {
      return None;
    }
    var i := SkipSpacesFrom(s, ila + 1);
    if i == |s| {
      return None;
    }
    ila := ScanUntil(s, i, {SPACE});
    var sc := ScanInt(s[i..ila]);
    if sc.None? {
      return None;
    }
    return Some(Step(sc.value.value, ila));
  }

  /** One pass of the option loop: blanks, then the name up to a blank or '='. */
  method ReadOption(s: string, i0: nat, o: Opts) returns (r: Option<Resume>)
    requires i0 < |s|
    ensures r == OptionStep(s, i0, o)
  {
    var i := SkipSpacesFrom(s, i0);
    if i == |s| {
      return None;
    }
    var ila := ScanUntil(s, i, {SPACE, EQUAL});
    r := SwitchOption(s, ila, o, s[i..ila]);
  }

  /** The driver's switch on the option name. */
  method SwitchOption(s: string, ila: nat, o: Opts, token: string) returns (r: Option<Resume>)
    requires ila <= |s|
    ensures r == OptionNamed(s, ila, o, token)
  {
    if token == "AB32" {
      r := TakeFlag(s, ila, o, AB32);
    } else if token == "CD32" {
      r := TakeFlag(s, ila, o, CD32);
    } else if token == "IPMEM" {
      r := TakeValue(s, ila, o, IPMEM);
    } else if token == "IPCLCK" {
      r := TakeValue(s, ila, o, IPCLCK);
    } else if token == "MEMOFFS" {
      r := TakeValue(s, ila, o, MEMOFFS);
    } else {
      r := None;
    }
  }

  /** AB32 or CD32: refused when already given, else set and skip the terminator. */
  method TakeFlag(s: string, ila: nat, o: Opts, name: OptName) returns (r: Option<Resume>)
    requires ila <= |s| && !Valued(name)
    ensures r == OptionValue(s, ila, o, name)
  {
    if Given(o, name) {
      return None;
    }
    return Some(Resume(ila + 1, Accept(o, name, 0)));
  }

  /** IPMEM, IPCLCK or MEMOFFS: refused when already given, else getassign and the range check. */
  method TakeValue(s: string, ila: nat, o: Opts, name: OptName) returns (r: Option<Resume>)
    requires ila <= |s| && Valued(name)
    ensures r == OptionValue(s, ila, o, name)
  {
    if Given(o, name) {
      return None;
    }
    var a := ReadAssign(s, ila);
    if a.None? || !InRange(name, a.value.value) {
      return None;
    }
    return Some(Resume(a.value.next + 1, Accept(o, name, a.value.value)));
  }

  /**
   * scanparm: walks the string with the indices i and ila, as the driver
   * does. copyOk says whether the calloc for the driver's copy of the
   * string succeeds; when it fails scanparm returns 0 before reading.
   */
  method ScanParm(s: string, copyOk: bool) returns (r: Option<Params>)
    ensures !copyOk ==> r.None?
    ensures copyOk ==> r == Parse(s)
  {
    if !copyOk {
      return None;
    }
    var len := |s|;
    if len == 0 {
      return None;
    }
    var vme := ReadPositional(s, 0);
    if vme.None? || vme.value.value < 0 || vme.value.value > 21 {
      return None;
    }
    var lev := ReadPositional(s, vme.value.next);
    if lev.None? || lev.value.value < 0 || lev.value.value > 7 {
      return None;
    }
    var hs := ReadPositional(s, lev.value.next);
    if hs.None? || hs.value.value < 0 || hs.value.value > 255 {
      return None;
    }
    var o := Defaults;
    var i := hs.value.next;
    while i < len
      invariant Options(s, i, o) == Options(s, hs.value.next, Defaults)
      decreases len + 1 - i
    {
      var step := ReadOption(s, i, o);
      if step.None? {
        return None;
      }
      i, o := step.value.next, step.value.opts;
    }
    return Some(ParamsOf(vme.value.value, lev.value.value, hs.value.value, o));
  }

  // ------------------------------------------ end-of-string test as written

  /**
   * The index the driver writes its NUL to when it reads a leading integer
   * starting at i, or None where it returns 0 instead: the driver stops only
   * when i == len, so an i of len + 1 goes on to write cp[len + 1].
   */
  function PositionalNulAsWritten(s: string, i: nat): (r: Option<nat>)
  {
    if i == |s| then None
    else if i > |s| then Some(i)
    else
      var j := SkipSpaces(s, i);
      if j == |s| then None else Some(Until(s, j, {SPACE}))
  }

  /**
   * "5 3": the second integer ends at the end of the string, so the third
   * starts at len + 1, and the driver writes one byte past its len + 1 byte
   * copy of the string.
   */
  lemma PositionalOverrun()
    ensures Positional("5 3", 0) == Some(Step(5, 2))
    ensures Positional("5 3", 2) == Some(Step(3, 4))
    ensures PositionalNulAsWritten("5 3", 4) == Some(4)
  {
    var s := "5 3";
    assert SkipSpaces(s, 0) == 0;
    assert Until(s, 0, {SPACE}) == 1;
    assert s[0..1] == "5";
    ScanDecDecimal(5, []);
    assert Decimal(5) == "5";
    assert SkipSpaces(s, 2) == 2;
    assert Until(s, 2, {SPACE}) == 3 by {
      assert Until(s, 3, {SPACE}) == 3;
    }
    assert s[2..3] == "3";
    ScanDecDecimal(3, []);
    assert Decimal(3) == "3";
  }

  /** With the corrected test the reader stays inside the string and its terminator. */
  lemma PositionalInBounds(s: string, i: nat)
    ensures Positional(s, i).Some? ==> i < |s| && i < Positional(s, i).value.next <= |s| + 1
    ensures i > |s| ==> Positional(s, i).None?
  {
  }

  // ------------------------------------------------------- CSR and membase

  const CSR_INTR_ENB: bv16 := 0x0002
  const CSR_INTR_LEV_MASK: bv16 := 0x001C
  const CSR_32MHZ_CLOCK: bv16 := 0x0020
  const CSR_USE_MEM_OFFSET: bv16 := 0x0040
  const CSR_IP_MEM_MASK: bv16 := 0x0180
  const CSR_IP_CD_32BIT: bv16 := 0x4000
  const CSR_IP_AB_32BIT: bv16 := 0x8000

  /** The power of two ipMem is: 1, 2, 4, 8 MB give 0, 1, 2, 3. */
  function MemShift(ipMem: int): (k: nat)
    requires ipMem in {1, 2, 4, 8}
    ensures k < 4
  {
    if ipMem == 1 then 0 else if ipMem == 2 then 1 else if ipMem == 4 then 2 else 3
  }

  /** The CSR word initialise computes. IPCLCK is parsed but never reaches it. */
  function Csr(p: Params): bv16
    requires ValidParams(p)
  {
    ((p.intLevel as bv16 << 2) & CSR_INTR_LEV_MASK)
    | (if p.ab32 then CSR_IP_AB_32BIT else 0)
    | (if p.cd32 then CSR_IP_CD_32BIT else 0)
    | (if p.doMemReg then CSR_USE_MEM_OFFSET else 0)
    | ((MemShift(p.ipMem) as bv16) << 7)
  }

  /** The fields of a CSR word. */
  datatype CsrFields = CsrFields(level: bv16, ab32: bool, cd32: bool, memOffset: bool,
                                 clock32: bool, memSize: bv16, intEnable: bool)

  function DecodeCsr(c: bv16): CsrFields {
    CsrFields((c & CSR_INTR_LEV_MASK) >> 2, c & CSR_IP_AB_32BIT != 0, c & CSR_IP_CD_32BIT != 0,
              c & CSR_USE_MEM_OFFSET != 0, c & CSR_32MHZ_CLOCK != 0,
              (c & CSR_IP_MEM_MASK) >> 7, c & CSR_INTR_ENB != 0)
  }

  /**
   * Reading the CSR fields back gives the parsed settings: the level, the
   * double-wide and memory-offset modes and the memory size, with interrupts
   * off and the 8 MHz clock whatever IPCLCK said.
   */
  lemma CsrRoundTrip(p: Params)
    requires ValidParams(p)
    ensures DecodeCsr(Csr(p)) ==
      CsrFields(p.intLevel as bv16, p.ab32, p.cd32, p.doMemReg, false, MemShift(p.ipMem) as bv16, false)
  {
    var lev := p.intLevel as bv16;
    assert lev < 8;
    var m := MemShift(p.ipMem) as bv16;
    assert m < 4;
  }

  /** Setting or clearing the interrupt enable bit changes no other CSR field. */
  lemma CsrIntEnableOnly(c: bv16)
    ensures DecodeCsr(SetBits16(c, CSR_INTR_ENB)) == DecodeCsr(c).(intEnable := true)
    ensures DecodeCsr(ClearBits16(c, CSR_INTR_ENB)) == DecodeCsr(c).(intEnable := false)
  {
  }

  /**
   * The memory base register initialise computes: MEMOFFS rounded down to a
   * multiple of 64, shifted by the size power, in an unsigned short.
   */
  function MemBaseWord(memOffs: int, ipMem: int): bv16
    requires 0 <= memOffs < MemOffsLimit && ipMem in {1, 2, 4, 8}
  {
    ((memOffs as bv16) & !63) << MemShift(ipMem)
  }

  /**
   * With 1 MB per slot the register holds MEMOFFS rounded down to a multiple
   * of 64: its low six bits are clear and it is at most 63 below MEMOFFS.
   */
  lemma MemBaseWordRounds(memOffs: int)
    requires 0 <= memOffs < MemOffsLimit
    ensures MemBaseWord(memOffs, 1) & 63 == 0
    ensures MemBaseWord(memOffs, 1) <= memOffs as bv16
    ensures (memOffs as bv16) - MemBaseWord(memOffs, 1) < 64
  {
  }

  /** The membase computation as written, where MEMOFFS may be up to 1 << 17. */
  function MemBaseWordAsWritten(memOffs: int, ipMem: int): bv16
    requires 0 <= memOffs < 0x2_0000 && ipMem in {1, 2, 4, 8}
  {
    (((memOffs % 0x1_0000) as bv16) & !63) << MemShift(ipMem)
  }

  /** The driver's MEMOFFS check as written: anything from 0 below 1 << 17. */
  predicate MemOffsAcceptedAsWritten(v: int) {
    !(v < 0 || v >= 0x2_0000)
  }

  /**
   * The check as written admits exactly the offsets from 65536 below 1 << 17
   * beyond those the intended check admits; 65536 is the first of them.
   */
  lemma MemOffsCheckWider(v: int)
    ensures (MemOffsAcceptedAsWritten(v) && !InRange(MEMOFFS, v)) <==> 0x1_0000 <= v < 0x2_0000
    ensures InRange(MEMOFFS, v) ==> MemOffsAcceptedAsWritten(v)
    ensures MemOffsAcceptedAsWritten(0x1_0000) && !InRange(MEMOFFS, 0x1_0000)
  {
  }

  /** MEMOFFS=65536 yields the same 16-bit register as MEMOFFS=0. */
  lemma MemOffsWraps()
    ensures MemBaseWordAsWritten(0x1_0000, 1) == MemBaseWordAsWritten(0, 1) == 0
  {
  }

  /** The checks initialise applies after the CSR is computed. */
  predicate Admitted(p: Params) {
    !(p.ipMem == 2 && p.vmeSlot > 15) && !(p.ipMem == 4 && !p.doMemReg)
  }

  // ------------------------------------------------------------- PROM check

  const CARR_IDENT: nat := 0x81
  const CARR_MANID: nat := 0x89
  const CARR_MODID: nat := 0x8B
  const MANUFACTURER_HYTEC: bv16 := 0x80
  const HYTEC_PROM_MODEL: bv16 := 0x82
  /** The size of the A16 window initialise maps for the carrier's own registers. */
  const VME_MEM_SIZE: nat := 0xA0

  /** "IPAC": only the first three letters are compared, the fourth is a version. */
  const ExpStr: seq<bv8> := [0x49, 0x50, 0x41, 0x43]

  /** A PROM byte read through a C char and stored in an unsigned short, as written. */
  function PromWordAsWritten(b: bv8, signedChar: bool): bv16 {
    if signedChar && b >= 0x80 then 0xFF00 | b as bv16 else b as bv16
  }

  /** The same with the sign extension masked off. */
  function PromWord(b: bv8, signedChar: bool): (w: bv16)
    ensures w == b as bv16
  {
    PromWordAsWritten(b, signedChar) & 0xFF
  }

  /** On a target whose char is signed the driver never sees the Hytec identifiers. */
  lemma SignedCharMissesHytec()
    ensures PromWordAsWritten(0x80, true) != MANUFACTURER_HYTEC
    ensures PromWordAsWritten(0x82, true) != HYTEC_PROM_MODEL
    ensures PromWord(0x80, true) == MANUFACTURER_HYTEC && PromWord(0x82, true) == HYTEC_PROM_MODEL
  {
  }

  /** The carrier's PROM, read through its A16 window, identifies a Hytec 8002. */
  predicate PromOk(prom: seq<bv8>)
    requires |prom| == VME_MEM_SIZE
  {
    && (forall k :: 0 <= k < 3 ==> prom[CARR_IDENT + 2 * k] == ExpStr[k])
    && prom[CARR_MANID] == 0x80
    && prom[CARR_MODID] == 0x82
  }

  /**
   * The PROM test as written: the identifier bytes compare as bytes, while
   * the manufacturer and model bytes pass through PromWordAsWritten.
   */
  predicate PromOkAsWritten(prom: seq<bv8>, signedChar: bool)
    requires |prom| == VME_MEM_SIZE
  {
    && (forall k :: 0 <= k < 3 ==> prom[CARR_IDENT + 2 * k] == ExpStr[k])
    && PromWordAsWritten(prom[CARR_MANID], signedChar) == MANUFACTURER_HYTEC
    && PromWordAsWritten(prom[CARR_MODID], signedChar) == HYTEC_PROM_MODEL
  }

  /**
   * Where char is unsigned the PROM test as written is the intended one;
   * where it is signed no PROM passes it, a genuine Hytec 8002 included.
   */
  lemma PromOkAsWrittenBySign(prom: seq<bv8>)
    requires |prom| == VME_MEM_SIZE
    ensures PromOkAsWritten(prom, false) <==> PromOk(prom)
    ensures !PromOkAsWritten(prom, true)
  {
  }

  /**
   * checkprom, with the sign extension of the manufacturer and model bytes
   * masked off, so that the result does not depend on signedChar; the
   * identifier bytes sit at every other address from CARR_IDENT.
   */
  method CheckProm(prom: seq<bv8>, signedChar: bool) returns (ok: bool)
    requires |prom| == VME_MEM_SIZE
    ensures ok <==> PromOk(prom)
  {
    var str: seq<bv8> := [];
    var adr := CARR_IDENT;
    while |str| < 4
      invariant |str| <= 4 && adr == CARR_IDENT + 2 * |str|
      invariant forall k :: 0 <= k < |str| ==> str[k] == prom[CARR_IDENT + 2 * k]
    {
      str := str + [prom[adr]];
      adr := adr + 2;
    }
    var i := 0;
    while i < 3 && ExpStr[i] == str[i]
      invariant 0 <= i <= 3
      invariant forall k :: 0 <= k < i ==> ExpStr[k] == str[k]
    {
      i := i + 1;
    }
    var strOk := i == 3;
    var manId := PromWord(prom[CARR_MANID], signedChar);
    var modelNum := PromWord(prom[CARR_MODID], signedChar);
    ok := strOk && manId == MANUFACTURER_HYTEC && modelNum == HYTEC_PROM_MODEL;
  }

  // ------------------------------------------------------ address geometry

  const IP_MEM_SIZE: int := 0x100
  const ONEMB: bv32 := 0x10_0000
  /** (void *) -1: a cache entry that was never registered. */
  const UNSET: bv32 := 0xFFFF_FFFF

  /** The carrier settings baseAddr works from. */
  datatype Geometry = Geometry(vmeSlot: bv32, ipMem: int, isGeoMem: bool,
                               ab32: bool, cd32: bool, memBase: bv16)

  /** The A16 I/O window of an IP slot. */
  function IoBase(vme: bv32, slot: bv32): bv32 {
    (vme << 11) + (slot << 8)
  }

  /** The A16 window of the carrier's own registers and PROM. */
  function CarrierBase(vme: bv32): bv32 {
    (vme << 11) + (1 << 10)
  }

  /**
   * The A32 memory base of an IP slot: geographic addressing from the VME
   * slot, or the memory base register. 4 MB geographic gives 0, which the
   * driver then does not register.
   */
  function MemWindowBase(g: Geometry, slot: bv32): bv32 {
    if g.isGeoMem then
      if g.ipMem == 1 then (g.vmeSlot << 22) | (slot << 20)
      else if g.ipMem == 2 then (g.vmeSlot << 23) | (slot << 21)
      else if g.ipMem == 8 then (g.vmeSlot << 27) | (slot << 23)
      else 0
    else
      var b := (g.memBase as bv32) << 16;
      if g.ipMem == 1 then b | (slot << 20)
      else if g.ipMem == 2 then b | (slot << 21)
      else if g.ipMem == 4 then b | (slot << 22)
      else if g.ipMem == 8 then b | (slot << 23)
      else b
  }

  /** The geographic bases combine with '|' bits that do not overlap, so '|' is '+'. */
  lemma GeoOrIsAdd(vme: bv32, slot: bv32)
    requires vme <= 21 && slot < 4
    ensures (vme << 22) | (slot << 20) == (vme << 22) + (slot << 20)
    ensures (vme << 23) | (slot << 21) == (vme << 23) + (slot << 21)
    ensures (vme << 27) | (slot << 23) == (vme << 27) + (slot << 23)
  {
  }

  /**
   * In geographic mode every (VME slot, IP slot) pair gets its own window of
   * ipMem MB: the windows of two different pairs do not overlap.
   */
  lemma GeoWindowsDisjoint(g: Geometry, v1: bv32, s1: bv32, v2: bv32, s2: bv32)
    requires g.isGeoMem && g.ipMem in {1, 2, 8}
    requires v1 <= 21 && v2 <= 21 && s1 < 4 && s2 < 4 && (v1, s1) != (v2, s2)
    ensures var size := (g.ipMem as bv32) * ONEMB;
      var b1 := MemWindowBase(g.(vmeSlot := v1), s1);
      var b2 := MemWindowBase(g.(vmeSlot := v2), s2);
      b1 <= 0xFFFF_FFFF - size && b2 <= 0xFFFF_FFFF - size &&
      (b1 + size <= b2 || b2 + size <= b1)
  {
    GeoOrIsAdd(v1, s1);
    GeoOrIsAdd(v2, s2);
  }

  /**
   * The A16 windows of the IP slots of all carriers, and of the carriers'
   * own registers, do not overlap.
   */
  lemma A16WindowsDisjoint(v1: bv32, s1: bv32, v2: bv32, s2: bv32)
    requires v1 <= 21 && v2 <= 21 && s1 < 4 && s2 < 4
    ensures (v1, s1) != (v2, s2) ==>
      IoBase(v1, s1) + 0x100 <= IoBase(v2, s2) || IoBase(v2, s2) + 0x100 <= IoBase(v1, s1)
    ensures IoBase(v1, s1) + 0x100 <= CarrierBase(v2) || CarrierBase(v2) + 0xA0 <= IoBase(v1, s1)
  {
  }

  /**
   * In register mode the slot bits lie below the low bit the memory base
   * word can have, so '|' is '+' and the four slots follow each other.
   */
  lemma RegModeIsAdd(memOffs: int, ipMem: int, slot: bv32)
    requires 0 <= memOffs < MemOffsLimit && ipMem in {1, 2, 4, 8} && slot < 4
    ensures var g := Geometry(0, ipMem, false, false, false, MemBaseWord(memOffs, ipMem));
      MemWindowBase(g, slot) == ((g.memBase as bv32) << 16) + slot * (ipMem as bv32) * ONEMB
  {
    var w := MemBaseWord(memOffs, ipMem);
    assert w & ((64 << MemShift(ipMem)) - 1) == 0;
  }

  // ---------------------------------------------------------- window cache

  /** The iobases and membases arrays of a carrier. */
  datatype Cache = Cache(io: seq<bv32>, mem: seq<bv32>)

  predicate CacheShape(c: Cache) { |c.io| == 4 && |c.mem| == 4 }

  /** What one baseAddr call returns, leaves in the cache, and registers. */
  datatype Lookup = Lookup(addr: bv32, cache: Cache, requested: seq<Request>)

  /** baseAddr, with devRegisterAddress given as register. */
  function BaseAddrSpec(g: Geometry, c: Cache, slot: nat, space: AddrSpace,
                        register: Request -> Mapping): Lookup
    requires CacheShape(c) && slot < 4
  {
    if (g.ab32 && slot == 1) || (g.cd32 && slot == 3) then Lookup(0, c, [])
    else if space == ID || space == IO then IoLookup(g, c, slot, space == ID, register)
    else MemLookup(g, c, slot, if space == Mem then ONEMB as int else 2 * ONEMB as int, register)
  }

  /** The ID and I/O spaces: one A16 window per slot, off bytes in. */
  function IoLookup(g: Geometry, c: Cache, slot: nat, id: bool, register: Request -> Mapping): Lookup
    requires CacheShape(c) && slot < 4
  {
    var r := IoWindowLookup(g, c, slot, register);
    if id then r.(addr := AddrAdd(r.addr, 0x80)) else r
  }

  /** The slot's A16 window: registered on first use, then taken from the cache. */
  function IoWindowLookup(g: Geometry, c: Cache, slot: nat, register: Request -> Mapping): Lookup
    requires CacheShape(c) && slot < 4
  {
    if c.io[slot] == UNSET then
      var req := Request(A16, IoBase(g.vmeSlot, slot as bv32), IP_MEM_SIZE);
      var a := register(req).addr;
      Lookup(a, c.(io := c.io[slot := a]), [req])
    else Lookup(c.io[slot], c, [])
  }

  /**
   * The memory and 32-bit I/O spaces share one cache entry; a zero base is
   * not registered and caches NULL.
   */
  function MemLookup(g: Geometry, c: Cache, slot: nat, size: int, register: Request -> Mapping): Lookup
    requires CacheShape(c) && slot < 4
  {
    if c.mem[slot] == UNSET then
      var base := MemWindowBase(g, slot as bv32);
      if base != 0 then
        var req := Request(A32, base, size);
        var a := register(req).addr;
        Lookup(a, c.(mem := c.mem[slot := a]), [req])
      else Lookup(0, c.(mem := c.mem[slot := 0]), [])
    else Lookup(c.mem[slot], c, [])
  }

  /**
   * A second call for the same slot and space answers from the cache: the
   * same address, no change and no registration, whatever devLib would do,
   * unless the first registration left the sentinel -1 behind.
   */
  lemma BaseAddrIdempotent(g: Geometry, c: Cache, slot: nat, space: AddrSpace,
                           first: Request -> Mapping, second: Request -> Mapping)
    requires CacheShape(c) && slot < 4
    requires forall k :: 0 <= k < |BaseAddrSpec(g, c, slot, space, first).requested| ==>
      first(BaseAddrSpec(g, c, slot, space, first).requested[k]).addr != UNSET
    ensures var r := BaseAddrSpec(g, c, slot, space, first);
      CacheShape(r.cache) && BaseAddrSpec(g, r.cache, slot, space, second) == Lookup(r.addr, r.cache, [])
  {
    var r := BaseAddrSpec(g, c, slot, space, first);
    if |r.requested| == 1 {
      assert first(r.requested[0]).addr != UNSET;
    }
  }

  /** The slot a double-wide module covers gets NULL and nothing is registered. */
  lemma DoubleWideSlotExcluded(g: Geometry, c: Cache, slot: nat, space: AddrSpace,
                               register: Request -> Mapping)
    requires CacheShape(c) && slot < 4
    requires (g.ab32 && slot == 1) || (g.cd32 && slot == 3)
    ensures BaseAddrSpec(g, c, slot, space, register) == Lookup(0, c, [])
  {
  }

  /** The ID space is the I/O space plus 0x80, through the same cache entry. */
  lemma IdFollowsIo(g: Geometry, c: Cache, slot: nat, register: Request -> Mapping)
    requires CacheShape(c) && slot < 4
    requires !((g.ab32 && slot == 1) || (g.cd32 && slot == 3))
    ensures var id := BaseAddrSpec(g, c, slot, ID, register);
      var io := BaseAddrSpec(g, c, slot, IO, register);
      id.addr == AddrAdd(io.addr, 0x80) && id.cache == io.cache && id.requested == io.requested
  {
    assert BaseAddrSpec(g, c, slot, ID, register) == IoLookup(g, c, slot, true, register);
    assert BaseAddrSpec(g, c, slot, IO, register) == IoLookup(g, c, slot, false, register);
  }

  // --------------------------------------------------- interrupt commands

  /** The two words irqCmd keeps in step with the board. */
  datatype Mirror = Mirror(csrcb: bv16, ipIntSel: bv16)

  /** What one irqCmd does: the new mirror, the reply, and whether to write the board. */
  datatype IrqOutcome = IrqOutcome(mirror: Mirror, reply: IrqReply, dump: bool)

  /** 1 << slot for an IP slot, written out case by case. */
  function SlotBit(slot: nat): bv16
    requires slot < 4
  {
    if slot == 0 then 0x1 else if slot == 1 then 0x2 else if slot == 2 then 0x4 else 0x8
  }

  /** The interrupt select bit of an IP slot's line: slot for line 0, slot + 4 for line 1. */
  function SelectBit(slot: nat, irq: nat): bv16
    requires slot < 4 && irq < 2
  {
    if irq == 0 then SlotBit(slot) else SlotBit(slot) << 4
  }

  /** The two status bits of an IP slot, one per interrupt line. */
  function PollMask(slot: nat): bv16
    requires slot < 4
  {
    SelectBit(slot, 1) | SelectBit(slot, 0)
  }

  /** irqCmd; ipStat is what the carrier's status register reads for Poll. */
  function IrqStep(m: Mirror, intLevel: int, slot: nat, irq: nat, cmd: IrqCmd, ipStat: bv16): (r: IrqOutcome)
    ensures r.dump <==> irq < 2 && slot < 4 && (cmd.Enable? || cmd.Disable?)
    ensures !r.dump ==> r.mirror == m
    ensures r.mirror.ipIntSel & m.ipIntSel == m.ipIntSel
  {
    if irq != 0 && irq != 1 then IrqOutcome(m, Code(NotImplemented), false)
    else if slot > 3 then IrqOutcome(m, Code(BadAddress), false)
    else match cmd
      case GetLevel => IrqOutcome(m, Value(intLevel), false)
      case Enable =>
        IrqOutcome(Mirror(SetBits16(m.csrcb, CSR_INTR_ENB), SetBits16(m.ipIntSel, SelectBit(slot, irq))), Code(OK), true)
      case Disable => IrqOutcome(m.(csrcb := ClearBits16(m.csrcb, CSR_INTR_ENB)), Code(OK), true)
      case Poll =>
        IrqOutcome(m, Value((ipStat & PollMask(slot)) as int), false)
      case _ => IrqOutcome(m, Code(NotImplemented), false)
  }

  /**
   * Enable turns on the carrier's interrupts and the select bit of exactly
   * this slot and line; the other select bits keep their values.
   */
  lemma EnableSelectsOneLine(m: Mirror, intLevel: int, slot: nat, irq: nat, ipStat: bv16)
    requires slot < 4 && irq < 2
    ensures var o := IrqStep(m, intLevel, slot, irq, Enable, ipStat);
      o.reply == Code(OK) && o.dump &&
      DecodeCsr(o.mirror.csrcb) == DecodeCsr(m.csrcb).(intEnable := true) &&
      o.mirror.ipIntSel & SelectBit(slot, irq) != 0 &&
      o.mirror.ipIntSel & !SelectBit(slot, irq) == m.ipIntSel & !SelectBit(slot, irq)
  {
    CsrIntEnableOnly(m.csrcb);
  }

  /**
   * Disable only turns off the carrier-wide enable: the select bits, and so
   * the other slots' choices, stay as they were.
   */
  lemma DisableKeepsSelects(m: Mirror, intLevel: int, slot: nat, irq: nat, ipStat: bv16)
    requires slot < 4 && irq < 2
    ensures var o := IrqStep(m, intLevel, slot, irq, Disable, ipStat);
      o.reply == Code(OK) && o.dump && o.mirror.ipIntSel == m.ipIntSel &&
      DecodeCsr(o.mirror.csrcb) == DecodeCsr(m.csrcb).(intEnable := false)
  {
    CsrIntEnableOnly(m.csrcb);
  }

  /** Poll reports a slot as pending iff one of its two status bits is set. */
  lemma PollReadsOwnSlot(m: Mirror, intLevel: int, slot: nat, irq: nat, ipStat: bv16)
    requires slot < 4 && irq < 2
    ensures var o := IrqStep(m, intLevel, slot, irq, Poll, ipStat);
      o.mirror == m && !o.dump && o.reply.Value? &&
      (o.reply.value != 0 <==> ipStat & SelectBit(slot, 0) != 0 || ipStat & SelectBit(slot, 1) != 0)
  {
  }

  /** Bad arguments and the unsupported commands change nothing and write nothing. */
  lemma OnlyEnableDisableWrite(m: Mirror, intLevel: int, slot: nat, irq: nat, cmd: IrqCmd, ipStat: bv16)
    ensures var o := IrqStep(m, intLevel, slot, irq, cmd, ipStat);
      o.dump <==> irq < 2 && slot < 4 && (cmd == Enable || cmd == Disable)
    ensures var o := IrqStep(m, intLevel, slot, irq, cmd, ipStat);
      !o.dump ==> o.mirror == m
    ensures irq >= 2 ==> IrqStep(m, intLevel, slot, irq, cmd, ipStat).reply == Code(NotImplemented)
    ensures irq < 2 && slot > 3 ==> IrqStep(m, intLevel, slot, irq, cmd, ipStat).reply == Code(BadAddress)
  {
  }

  // ------------------------------------------------------------ the board

  /** The carrier registers HWdump writes. */
  datatype Board = Board(memBase: bv16, csr: bv16, intSel: bv16, hotSwap: bv16)

  /**
   * The board after HWdump writes v with devWriteProbe, in the order
   * membase, CSR, interrupt select, hot-swap vector, when only the first
   * `written` probes succeed.
   */
  function Dumped(b: Board, v: Board, written: nat): (r: Board)
    ensures written >= 4 ==> r == v
    ensures written == 0 ==> r == b
  {
    Board(if written >= 1 then v.memBase else b.memBase,
          if written >= 2 then v.csr else b.csr,
          if written >= 3 then v.intSel else b.intSel,
          if written >= 4 then v.hotSwap else b.hotSwap)
  }

  /** One carrier: the driver's PrivateInfo with the board it drives. */
  class Carrier {
    const vmeSlot: int
    const intLevel: int
    const hsIntNum: int
    const carBase: bv32
    const ipMemMode: int
    const isGeoMem: bool
    const ab32Mode: bool
    const cd32Mode: bool
    const memOffs: int
    const memBase: bv16
    const ioBases: array<bv32>
    const memBases: array<bv32>
    var csrcb: bv16
    var ipIntSel: bv16
    var carrInt: bv16
    var isPresent: bool
    /** The carrier's registers. */
    var board: Board
    /** The devRegisterAddress calls made so far. */
    var requests: seq<Request>

    predicate Valid() {
      ioBases.Length == 4 && memBases.Length == 4 && ioBases != memBases &&
      0 <= vmeSlot <= 21 && ipMemMode in {1, 2, 4, 8}
    }

    function Geo(): Geometry
      requires Valid()
    {
      Geometry(vmeSlot as bv32, ipMemMode, isGeoMem, ab32Mode, cd32Mode, memBase)
    }

    function CacheOf(): (c: Cache)
      reads this, ioBases, memBases
      ensures |c.io| == ioBases.Length && |c.mem| == memBases.Length
    {
      Cache(ioBases[..], memBases[..])
    }

    function MirrorOf(): Mirror
      reads this
    {
      Mirror(csrcb, ipIntSel)
    }

    /** The register values the driver holds for the board. */
    function Shadow(): Board
      reads this
    {
      Board(memBase, csrcb, ipIntSel, carrInt)
    }

    /** The carrier as initialise leaves it for a parsed, admitted configuration. */
    constructor (p: Params, base: bv32, hw: Board, probes: nat)
      requires ValidParams(p) && Admitted(p)
      ensures Valid() && fresh(ioBases) && fresh(memBases)
      ensures vmeSlot == p.vmeSlot && intLevel == p.intLevel && hsIntNum == p.hsIntNum
      ensures carBase == base && ipMemMode == p.ipMem && isGeoMem == !p.doMemReg
      ensures ab32Mode == p.ab32 && cd32Mode == p.cd32 && memOffs == p.memOffs
      ensures memBase == MemBaseWord(p.memOffs, p.ipMem)
      ensures csrcb == Csr(p) && ipIntSel == 0 && carrInt == p.hsIntNum as bv16
      ensures forall k :: 0 <= k < 4 ==> ioBases[k] == UNSET && memBases[k] == UNSET
      ensures board == Dumped(hw, Shadow(), probes) && isPresent == (probes >= 4)
      ensures requests == []
    {
      vmeSlot := p.vmeSlot;
      intLevel := p.intLevel;
      hsIntNum := p.hsIntNum;
      carBase := base;
      ipMemMode := p.ipMem;
      isGeoMem := !p.doMemReg;
      ab32Mode := p.ab32;
      cd32Mode := p.cd32;
      memOffs := p.memOffs;
      memBase := MemBaseWord(p.memOffs, p.ipMem);
      csrcb := Csr(p);
      ipIntSel := 0;
      carrInt := p.hsIntNum as bv16;
      ioBases := new bv32[4](_ => UNSET);
      memBases := new bv32[4](_ => UNSET);
      requests := [];
      new;
      isPresent := true;
      board := hw;
      HWdump(probes);
    }

    /**
     * HWdump: write the shadow registers to the board; the first write that
     * fails (after `probes` successes) marks the carrier as absent.
     */
    method HWdump(probes: nat)
      modifies this`board, this`isPresent
      ensures board == Dumped(old(board), Shadow(), probes)
      ensures isPresent == (old(isPresent) && probes >= 4)
    {
      if probes < 1 {
        isPresent := false;
        return;
      }
      board := board.(memBase := memBase);
      if probes < 2 {
        isPresent := false;
        return;
      }
      board := board.(csr := csrcb);
      if probes < 3 {
        isPresent := false;
        return;
      }
      board := board.(intSel := ipIntSel);
      if probes < 4 {
        isPresent := false;
        return;
      }
      board := board.(hotSwap := carrInt);
    }

    /** baseAddr: the cached window of an IP slot, registered on first use. */
    method BaseAddr(slot: nat, space: AddrSpace, register: Request -> Mapping) returns (addr: bv32)
      requires Valid() && slot < 4
      modifies ioBases, memBases, this`requests
      ensures var r := BaseAddrSpec(Geo(), old(CacheOf()), slot, space, register);
        addr == r.addr && CacheOf() == r.cache && requests == old(requests) + r.requested
    {
      if (ab32Mode && slot == 1) || (cd32Mode && slot == 3) {
        return 0;
      }
      match space
      case ID =>
        addr := IoAddr(slot, true, register);
      case IO =>
        addr := IoAddr(slot, false, register);
      case Mem =>
        addr := MemAddr(slot, ONEMB as int, register);
      case IO32 =>
        addr := MemAddr(slot, 2 * ONEMB as int, register);
    }

    /** The ID and I/O arm of baseAddr; the ID space is 0x80 above the I/O space. */
    method IoAddr(slot: nat, id: bool, register: Request -> Mapping) returns (addr: bv32)
      requires Valid() && slot < 4
      modifies ioBases, this`requests
      ensures var r := IoLookup(Geo(), old(CacheOf()), slot, id, register);
        addr == r.addr && CacheOf() == r.cache && requests == old(requests) + r.requested
    {
      if ioBases[slot] == UNSET {
        var req := Request(A16, IoBase(Geo().vmeSlot, slot as bv32), IP_MEM_SIZE);
        var tempVal := register(req).addr;
        requests := requests + [req];
        ioBases[slot] := tempVal;
        assert ioBases[..] == old(ioBases[..])[slot := tempVal];
        addr := tempVal;
      } else {
        addr := ioBases[slot];
      }
      if id {
        addr := AddrAdd(addr, 0x80);
      }
    }

    /** The memory and 32-bit I/O arm of baseAddr; size is what gets registered. */
    method MemAddr(slot: nat, size: int, register: Request -> Mapping) returns (addr: bv32)
      requires Valid() && slot < 4
      modifies memBases, this`requests
      ensures var r := MemLookup(Geo(), old(CacheOf()), slot, size, register);
        addr == r.addr && CacheOf() == r.cache && requests == old(requests) + r.requested
    {
      addr := 0;
      if memBases[slot] == UNSET {
        var base := MemWindowBase(Geo(), slot as bv32);
        if base != 0 {
          var req := Request(A32, base, size);
          var tempVal := register(req).addr;
          requests := requests + [req];
          addr := tempVal;
        }
        memBases[slot] := addr;
        assert memBases[..] == old(memBases[..])[slot := addr];
      } else {
        addr := memBases[slot];
      }
    }

    /**
     * irqCmd: update the mirror and, for Enable and Disable, write it to a
     * board that is still present.
     */
    method IrqCmd(slot: nat, irq: nat, cmd: IrqCmd, ipStat: bv16, probes: nat) returns (reply: IrqReply)
      modifies this`csrcb, this`ipIntSel, this`board, this`isPresent
      ensures var o := IrqStep(old(MirrorOf()), intLevel, slot, irq, cmd, ipStat);
        reply == o.reply && MirrorOf() == o.mirror &&
        if o.dump && old(isPresent)
        then board == Dumped(old(board), Shadow(), probes) && isPresent == (probes >= 4)
        else board == old(board) && isPresent == old(isPresent)
    {
      if irq != 0 && irq != 1 {
        return Code(NotImplemented);
      }
      if slot > 3 {
        return Code(BadAddress);
      }
      var dodump := false;
      reply := Code(NotImplemented);
      match cmd {
        case GetLevel =>
          reply := Value(intLevel);
        case Enable =>
          ipIntSel := SetBits16(ipIntSel, SelectBit(slot, irq));
          csrcb := SetBits16(csrcb, CSR_INTR_ENB);
          dodump := true;
          reply := Code(OK);
        case Disable =>
          csrcb := ClearBits16(csrcb, CSR_INTR_ENB);
          dodump := true;
          reply := Code(OK);
        case Poll =>
          reply := Value((ipStat & PollMask(slot)) as int);
        case _ =>
      }
      if dodump && isPresent {
        HWdump(probes);
      }
    }
  }

  /** The A16 window initialise maps for the carrier's registers and PROM. */
  function CarrierRequest(p: Params): Request
    requires ValidParams(p)
  {
    Request(A16, CarrierBase(p.vmeSlot as bv32), VME_MEM_SIZE)
  }

  /**
   * initialise: parse the string, map and check the carrier's PROM, compute
   * the CSR and membase, reject the unsupported layouts, and create the
   * carrier. registerA16 stands for devRegisterAddress, prom for what the
   * PROM reads through the mapped window, hw and probes for the board
   * before HWdump and how many of HWdump's writes succeed. copyOk and
   * allocOk say whether the two callocs succeed: scanparm's copy of the
   * string, and the PrivateInfo allocated after the PROM check.
   */
  method Initialise(s: string, copyOk: bool, registerA16: Request -> Mapping, prom: seq<bv8>, signedChar: bool,
                    allocOk: bool, hw: Board, probes: nat) returns (status: Status, c: Carrier?)
    requires |prom| == VME_MEM_SIZE
    ensures status == OK <==> c != null
    ensures Parse(s).None? || !copyOk ==> status == BadAddress
    ensures status == OK <==>
      copyOk && Parse(s).Some? && ValidParams(Parse(s).value) && Admitted(Parse(s).value) &&
      registerA16(CarrierRequest(Parse(s).value)).ok && PromOk(prom) && allocOk
    ensures copyOk && Parse(s).Some? && ValidParams(Parse(s).value) &&
            registerA16(CarrierRequest(Parse(s).value)).ok && PromOk(prom) && !allocOk
            ==> status == Failed
    ensures c != null ==>
      Parse(s).Some? && ValidParams(Parse(s).value) &&
      fresh(c) && c.Valid() && c.vmeSlot == Parse(s).value.vmeSlot && c.csrcb == Csr(Parse(s).value) &&
      c.carBase == registerA16(CarrierRequest(Parse(s).value)).addr
  {
    c := null;
    var parsed := ScanParm(s, copyOk);
    if parsed.None? {
      return BadAddress, null;
    }
    var p := parsed.value;
    ParseValid(s);
    var mapped := registerA16(CarrierRequest(p));
    if !mapped.ok {
      return Failed, null;
    }
    var promOk := CheckProm(prom, signedChar);
    if !promOk {
      return Failed, null;
    }
    if !allocOk {
      return Failed, null;
    }
    if p.ipMem == 2 && p.vmeSlot > 15 {
      return Failed, null;
    }
    if p.ipMem == 4 && !p.doMemReg {
      return Failed, null;
    }
    c := new Carrier(p, mapped.addr, hw, probes);
    status := OK;
  }
}
