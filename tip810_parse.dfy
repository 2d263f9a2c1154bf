/*
 * canIoParse: the CAN hardware address of an EPICS record,
 *
 *     busname[/timeout]:id[+n]...[.offset] parameter
 *
 * for example "CAN1/20:0126+4+1.4 0xfff". The numbers are read with
 * strtol/strtoul in base 0. The scanner walks a character pointer through
 * the string; the model walks an index, and reading at the end of the
 * string gives the terminating NUL, as the C code sees it.
 */
module Tip810Parse {
  import opened IpacBase
  import opened Lexer
  import opened Tip810Frame
  import opened Tip810Device

  /** canIo_t: the parsed address. timeout is in milliseconds, -1 for "wait forever". */
  datatype CanIo = CanIo(busName: string, timeout: int, identifier: int, offset: int,
                         parameter: int, paramStr: string)

  /** identifier and offset are unsigned shorts. */
  const U16 := 0x10000

  /** A C string: no NUL before its end. */
  predicate CString(s: string) {
    forall i :: 0 <= i < |s| ==> s[i] != '\0'
  }

  /** The character at i, or the terminating NUL at and past the end. */
  function At(s: string, i: nat): char {
    if i < |s| then s[i] else '\0'
  }

  /** The first alphanumeric character at or after i; None when the string ends first. */
  function NameStart(s: string, i: nat): (r: Option<nat>)
    requires i <= |s|
    ensures r.Some? ==> i <= r.value < |s| && IsAlnum(s[r.value])
    ensures r.Some? ==> forall k :: i <= k < r.value ==> !IsAlnum(s[k])
    decreases |s| - i
  {
    if i == |s| then None
    else if IsAlnum(s[i]) then Some(i)
    else NameStart(s, i + 1)
  }

  /** strpbrk(s + i, "/:"), as an index. */
  function SepFrom(s: string, i: nat): (r: Option<nat>)
    requires i <= |s|
    ensures r.Some? ==> i <= r.value < |s| && (s[r.value] == '/' || s[r.value] == ':')
    ensures r.Some? ==> forall k :: i <= k < r.value ==> s[k] != '/' && s[k] != ':'
    ensures r.None? ==> forall k :: i <= k < |s| ==> s[k] != '/' && s[k] != ':'
    decreases |s| - i
  {
    if i == |s| then None
    else if s[i] == '/' || s[i] == ':' then Some(i)
    else SepFrom(s, i + 1)
  }

  /** strtol(s + p, &end, 0): the value and the absolute index end points at. */
  function NumberAt(s: string, p: nat): (r: Scan)
    requires p <= |s|
    ensures p <= r.next <= |s|
  {
    var sc := StrToL(s[p..]);
    Scan(sc.value, p + sc.next)
  }

  /**
   * The '/' timeout part. j is the index of the separator after the bus
   * name; the result is the timeout and the index of the next separator.
   */
  function TimeoutPart(s: string, j: nat): (r: (int, nat))
    requires j < |s|
    ensures j <= r.1 <= |s|
  {
    if s[j] == '/' then
      var sc := NumberAt(s, j + 1);
      (sc.value, sc.next)
    else (-1, j)
  }

  /**
   * The '+' terms: while the separator at q is '+', add the number after
   * it to the identifier, which stays an unsigned short. The result is the
   * identifier and the index of the first other separator.
   */
  function PlusTerms(s: string, q: nat, id: int): (r: (int, nat))
    requires q <= |s| && 0 <= id < U16
    ensures q <= r.1 <= |s| && 0 <= r.0 < U16
    ensures At(s, r.1) != '+'
    decreases |s| - q
  {
    if At(s, q) == '+' then
      var sc := NumberAt(s, q + 1);
      PlusTerms(s, sc.next, (id + sc.value) % U16)
    else (id, q)
  }

  /**
   * The optional '.' offset at separator q: the offset (0 when absent) and
   * the index of the next separator, or None when the offset is not below
   * CAN_DATA_SIZE.
   */
  function OffsetPart(s: string, q: nat): (r: Option<(int, nat)>)
    requires q <= |s|
    ensures r.Some? ==> 0 <= r.value.0 < CAN_DATA_SIZE && q <= r.value.1 <= |s|
  {
    if At(s, q) == '.' then
      var sc := NumberAt(s, q + 1);
      var offset := sc.value % U16;
      if offset >= CAN_DATA_SIZE then None else Some((offset, sc.next))
    else Some((0, q))
  }

  /** The syntax of a CAN address: the parsed fields, or None for S_can_badAddress. */
  function ParseAddress(s: string): (r: Option<CanIo>)
    ensures r.Some? ==> 0 <= r.value.identifier < U16 && 0 <= r.value.offset < CAN_DATA_SIZE
  {
    match NameStart(s, 0)
    case None => None
    case Some(i) =>
      match SepFrom(s, i)
      case None => None
      case Some(j) =>
        var tp := TimeoutPart(s, j);
        IdPart(s, s[i..j], tp.0, tp.1)
  }

  /** From the separator q that must be ':': the identifier and its '+' terms. */
  function IdPart(s: string, name: string, timeout: int, q: nat): (r: Option<CanIo>)
    requires q <= |s|
    ensures r.Some? ==> 0 <= r.value.identifier < U16 && 0 <= r.value.offset < CAN_DATA_SIZE
  {
    if At(s, q) != ':' then None
    else
      var first := NumberAt(s, q + 1);
      var terms := PlusTerms(s, first.next, first.value % U16);
      OffsetTail(s, name, timeout, terms.0, terms.1)
  }

  /** IdPart at a ':' goes on to the offset after the '+' terms. */
  lemma IdPartColon(s: string, name: string, timeout: int, q: nat)
    requires q <= |s| && At(s, q) == ':'
    ensures var first := NumberAt(s, q + 1);
            var terms := PlusTerms(s, first.next, first.value % U16);
            IdPart(s, name, timeout, q) == OffsetTail(s, name, timeout, terms.0, terms.1)
  {
  }

  /** From the separator q2 after the identifier: the optional offset, then the parameter. */
  function OffsetTail(s: string, name: string, timeout: int, id: int, q2: nat): (r: Option<CanIo>)
    requires q2 <= |s| && 0 <= id < U16
    ensures r.Some? ==> 0 <= r.value.identifier < U16 && 0 <= r.value.offset < CAN_DATA_SIZE
  {
    match OffsetPart(s, q2)
    case None => None
    case Some((offset, q3)) => ParamPart(s, name, timeout, id, offset, q3)
  }

  /** From the separator q3 that must be white space: the parameter and the text after it. */
  function ParamPart(s: string, name: string, timeout: int, id: int, offset: int, q3: nat): (r: Option<CanIo>)
    requires q3 <= |s|
    ensures r.Some? ==> r.value == CanIo(name, timeout, id, offset, r.value.parameter, r.value.paramStr)
  {
    if At(s, q3) != ' ' && At(s, q3) != '\t' then None
    else
      var param := NumberAt(s, q3 + 1);
      Some(CanIo(name, timeout, id, offset, param.value, s[param.next..]))
  }

  /** A bus name the parser delimits: it starts alphanumeric and holds no separator. */
  predicate BusNameOk(name: string) {
    name != [] && IsAlnum(name[0]) &&
    forall k :: 0 <= k < |name| ==> name[k] != '/' && name[k] != ':' && name[k] != '\0'
  }

  /** Every bus name the parser returns is one it can delimit again. */
  lemma ParsedNameOk(s: string)
    requires CString(s) && ParseAddress(s).Some?
    ensures BusNameOk(ParseAddress(s).value.busName)
  {
    var i := NameStart(s, 0).value;
    var j := SepFrom(s, i).value;
    assert i != j by { assert IsAlnum(s[i]); }
    var name := s[i..j];
    assert name[0] == s[i];
    forall k | 0 <= k < |name| ensures name[k] != '/' && name[k] != ':' && name[k] != '\0' {
      assert name[k] == s[i + k];
    }
  }

  // ---------------------------------------------------------------------
  // Reading back a rendered address
  // ---------------------------------------------------------------------

  /** The address a record would hold for io, with the timeout only when it is not -1. */
  function Render(io: CanIo): string
    requires io.timeout >= -1 && io.identifier >= 0 && io.offset >= 0 && io.parameter >= 0
  {
    io.busName + (TimeoutText(io.timeout) + IdText(io))
  }

  function TimeoutText(timeout: int): string
    requires timeout >= -1
  {
    if timeout == -1 then "" else "/" + Decimal(timeout)
  }

  function IdText(io: CanIo): string
    requires io.identifier >= 0 && io.offset >= 0 && io.parameter >= 0
  {
    ":" + (Decimal(io.identifier) + OffsetText(io))
  }

  function OffsetText(io: CanIo): string
    requires io.offset >= 0 && io.parameter >= 0
  {
    "." + (Decimal(io.offset) + ParamText(io))
  }

  function ParamText(io: CanIo): string
    requires io.parameter >= 0
  {
    " " + Decimal(io.parameter)
  }

  /** The addresses Render writes and ParseAddress reads back. */
  predicate Renderable(io: CanIo) {
    BusNameOk(io.busName) && io.timeout >= -1 && 0 <= io.identifier < U16 &&
    0 <= io.offset < CAN_DATA_SIZE && io.parameter >= 0 && io.paramStr == ""
  }

  /** A separator, then a number, then text that does not continue the number. */
  lemma Step(s: string, k: nat, c: char, n: nat, rest: string)
    requires k < |s| && s[k..] == [c] + (Decimal(n) + rest)
    requires rest == [] || !IsAlnum(rest[0])
    ensures s[k] == c && At(s, k) == c
    ensures NumberAt(s, k + 1) == Scan(n, k + 1 + |Decimal(n)|)
    ensures s[k + 1 + |Decimal(n)|..] == rest
  {
    assert s[k] == s[k..][0];
    assert s[k + 1..] == s[k..][1..];
    ScanIntDecimal(n, rest);
    assert s[k + 1 + |Decimal(n)|..] == (Decimal(n) + rest)[|Decimal(n)|..];
  }

  /** The bus name is found at the start and ends at the first separator. */
  lemma NameAtStart(name: string, rest: string)
    requires BusNameOk(name) && rest != [] && (rest[0] == '/' || rest[0] == ':')
    ensures NameStart(name + rest, 0) == Some(0)
    ensures SepFrom(name + rest, 0) == Some(|name|)
    ensures (name + rest)[0..|name|] == name && (name + rest)[|name|..] == rest
  {
    var s := name + rest;
    assert s[0] == name[0];
    SepAfter(s, name, 0);
  }

  lemma {:induction false} SepAfter(s: string, name: string, i: nat)
    requires i <= |name| < |s| && s[..|name|] == name && (s[|name|] == '/' || s[|name|] == ':')
    requires forall k :: 0 <= k < |name| ==> name[k] != '/' && name[k] != ':'
    ensures SepFrom(s, i) == Some(|name|)
    decreases |name| - i
  {
    if i < |name| {
      assert s[i] == name[i];
      SepAfter(s, name, i + 1);
    }
  }

  /**
   * Writing an address out and parsing it gives back every field: the
   * parser accepts what it documents and loses nothing.
   */
  lemma RoundTrip(io: CanIo)
    requires Renderable(io)
    ensures ParseAddress(Render(io)) == Some(io)
  {
    var s := Render(io);
    var name := io.busName;
    NameAtStart(name, TimeoutText(io.timeout) + IdText(io));
    var q := TimeoutBack(s, |name|, io.timeout, IdText(io));
    assert ParseAddress(s) == IdPart(s, name, io.timeout, q);
    var q2 := IdBack(s, q, io.identifier, OffsetText(io));
    assert IdPart(s, name, io.timeout, q) == OffsetTail(s, name, io.timeout, io.identifier, q2);
    var q3 := OffsetBack(s, q2, io.offset, ParamText(io));
    assert OffsetTail(s, name, io.timeout, io.identifier, q2) == ParamPart(s, name, io.timeout, io.identifier, io.offset, q3);
    ParamBack(s, q3, io);
  }

  /** The white space and the parameter that end a rendered address. */
  lemma ParamBack(s: string, q3: nat, io: CanIo)
    requires Renderable(io) && q3 < |s| && s[q3..] == ParamText(io)
    ensures ParamPart(s, io.busName, io.timeout, io.identifier, io.offset, q3) == Some(io)
  {
    assert ParamText(io) == " " + (Decimal(io.parameter) + []);
    Step(s, q3, ' ', io.parameter, []);
  }

  /** The timeout part of a rendered address: nothing for -1, else '/' and the number. */
  lemma TimeoutBack(s: string, j: nat, timeout: int, rest: string) returns (q: nat)
    requires j < |s| && timeout >= -1 && rest != [] && rest[0] == ':'
    requires s[j..] == TimeoutText(timeout) + rest
    ensures q <= |s| && TimeoutPart(s, j) == (timeout, q) && s[q..] == rest
  {
    if timeout == -1 {
      q := NoTimeoutBack(s, j, rest);
    } else {
      q := SlashTimeoutBack(s, j, timeout, rest);
    }
  }

  lemma NoTimeoutBack(s: string, j: nat, rest: string) returns (q: nat)
    requires j < |s| && rest != [] && rest[0] == ':' && s[j..] == rest
    ensures q <= |s| && TimeoutPart(s, j) == (-1, q) && s[q..] == rest
  {
    assert s[j] == s[j..][0];
    q := j;
  }

  lemma SlashTimeoutBack(s: string, j: nat, timeout: nat, rest: string) returns (q: nat)
    requires j < |s| && rest != [] && rest[0] == ':'
    requires s[j..] == "/" + (Decimal(timeout) + rest)
    ensures q <= |s| && TimeoutPart(s, j) == (timeout, q) && s[q..] == rest
  {
    Step(s, j, '/', timeout, rest);
    q := j + 1 + |Decimal(timeout)|;
  }

  /** The ':' and the identifier of a rendered address, with no '+' terms after it. */
  lemma IdBack(s: string, q: nat, id: int, rest: string) returns (q2: nat)
    requires 0 <= id < U16 && q < |s| && s[q..] == ":" + (Decimal(id) + rest)
    requires rest != [] && rest[0] == '.'
    ensures q2 <= |s| && s[q2..] == rest
    ensures At(s, q) == ':' && NumberAt(s, q + 1).next == q2
    ensures PlusTerms(s, q2, NumberAt(s, q + 1).value % U16) == (id, q2)
  {
    Step(s, q, ':', id, rest);
    q2 := q + 1 + |Decimal(id)|;
    assert s[q2] == rest[0];
  }

  /** The '.' and the offset of a rendered address. */
  lemma OffsetBack(s: string, q2: nat, offset: int, rest: string) returns (q3: nat)
    requires 0 <= offset < CAN_DATA_SIZE && q2 < |s| && s[q2..] == "." + (Decimal(offset) + rest)
    requires rest != [] && rest[0] == ' '
    ensures q3 <= |s| && s[q3..] == rest
    ensures OffsetPart(s, q2) == Some((offset, q3))
  {
    Step(s, q2, '.', offset, rest);
    q3 := q2 + 1 + |Decimal(offset)|;
  }

  // ---------------------------------------------------------------------
  // The scanner
  // ---------------------------------------------------------------------

  /**
   * canIoParse's first loop: skip everything up to the first alphanumeric
   * character. The result is that character's index, or the end of the
   * string when there is none.
   */
  method SkipToName(s: string) returns (p: nat)
    requires CString(s)
    ensures p <= |s|
    ensures p < |s| <==> NameStart(s, 0).Some?
    ensures p < |s| ==> NameStart(s, 0) == Some(p)
  {
    p := 0;
    while !IsAlnum(At(s, p))
      invariant p <= |s| && NameStart(s, 0) == NameStart(s, p)
      decreases |s| - p
    {
      if At(s, p) == '\0' {
        return;
      }
      p := p + 1;
    }
  }

  /** strpbrk(s + name, "/:"): the index of the separator, or the end of the string. */
  method FindSeparator(s: string, name: nat) returns (p: nat)
    requires name <= |s|
    ensures name <= p <= |s|
    ensures p < |s| <==> SepFrom(s, name).Some?
    ensures p < |s| ==> SepFrom(s, name) == Some(p)
  {
    p := name;
    while p < |s| && s[p] != '/' && s[p] != ':'
      invariant name <= p <= |s| && SepFrom(s, name) == SepFrom(s, p)
      decreases |s| - p
    {
      p := p + 1;
    }
  }

  /**
   * The identifier after ':' at index p and the '+' terms that follow it.
   * The result is the identifier and the index of the first separator that
   * is not '+'.
   */
  method ScanIdentifier(s: string, p: nat) returns (identifier: int, q: nat)
    requires p <= |s|
    ensures (identifier, q) == PlusTerms(s, NumberAt(s, p).next, NumberAt(s, p).value % U16)
  {
    var sc := NumberAt(s, p);
    identifier := sc.value % U16;
    q := sc.next;
    ghost var first := (identifier, q);
    var separator := At(s, q);
    while separator == '+'
      invariant q <= |s| && separator == At(s, q) && 0 <= identifier < U16
      invariant PlusTerms(s, q, identifier) == PlusTerms(s, first.1, first.0)
      decreases |s| - q
    {
      identifier, q := PlusTerm(s, q, identifier);
      separator := At(s, q);
    }
  }

  /** One '+' term at separator q: the number after it is added to the identifier. */
  method PlusTerm(s: string, q: nat, id: int) returns (id2: int, q2: nat)
    requires q < |s| && At(s, q) == '+' && 0 <= id < U16
    ensures q < q2 <= |s| && 0 <= id2 < U16
    ensures PlusTerms(s, q2, id2) == PlusTerms(s, q, id)
  {
    var term := NumberAt(s, q + 1);
    id2 := (id + term.value) % U16;
    q2 := term.next;
  }

  /**
   * The bus name and the optional '/' timeout: the name, the timeout and
   * the index of the separator after them, or None when no name or no
   * separator is found.
   */
  method ScanHead(s: string) returns (r: Option<(string, int, nat)>)
    requires CString(s)
    ensures r.None? ==> ParseAddress(s).None?
    ensures r.Some? ==> r.value.2 <= |s| && ParseAddress(s) == IdPart(s, r.value.0, r.value.1, r.value.2)
  {
    var name := SkipToName(s);
    if name == |s| {
      return None;
    }
    var p := FindSeparator(s, name);
    if p == |s| {
      return None;
    }
    var busName := s[name..p];
    var timeout, q := ScanTimeout(s, p);
    return Some((busName, timeout, q));
  }

  /** The optional '/' timeout at separator j: -1 when absent. */
  method ScanTimeout(s: string, j: nat) returns (timeout: int, p: nat)
    requires j < |s|
    ensures p <= |s| && (timeout, p) == TimeoutPart(s, j)
  {
    timeout, p := -1, j;
    if s[j] == '/' {
      var sc := NumberAt(s, j + 1);
      timeout, p := sc.value, sc.next;
    }
  }

  /**
   * The rest of canIoParse's scan from the separator after the identifier:
   * an optional '.' offset below CAN_DATA_SIZE, then white space and the
   * parameter.
   */
  method ScanTail(s: string, busName: string, timeout: int, identifier: int, q: nat) returns (r: Option<CanIo>)
    requires q <= |s| && 0 <= identifier < U16
    ensures r == OffsetTail(s, busName, timeout, identifier, q)
  {
    var off := ScanOffset(s, q);
    if off.None? {
      return None;
    }
    r := ScanParameter(s, busName, timeout, identifier, off.value.0, off.value.1);
  }

  /** The optional '.' offset at separator q, 0 when absent; None when it is not below CAN_DATA_SIZE. */
  method ScanOffset(s: string, q: nat) returns (r: Option<(int, nat)>)
    requires q <= |s|
    ensures r == OffsetPart(s, q)
  {
    if At(s, q) != '.' {
      return Some((0, q));
    }
    var sc := NumberAt(s, q + 1);
    var offset := sc.value % U16;
    if offset >= CAN_DATA_SIZE {
      return None;
    }
    return Some((offset, sc.next));
  }

  /** White space at p, then the parameter; the rest of the string is kept as paramStr. */
  method ScanParameter(s: string, busName: string, timeout: int, identifier: int, offset: int, p: nat) returns (r: Option<CanIo>)
    requires p <= |s|
    ensures r == ParamPart(s, busName, timeout, identifier, offset, p)
  {
    if At(s, p) != ' ' && At(s, p) != '\t' {
      return None;
    }
    var param := NumberAt(s, p + 1);
    return Some(CanIo(busName, timeout, identifier, offset, param.value, s[param.next..]));
  }

  /**
   * canIoParse: scan the address with a moving index, then look the bus
   * name up with canOpen. A NULL string is a bad address. On success the
   * device the bus name selects is returned with the parsed fields.
   */
  method CanIoParse(canString: Option<string>, registry: Registry) returns (st: CanStatus, io: CanIo, dev: Device?)
    requires canString.Some? ==> CString(canString.value)
    ensures st == CanStatus.BadAddress <==> canString.None? || ParseAddress(canString.value).None?
    ensures st != CanStatus.BadAddress ==> io == ParseAddress(canString.value).value
    ensures st != CanStatus.BadAddress ==>
              st == (if exists k :: 0 <= k < |registry.devices| && registry.devices[k].name == io.busName
                     then Ok else NoDevice)
    ensures st == Ok ==> dev != null && dev in registry.devices && dev.name == io.busName
  {
    io, dev := CanIo([], -1, 0, 0, 0, []), null;
    if canString.None? {
      return CanStatus.BadAddress, io, dev;
    }
    var s := canString.value;

    var head := ScanHead(s);
    if head.None? {
      return CanStatus.BadAddress, io, dev;
    }
    var busName := head.value.0;
    var r := ScanId(s, busName, head.value.1, head.value.2);
    if r.None? {
      return CanStatus.BadAddress, io, dev;
    }
    io := r.value;
    st, dev := registry.Open(busName);
  }

  /** From the separator p that must be ':': the identifier, its '+' terms, the offset and the parameter. */
  method ScanId(s: string, busName: string, timeout: int, p: nat) returns (r: Option<CanIo>)
    requires p <= |s|
    ensures r == IdPart(s, busName, timeout, p)
  {
    if At(s, p) != ':' {
      return None;
    }
    var identifier, q := ScanIdentifier(s, p + 1);
    IdPartColon(s, busName, timeout, p);
    r := ScanTail(s, busName, timeout, identifier, q);
  }
}
