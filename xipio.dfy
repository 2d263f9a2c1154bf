/*
 * xipIoParse: the address of an XIP module's signal, "name C<channel>" for
 * an analogue ('A') signal and "name P<port> B<bit>" for a binary ('B')
 * one. The parser writes the fields it reads into the caller's xipIo_t and
 * leaves the others, including any number it fails to read, as they were.
 * The same function appears in drvXy9660.c and in drvApcie8650.c.
 */
module XipIo {
  import opened IpacBase
  import opened Lexer

  /** xipIo_t; intHandler is never written by the parser and is left out. */
  datatype XipIo = XipIo(name: string, port: int, bit: int, channel: int)

  /** The value returned (0 or 1) and the structure afterwards (None for a NULL pointer). */
  datatype Parsed = Parsed(rc: int, io: Option<XipIo>)

  /** The first alphanumeric character at or after i; None when the string ends first. */
  function NameStart(s: string, i: nat): (r: Option<nat>)
    requires i <= |s|
    ensures r.Some? ==> i <= r.value < |s| && IsAlnum(s[r.value])
    ensures r.Some? ==> forall k :: i <= k < r.value ==> !IsAlnum(s[k])
    ensures r.None? ==> forall k :: i <= k < |s| ==> !IsAlnum(s[k])
    decreases |s| - i
  {
    if i == |s| then None
    else if IsAlnum(s[i]) then Some(i)
    else NameStart(s, i + 1)
  }

  /** strchr(s + from, c) and strpbrk(s + from, [c]), as an index into s. */
  function StrChr(s: string, c: char, from: nat): (r: Option<nat>)
    requires from <= |s|
    ensures r.Some? ==> from <= r.value < |s| && s[r.value] == c
    ensures r.Some? ==> forall k :: from <= k < r.value ==> s[k] != c
    ensures r.None? ==> forall k :: from <= k < |s| ==> s[k] != c
    decreases |s| - from
  {
    if from == |s| then None
    else if s[from] == c then Some(from)
    else StrChr(s, c, from + 1)
  }

  /** sscanf(s + k, "%d", &field): the number at k, or the field unchanged when none is there. */
  function NumberAt(s: string, k: nat, field: int): int
    requires k <= |s|
  {
    match ScanDec(s[k..])
    case Some(sc) => sc.value
    case None => field
  }

  /**
   * xipIoParse(str, ptr, flag). After the name the parser looks for 'C'
   * (flag 'A') or 'P' and then 'B' (flag 'B'), each from where the
   * previous search stopped; any other flag reads only the name.
   */
  function XipIoParse(str: Option<string>, ptr: Option<XipIo>, flag: char): (r: Parsed)
    ensures r.rc == 0 || r.rc == 1
    ensures str.None? || ptr.None? ==> r == Parsed(1, ptr)
    ensures ptr.Some? ==> r.io.Some?
    ensures ptr.Some? && flag != 'B' ==> r.io.value.port == ptr.value.port && r.io.value.bit == ptr.value.bit
    ensures ptr.Some? && flag != 'A' ==> r.io.value.channel == ptr.value.channel
  {
    if str.None? || ptr.None? then Parsed(1, ptr)
    else
      var s, io := str.value, ptr.value;
      match NameStart(s, 0)
      case None => Parsed(1, ptr)
      case Some(start) =>
        match StrChr(s, ' ', start)
        case None => Parsed(1, ptr)
        case Some(sp) =>
          var named := io.(name := s[start..sp]);
          if flag == 'A' then Analogue(s, sp, named)
          else if flag == 'B' then Binary(s, sp, named)
          else Parsed(0, Some(named))
  }

  /** The 'A' part: the channel after the first 'C' from sp. */
  function Analogue(s: string, sp: nat, io: XipIo): (r: Parsed)
    requires sp <= |s|
    ensures r.io.Some? && r.io.value.(channel := io.channel) == io
  {
    match StrChr(s, 'C', sp)
    case None => Parsed(1, Some(io))
    case Some(c) => Parsed(0, Some(io.(channel := NumberAt(s, c + 1, io.channel))))
  }

  /** The 'B' part: the port after the first 'P' from sp, then the bit after the next 'B'. */
  function Binary(s: string, sp: nat, io: XipIo): (r: Parsed)
    requires sp <= |s|
    ensures r.io.Some? && r.io.value.(port := io.port, bit := io.bit) == io
  {
    match StrChr(s, 'P', sp)
    case None => Parsed(1, Some(io))
    case Some(p) =>
      var ported := io.(port := NumberAt(s, p + 1, io.port));
      match StrChr(s, 'B', p + 1)
      case None => Parsed(1, Some(ported))
      case Some(b) => Parsed(0, Some(ported.(bit := NumberAt(s, b + 1, io.bit))))
  }

  /** A name that a parser can read back: it starts alphanumeric and holds no space. */
  predicate PlainName(name: string) {
    |name| > 0 && IsAlnum(name[0]) && Lacks(name, ' ')
  }

  /** An analogue address written as "name C<channel>" parses back to the name and the channel. */
  lemma AnalogueRoundTrip(name: string, channel: nat, io: XipIo)
    requires PlainName(name)
    ensures XipIoParse(Some(name + " C" + Decimal(channel)), Some(io), 'A')
         == Parsed(0, Some(io.(name := name, channel := channel)))
  {
    var s := name + " C" + Decimal(channel);
    var n := |name|;
    assert s[..n] == name && s[n] == ' ' && s[n + 1] == 'C' && s[n + 2..] == Decimal(channel);
    AnalogueAt(s, name, channel, io);
  }

  lemma AnalogueAt(s: string, name: string, channel: nat, io: XipIo)
    requires PlainName(name) && |name| + 2 <= |s|
    requires s[..|name|] == name && s[|name|] == ' ' && s[|name| + 1] == 'C' && s[|name| + 2..] == Decimal(channel)
    ensures XipIoParse(Some(s), Some(io), 'A') == Parsed(0, Some(io.(name := name, channel := channel)))
  {
    var n := |name|;
    NameAt(s, name);
    assert StrChr(s, 'C', n) == Some(n + 1);
    NumberOf(s, n + 2, channel, io.channel);
  }

  /** A binary address written as "name P<port> B<bit>" parses back to the name, the port and the bit. */
  lemma BinaryRoundTrip(name: string, port: nat, bit: nat, io: XipIo)
    requires PlainName(name)
    ensures XipIoParse(Some(name + " P" + Decimal(port) + " B" + Decimal(bit)), Some(io), 'B')
         == Parsed(0, Some(io.(name := name, port := port, bit := bit)))
  {
    var dp, db := Decimal(port), Decimal(bit);
    var n := |name|;
    var b := n + 3 + |dp|;
    var named := name + " P";
    var ported := named + dp;
    var tagged := ported + " B";
    var s := tagged + db;
    assert s[..b + 1] == tagged && s[b + 1..] == db;
    assert tagged[..n + 2 + |dp|] == ported && tagged[b - 1] == ' ' && tagged[b] == 'B';
    assert ported[..n + 2] == named && ported[n + 2..] == dp;
    assert named[..n] == name && named[n] == ' ' && named[n + 1] == 'P';
    assert s[..n] == name && s[n] == ' ' && s[n + 1] == 'P' by {
      assert s[..n] == tagged[..n] == ported[..n] == named[..n];
      assert s[n] == tagged[n] == ported[n] == named[n];
      assert s[n + 1] == tagged[n + 1] == ported[n + 1] == named[n + 1];
    }
    assert s[n + 2..b - 1] == dp by {
      assert s[n + 2..b - 1] == tagged[n + 2..b - 1] == ported[n + 2..];
    }
    BinaryAt(s, name, port, bit, io);
  }

  lemma BinaryAt(s: string, name: string, port: nat, bit: nat, io: XipIo)
    requires PlainName(name) && |name| + 3 + |Decimal(port)| < |s|
    requires var n, b := |name|, |name| + 3 + |Decimal(port)|;
      s[..n] == name && s[n] == ' ' && s[n + 1] == 'P' && s[n + 2..b - 1] == Decimal(port) &&
      s[b - 1] == ' ' && s[b] == 'B' && s[b + 1..] == Decimal(bit)
    ensures XipIoParse(Some(s), Some(io), 'B') == Parsed(0, Some(io.(name := name, port := port, bit := bit)))
  {
    var n := |name|;
    var b := n + 3 + |Decimal(port)|;
    var named := io.(name := name);
    NameAt(s, name);
    ParsedAsBinary(s, n, io, named);
    BinaryPartAt(s, n, b, port, bit, named);
  }

  /** The 'B' part of "… P<port> B<bit>" from the space before the 'P'. */
  lemma BinaryPartAt(s: string, n: nat, b: nat, port: nat, bit: nat, io: XipIo)
    requires b == n + 3 + |Decimal(port)| < |s|
    requires s[n] == ' ' && s[n + 1] == 'P' && s[n + 2..b - 1] == Decimal(port) && s[b - 1] == ' ' && s[b] == 'B' && s[b + 1..] == Decimal(bit)
    ensures Binary(s, n, io) == Parsed(0, Some(io.(port := port, bit := bit)))
  {
    assert StrChr(s, 'P', n) == Some(n + 1);
    NumberThenTag(s, n + 2, port, 'B', io.port, b);
    NumberAtEnd(s, b + 1, bit, io.bit);
    BinaryParsed(s, n, b, io);
  }

  /** A decimal rendering at k, then a space and a tag: "%d" reads it, and strchr from k finds the tag. */
  lemma NumberThenTag(s: string, k: nat, v: nat, tag: char, field: int, t: nat)
    requires tag != ' ' && !IsDigit(tag) && t == k + |Decimal(v)| + 1 < |s|
    requires s[k..t - 1] == Decimal(v) && s[t - 1] == ' ' && s[t] == tag
    ensures NumberAt(s, k, field) == v
    ensures StrChr(s, tag, k) == Some(t)
  {
    NumberOf(s, k, v, field);
    LacksDecimal(v, tag);
    assert forall i :: k <= i < k + |Decimal(v)| ==> s[i] == Decimal(v)[i - k];
  }

  /** A decimal rendering that ends the string is read by "%d". */
  lemma NumberAtEnd(s: string, k: nat, v: nat, field: int)
    requires k <= |s| && s[k..] == Decimal(v)
    ensures NumberAt(s, k, field) == v
  {
    assert s[k..] == Decimal(v) + [];
    ScanDecDecimal(v, []);
  }

  /** Once the name is found, a binary parse is the 'B' part from the space after it. */
  lemma ParsedAsBinary(s: string, n: nat, io: XipIo, named: XipIo)
    requires n < |s| && NameStart(s, 0) == Some(0) && StrChr(s, ' ', 0) == Some(n) && named == io.(name := s[0..n])
    ensures XipIoParse(Some(s), Some(io), 'B') == Binary(s, n, named)
  {
  }

  /** The 'B' part once the 'P' right after the space and the next 'B' are found. */
  lemma BinaryParsed(s: string, n: nat, b: nat, io: XipIo)
    requires n + 2 <= b < |s| && StrChr(s, 'P', n) == Some(n + 1) && StrChr(s, 'B', n + 2) == Some(b)
    ensures Binary(s, n, io) == Parsed(0, Some(io.(port := NumberAt(s, n + 2, io.port), bit := NumberAt(s, b + 1, io.bit))))
  {
  }

  /** The 'B' part when the 'P' right after the space has no 'B' after it. */
  lemma BinaryUnfinished(s: string, n: nat, io: XipIo)
    requires n + 2 <= |s| && StrChr(s, 'P', n) == Some(n + 1) && StrChr(s, 'B', n + 2).None?
    ensures Binary(s, n, io) == Parsed(1, Some(io.(port := NumberAt(s, n + 2, io.port))))
  {
  }

  /** A plain name followed by a space: the name starts at 0 and ends at the space. */
  lemma NameAt(s: string, name: string)
    requires PlainName(name) && |name| < |s| && s[..|name|] == name && s[|name|] == ' '
    ensures NameStart(s, 0) == Some(0)
    ensures StrChr(s, ' ', 0) == Some(|name|) && s[0..|name|] == name
  {
    assert forall k :: 0 <= k < |name| ==> s[k] == name[k];
  }

  /** "%d" at k reads back a decimal rendering placed there, up to a non-digit or the end. */
  lemma NumberOf(s: string, k: nat, v: nat, field: int)
    requires k + |Decimal(v)| <= |s| && s[k..k + |Decimal(v)|] == Decimal(v)
    requires k + |Decimal(v)| == |s| || !IsDigit(s[k + |Decimal(v)|])
    ensures NumberAt(s, k, field) == v
  {
    var d := Decimal(v);
    var rest := s[k + |d|..];
    assert s[k..] == d + rest;
    ScanDecDecimal(v, rest);
  }

  /** Without a space after the name the parse fails and the structure is untouched. */
  lemma NoSpaceFails(s: string, io: XipIo, flag: char)
    requires Lacks(s, ' ')
    ensures XipIoParse(Some(s), Some(io), flag) == Parsed(1, Some(io))
  {
  }

  /** A string with nothing alphanumeric in it fails untouched. */
  lemma NoNameFails(s: string, io: XipIo, flag: char)
    requires forall k :: 0 <= k < |s| ==> !IsAlnum(s[k])
    ensures XipIoParse(Some(s), Some(io), flag) == Parsed(1, Some(io))
  {
  }

  /**
   * An analogue address with no 'C' after the name fails, but the name has
   * already been written.
   */
  lemma AnalogueWithoutChannel(s: string, name: string, io: XipIo)
    requires PlainName(name) && |name| < |s| && s[..|name|] == name && s[|name|] == ' '
    requires Lacks(s[|name|..], 'C')
    ensures XipIoParse(Some(s), Some(io), 'A') == Parsed(1, Some(io.(name := name)))
  {
    NameAt(s, name);
    assert forall k :: |name| <= k < |s| ==> s[k] == s[|name|..][k - |name|];
  }

  /**
   * A binary address with a 'P' but no 'B' after it fails, with the name and
   * the port already written.
   */
  lemma BinaryWithoutBit(s: string, name: string, port: nat, io: XipIo)
    requires PlainName(name) && |name| + 2 + |Decimal(port)| <= |s|
    requires var n, e := |name|, |name| + 2 + |Decimal(port)|;
      s[..n] == name && s[n] == ' ' && s[n + 1] == 'P' && s[n + 2..e] == Decimal(port) &&
      Lacks(s[e..], 'B') && (e == |s| || !IsDigit(s[e]))
    ensures XipIoParse(Some(s), Some(io), 'B') == Parsed(1, Some(io.(name := name, port := port)))
  {
    var n := |name|;
    NameAt(s, name);
    assert StrChr(s, 'P', n) == Some(n + 1);
    NumberThenLacks(s, n + 2, port, 'B', io.port, n + 2 + |Decimal(port)|);
    var named := io.(name := name);
    ParsedAsBinary(s, n, io, named);
    BinaryUnfinished(s, n, named);
  }

  /** A decimal rendering at k and no tag after it: "%d" reads it, and strchr from k finds no tag. */
  lemma NumberThenLacks(s: string, k: nat, v: nat, tag: char, field: int, e: nat)
    requires !IsDigit(tag) && e == k + |Decimal(v)| <= |s| && s[k..e] == Decimal(v)
    requires Lacks(s[e..], tag) && (e == |s| || !IsDigit(s[e]))
    ensures NumberAt(s, k, field) == v
    ensures StrChr(s, tag, k).None?
  {
    NumberOf(s, k, v, field);
    LacksDecimal(v, tag);
    assert forall i :: k <= i < e ==> s[i] == s[k..e][i - k];
    assert forall i :: e <= i < |s| ==> s[i] == s[e..][i - e];
  }
}
