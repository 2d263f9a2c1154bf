/*
 * The small part of the C library's number scanning that the drivers'
 * parameter parsers rely on: sscanf's "%d", "%i" and "%x"/"%p" conversions,
 * strtol/strtoul with base 0, and strstr. Strings are modelled without
 * their terminating NUL; the end of the C string is index |s|.
 */
module Lexer {
  import opened IpacBase

  /** isspace() in the C locale. */
  predicate IsSpace(c: char) {
    c == ' ' || c == '\t' || c == '\n' || c == '\r' || c == '\U{B}' || c == '\U{C}'
  }

  predicate IsDigit(c: char) { '0' <= c <= '9' }

  predicate IsAlpha(c: char) { 'a' <= c <= 'z' || 'A' <= c <= 'Z' }

  /** isalnum() in the C locale. */
  predicate IsAlnum(c: char) { IsDigit(c) || IsAlpha(c) }

  /** The digit bases the conversions use. */
  predicate IsBase(base: nat) { base == 8 || base == 10 || base == 16 }

  predicate IsDigitIn(c: char, base: nat) {
    if base == 8 then '0' <= c <= '7'
    else if base == 10 then IsDigit(c)
    else IsDigit(c) || 'a' <= c <= 'f' || 'A' <= c <= 'F'
  }

  function DigitValue(c: char, base: nat): (v: nat)
    requires IsBase(base) && IsDigitIn(c, base)
    ensures v < base
  {
    if IsDigit(c) then c as int - '0' as int
    else if 'a' <= c <= 'f' then c as int - 'a' as int + 10
    else c as int - 'A' as int + 10
  }

  /** Every character of s[i..j] is a digit of the base. */
  predicate DigitsIn(s: string, i: nat, j: nat, base: nat)
    requires i <= j <= |s|
  {
    forall k :: i <= k < j ==> IsDigitIn(s[k], base)
  }

  predicate AllDigits(s: string, base: nat) { DigitsIn(s, 0, |s|, base) }

  /** The index just after the run of base-`base` digits that starts at i. */
  function DigitEnd(s: string, i: nat, base: nat): (j: nat)
    requires i <= |s|
    ensures i <= j <= |s| && DigitsIn(s, i, j, base)
    ensures j < |s| ==> !IsDigitIn(s[j], base)
    decreases |s| - i
  {
    if i == |s| || !IsDigitIn(s[i], base) then i else DigitEnd(s, i + 1, base)
  }

  /** The value of the digits s[i..j], most significant first. */
  function DigitsValue(s: string, i: nat, j: nat, base: nat): (v: nat)
    requires IsBase(base) && i <= j <= |s| && DigitsIn(s, i, j, base)
    decreases j - i
  {
    if j == i then 0
    else DigitsValue(s, i, j - 1, base) * base + DigitValue(s[j - 1], base)
  }

  /** The first index at or after i that is not white space. */
  function SkipWhite(s: string, i: nat): (j: nat)
    requires i <= |s|
    ensures i <= j <= |s|
    ensures j < |s| ==> !IsSpace(s[j])
    decreases |s| - i
  {
    if i == |s| || !IsSpace(s[i]) then i else SkipWhite(s, i + 1)
  }

  /** The index after an optional '+' or '-' at i. */
  function SignEnd(s: string, i: nat): (j: nat)
    requires i <= |s|
    ensures j == i || j == i + 1
    ensures j <= |s|
  {
    if i < |s| && (s[i] == '+' || s[i] == '-') then i + 1 else i
  }

  function Signed(negative: bool, v: nat): int {
    if negative then -(v as int) else v
  }

  /** A number read from a string, and the index just after it. */
  datatype Scan = Scan(value: int, next: nat)

  /** The digits of the given base starting at i, read with the given sign. */
  function DigitsAt(s: string, i: nat, base: nat, negative: bool): (r: Option<Scan>)
    requires i <= |s| && IsBase(base)
    ensures r.Some? <==> i < |s| && IsDigitIn(s[i], base)
    ensures r.Some? ==> i < r.value.next <= |s|
  {
    var j := DigitEnd(s, i, base);
    if j == i then None
    else Some(Scan(Signed(negative, DigitsValue(s, i, j, base)), j))
  }

  /** sscanf(s, "%d"): white space, an optional sign, decimal digits. */
  function ScanDec(s: string): (r: Option<Scan>)
    ensures r.Some? ==> r.value.next <= |s|
  {
    var i := SkipWhite(s, 0);
    var j := SignEnd(s, i);
    DigitsAt(s, j, 10, j > i && s[i] == '-')
  }

  /**
   * The base-0 rule of strtol and "%i": "0x" or "0X" followed by a hex
   * digit starts a hexadecimal number, any other leading 0 an octal one,
   * and anything else a decimal one.
   */
  function DigitsAuto(s: string, j: nat, negative: bool): (r: Option<Scan>)
    requires j <= |s|
    ensures r.Some? ==> j < r.value.next <= |s|
  {
    if j + 2 < |s| && s[j] == '0' && (s[j + 1] == 'x' || s[j + 1] == 'X') && IsDigitIn(s[j + 2], 16)
    then DigitsAt(s, j + 2, 16, negative)
    else if j < |s| && s[j] == '0' then DigitsAt(s, j, 8, negative)
    else DigitsAt(s, j, 10, negative)
  }

  /** sscanf(s, "%i"). */
  function ScanInt(s: string): (r: Option<Scan>)
    ensures r.Some? ==> r.value.next <= |s|
  {
    var i := SkipWhite(s, 0);
    var j := SignEnd(s, i);
    DigitsAuto(s, j, j > i && s[i] == '-')
  }

  /** sscanf(s, "%x") and "%p": white space, an optional 0x or 0X, hex digits. */
  function ScanHex(s: string): (r: Option<Scan>)
    ensures r.Some? ==> r.value.next <= |s|
  {
    var i := SkipWhite(s, 0);
    if i + 2 < |s| && s[i] == '0' && (s[i + 1] == 'x' || s[i + 1] == 'X') && IsDigitIn(s[i + 2], 16)
    then DigitsAt(s, i + 2, 16, false)
    else DigitsAt(s, i, 16, false)
  }

  /**
   * strtol(s, &end, 0) and strtoul(s, &end, 0): the value read and the index
   * end points at; with no number, 0 and the start of the string.
   */
  function StrToL(s: string): (r: Scan)
    ensures r.next <= |s|
    ensures r.next == 0 ==> r.value == 0
  {
    match ScanInt(s)
    case Some(sc) => sc
    case None => Scan(0, 0)
  }

  /** s contains pat at index k. */
  predicate OccursAt(s: string, pat: string, k: nat) {
    k + |pat| <= |s| && s[k..k + |pat|] == pat
  }

  /** strstr(s + from, pat), as an index into s. */
  function FindFrom(s: string, pat: string, from: nat): (r: Option<nat>)
    requires from <= |s|
    ensures r.Some? ==> from <= r.value && OccursAt(s, pat, r.value)
    ensures r.Some? ==> forall k :: from <= k < r.value ==> !OccursAt(s, pat, k)
    ensures r.None? ==> forall k :: from <= k <= |s| ==> !OccursAt(s, pat, k)
    decreases |s| - from
  {
    if OccursAt(s, pat, from) then Some(from)
    else if from == |s| then None
    else FindFrom(s, pat, from + 1)
  }

  /** strstr(s, pat). */
  function Find(s: string, pat: string): (r: Option<nat>)
    ensures r.Some? ==> OccursAt(s, pat, r.value)
    ensures r.Some? ==> forall k :: 0 <= k < r.value ==> !OccursAt(s, pat, k)
    ensures r.None? ==> forall k :: 0 <= k <= |s| ==> !OccursAt(s, pat, k)
  {
    FindFrom(s, pat, 0)
  }

  /** The decimal rendering of a natural number, as printf("%d") writes it. */
  function Decimal(n: nat): (d: string)
    ensures |d| > 0 && AllDigits(d, 10)
    ensures n > 0 ==> d[0] != '0'
  {
    if n < 10 then [('0' as int + n) as char]
    else Decimal(n / 10) + [('0' as int + n % 10) as char]
  }

  /** Digits followed by more text keep their value. */
  lemma {:induction false} DigitsValuePrefix(d: string, rest: string, j: nat, base: nat)
    requires IsBase(base) && j <= |d| && DigitsIn(d, 0, j, base)
    ensures DigitsIn(d + rest, 0, j, base)
    ensures DigitsValue(d + rest, 0, j, base) == DigitsValue(d, 0, j, base)
  {
    if j > 0 {
      DigitsValuePrefix(d, rest, j - 1, base);
    }
  }

  lemma {:induction false} DecimalValue(n: nat)
    ensures DigitsValue(Decimal(n), 0, |Decimal(n)|, 10) == n
  {
    var d := Decimal(n);
    if n >= 10 {
      var c := [('0' as int + n % 10) as char];
      DecimalValue(n / 10);
      DigitsValuePrefix(Decimal(n / 10), c, |Decimal(n / 10)|, 10);
    }
  }

  /** The digit run starting at i ends at j when s[i..j] are digits and s[j] is not. */
  lemma {:induction false} DigitEndAt(s: string, i: nat, j: nat, base: nat)
    requires i <= j <= |s| && DigitsIn(s, i, j, base)
    requires j == |s| || !IsDigitIn(s[j], base)
    ensures DigitEnd(s, i, base) == j
    decreases j - i
  {
    if i < j {
      DigitEndAt(s, i + 1, j, base);
    }
  }

  /** A decimal rendering followed by a non-digit: its digits run to its end. */
  lemma DecimalRun(n: nat, rest: string, base: nat)
    requires base == 10 || (base == 8 && n == 0)
    requires rest == [] || !IsDigitIn(rest[0], base)
    ensures DigitEnd(Decimal(n) + rest, 0, base) == |Decimal(n)|
    ensures DigitsValue(Decimal(n) + rest, 0, |Decimal(n)|, base) == n
  {
    var d := Decimal(n);
    var s := d + rest;
    assert DigitsIn(s, 0, |d|, base);
    DigitEndAt(s, 0, |d|, base);
    DigitsValuePrefix(d, rest, |d|, base);
    if base == 10 {
      DecimalValue(n);
    }
  }

  /** Reading back what printf("%d") wrote gives the number and stops after it. */
  lemma ScanDecDecimal(n: nat, rest: string)
    requires rest == [] || !IsDigit(rest[0])
    ensures ScanDec(Decimal(n) + rest) == Some(Scan(n, |Decimal(n)|))
  {
    var s := Decimal(n) + rest;
    var d := Decimal(n);
    assert SkipWhite(s, 0) == 0 by { assert !IsSpace(s[0]); }
    assert SignEnd(s, 0) == 0 by { assert s[0] == d[0]; }
    DecimalRun(n, rest, 10);
  }

  /** "%i" and strtol read a decimal rendering back too, a lone 0 as octal. */
  lemma ScanIntDecimal(n: nat, rest: string)
    requires rest == [] || !IsAlnum(rest[0])
    ensures ScanInt(Decimal(n) + rest) == Some(Scan(n, |Decimal(n)|))
  {
    var s := Decimal(n) + rest;
    var d := Decimal(n);
    assert SkipWhite(s, 0) == 0 by { assert !IsSpace(s[0]); }
    assert SignEnd(s, 0) == 0 by { assert s[0] == d[0]; }
    if n == 0 {
      assert d == "0";
      DecimalRun(n, rest, 8);
    } else {
      DecimalRun(n, rest, 10);
    }
  }

  /** The lower-case hex digit of d < 16. */
  function HexDigit(d: nat): (c: char)
    requires d < 16
    ensures IsDigitIn(c, 16) && DigitValue(c, 16) == d
  {
    if d < 10 then ('0' as int + d) as char else ('a' as int + d - 10) as char
  }

  /** The hex rendering of a natural number, as printf("%x") writes it. */
  function Hex(n: nat): (h: string)
    ensures |h| > 0 && AllDigits(h, 16)
  {
    if n < 16 then [HexDigit(n)] else Hex(n / 16) + [HexDigit(n % 16)]
  }

  lemma {:induction false} HexValue(n: nat)
    ensures DigitsValue(Hex(n), 0, |Hex(n)|, 16) == n
  {
    if n >= 16 {
      HexValue(n / 16);
      DigitsValuePrefix(Hex(n / 16), [HexDigit(n % 16)], |Hex(n / 16)|, 16);
    }
  }

  /** Digits keep their value wherever they sit in a string. */
  lemma {:induction false} DigitsValueShift(s: string, d: string, p: nat, n: nat, base: nat)
    requires IsBase(base) && n <= |d| && p + |d| <= |s| && s[p..p + |d|] == d && AllDigits(d, base)
    ensures DigitsIn(s, p, p + n, base)
    ensures DigitsValue(s, p, p + n, base) == DigitsValue(d, 0, n, base)
  {
    assert forall k :: p <= k < p + |d| ==> s[k] == d[k - p] by {
      forall k | p <= k < p + |d| ensures s[k] == d[k - p] {
        assert s[p..p + |d|][k - p] == s[k];
      }
    }
    if n > 0 {
      DigitsValueShift(s, d, p, n - 1, base);
    }
  }

  /** sscanf("%x") reads back "0x" and a hex rendering, and stops after it. */
  lemma ScanHexHex(n: nat, rest: string)
    requires rest == [] || !IsDigitIn(rest[0], 16)
    ensures ScanHex("0x" + Hex(n) + rest) == Some(Scan(n, 2 + |Hex(n)|))
  {
    var h := Hex(n);
    var s := "0x" + h + rest;
    assert s[2..2 + |h|] == h;
    assert SkipWhite(s, 0) == 0 by { assert !IsSpace(s[0]); }
    assert IsDigitIn(s[2], 16) by { assert s[2] == h[0]; }
    DigitsValueShift(s, h, 2, |h|, 16);
    assert 2 + |h| == |s| || !IsDigitIn(s[2 + |h|], 16) by {
      if 2 + |h| < |s| {
        assert s[2 + |h|] == rest[0];
      }
    }
    DigitEndAt(s, 2, 2 + |h|, 16);
    HexValue(n);
  }

  // ------------------------------------------- strstr followed by sscanf

  /** The two sscanf conversions the option parsers apply after strstr. */
  datatype Conversion = PercentD | PercentI

  function Convert(c: Conversion, s: string): (r: Option<Scan>)
    ensures r.Some? ==> r.value.next <= |s|
  {
    match c
    case PercentD => ScanDec(s)
    case PercentI => ScanInt(s)
  }

  /**
   * What `if ((p = strstr(t, name)) != NULL && sscanf(p + strlen(name), conv, &v) == 1)`
   * finds: the name is absent, present without a number after it, or given
   * the value v.
   */
  datatype Arg = Absent | Malformed | Given(v: int)

  function NamedArg(t: string, name: string, c: Conversion): Arg {
    match Find(t, name)
    case None => Absent
    case Some(k) =>
      match Convert(c, t[k + |name|..])
      case None => Malformed
      case Some(sc) => Given(sc.value)
  }

  /** The j-th character of an occurrence of name is name's j-th character. */
  lemma OccursChar(t: string, name: string, k: nat, j: nat)
    requires j < |name| && OccursAt(t, name, k)
    ensures t[k + j] == name[j]
  {
    assert t[k..k + |name|][j] == t[k + j];
  }

  /** No character of s is c. */
  predicate Lacks(s: string, c: char) { forall i :: 0 <= i < |s| ==> s[i] != c }

  lemma LacksJoin(a: string, b: string, c: char)
    requires Lacks(a, c) && Lacks(b, c)
    ensures Lacks(a + b, c)
  {
  }

  lemma LacksDecimal(n: nat, c: char)
    requires !IsDigit(c)
    ensures Lacks(Decimal(n), c)
  {
  }

  /** "name<n>": an option written with its decimal value. */
  function Named(name: string, n: nat): string { name + Decimal(n) }

  /** A name with a character that t lacks does not occur in t. */
  lemma NotFound(t: string, name: string, j: nat)
    requires j < |name| && Lacks(t, name[j])
    ensures Find(t, name).None?
  {
    if Find(t, name).Some? {
      assert false;
    }
  }

  /** Character i of pre + name + rest, for i inside pre + name. */
  lemma CharOfJoin(pre: string, name: string, rest: string, i: nat)
    requires i < |pre| + |name|
    ensures (pre + name + rest)[i] == if i < |pre| then pre[i] else name[i - |pre|]
  {
  }

  /**
   * strstr finds `name` at |pre| in pre + name + rest when some character
   * of name occurs neither in pre nor earlier in name.
   */
  lemma FoundAt(pre: string, name: string, rest: string, j: nat)
    requires j < |name|
    requires Lacks(pre, name[j]) && forall i :: 0 <= i < j ==> name[i] != name[j]
    ensures Find(pre + name + rest, name) == Some(|pre|)
  {
    var t := pre + name + rest;
    assert t[|pre|..|pre| + |name|] == name;
    assert OccursAt(t, name, |pre|);
    var k := Find(t, name).value;
    OccursChar(t, name, k, j);
    CharOfJoin(pre, name, rest, k + j);
  }

  /** strstr and "%d" read back "name<n>" written after pre. */
  lemma NamedDecimal(pre: string, name: string, n: nat, rest: string, j: nat)
    requires j < |name|
    requires Lacks(pre, name[j]) && forall i :: 0 <= i < j ==> name[i] != name[j]
    requires rest == [] || !IsAlnum(rest[0])
    ensures NamedArg(pre + Named(name, n) + rest, name, PercentD) == Given(n)
    ensures NamedArg(pre + Named(name, n) + rest, name, PercentI) == Given(n)
  {
    var t := pre + Named(name, n) + rest;
    assert t == pre + name + (Decimal(n) + rest);
    FoundAt(pre, name, Decimal(n) + rest, j);
    assert t[|pre| + |name|..] == Decimal(n) + rest;
    ScanDecDecimal(n, rest);
    ScanIntDecimal(n, rest);
  }

  // --------------------------------------- sscanf(s, "%d,%d,%n", ...)

  /**
   * What sscanf(s, "%d,%d,%n", &first, &second, &skip) leaves when it
   * converts both numbers: skip stays 0 unless a second comma follows them.
   */
  datatype Lead = Lead(first: int, second: int, skip: nat)

  function Leading(s: string): (r: Option<Lead>)
    ensures r.Some? ==> r.value.skip <= |s|
  {
    var a := ScanDec(s);
    if a.None? || a.value.next >= |s| || s[a.value.next] != ',' then None
    else AfterComma(s, a.value.value, a.value.next + 1)
  }

  /** The second number, read from index i on, and the optional comma after it. */
  function AfterComma(s: string, first: int, i: nat): (r: Option<Lead>)
    requires i <= |s|
    ensures r.Some? ==> r.value.skip <= |s|
  {
    var b := ScanDec(s[i..]);
    if b.None? then None
    else
      var e := i + b.value.next;
      Some(Lead(first, b.value.value, if e < |s| && s[e] == ',' then e + 1 else 0))
  }

  /** A number, a comma, a second number and a comma: both numbers, and the options start after them. */
  lemma LeadingBack(s: string, vme: int, itr: int, a: nat, b: nat)
    requires a < |s| && ScanDec(s) == Some(Scan(vme, a)) && s[a] == ','
    requires a + 1 + b < |s| && ScanDec(s[a + 1..]) == Some(Scan(itr, b)) && s[a + 1 + b] == ','
    ensures Leading(s) == Some(Lead(vme, itr, a + b + 2))
  {
    FirstNumber(s, vme, a);
    SecondNumber(s, a + 1, vme, itr, b);
  }

  lemma FirstNumber(s: string, vme: int, n: nat)
    requires ScanDec(s) == Some(Scan(vme, n))
    requires n < |s| && s[n] == ','
    ensures Leading(s) == AfterComma(s, vme, n + 1)
  {
  }

  lemma SecondNumber(s: string, i: nat, vme: int, itr: int, n: nat)
    requires i <= |s|
    requires ScanDec(s[i..]) == Some(Scan(itr, n))
    requires i + n < |s| && s[i + n] == ','
    ensures AfterComma(s, vme, i) == Some(Lead(vme, itr, i + n + 1))
  {
  }

  /** Where the commas and the pieces sit in dv + "," + dl + "," + opts. */
  lemma Joined(dv: string, dl: string, opts: string)
    ensures var s := dv + ("," + (dl + ("," + opts)));
      |s| == |dv| + |dl| + |opts| + 2 && s[|dv|] == ',' && s[|dv| + 1..] == dl + ("," + opts) &&
      s[|dv| + 1 + |dl|] == ',' && s[|dv| + |dl| + 2..] == opts
  {
    var s := dv + ("," + (dl + ("," + opts)));
    assert s[|dv| + 1..] == dl + ("," + opts);
    assert s[|dv| + |dl| + 2..] == opts;
  }

  /** The text after the second comma of dv + "," + dl + "," + rest is rest. */
  lemma SkipsTo(s: string, dv: string, dl: string, rest: string)
    requires s == dv + ("," + (dl + ("," + rest)))
    ensures |dv| + |dl| + 2 <= |s| && s[|dv| + |dl| + 2..] == rest
  {
    Joined(dv, dl, rest);
  }

  /** "a,b," and then anything: %d,%d,%n reads both numbers and skips to what follows. */
  lemma LeadingOfDecimals(a: nat, b: nat, rest: string)
    ensures Leading(Decimal(a) + ("," + (Decimal(b) + ("," + rest)))) ==
            Some(Lead(a, b, |Decimal(a)| + |Decimal(b)| + 2))
  {
    LeadingOfJoin(Decimal(a) + ("," + (Decimal(b) + ("," + rest))), a, b, rest);
  }

  lemma LeadingOfJoin(s: string, a: nat, b: nat, rest: string)
    requires s == Decimal(a) + ("," + (Decimal(b) + ("," + rest)))
    ensures Leading(s) == Some(Lead(a, b, |Decimal(a)| + |Decimal(b)| + 2))
  {
    FirstDecimal(a, b, rest);
    SecondDecimal(a, b, rest);
    LeadingBack(s, a, b, |Decimal(a)|, |Decimal(b)|);
  }

  lemma FirstDecimal(a: nat, b: nat, rest: string)
    ensures var s := Decimal(a) + ("," + (Decimal(b) + ("," + rest)));
      |Decimal(a)| < |s| && s[|Decimal(a)|] == ',' && ScanDec(s) == Some(Scan(a, |Decimal(a)|))
  {
    Joined(Decimal(a), Decimal(b), rest);
    ScanDecDecimal(a, "," + (Decimal(b) + ("," + rest)));
  }

  lemma SecondDecimal(a: nat, b: nat, rest: string)
    ensures var s := Decimal(a) + ("," + (Decimal(b) + ("," + rest)));
      var i := |Decimal(a)| + 1;
      i + |Decimal(b)| < |s| && s[i + |Decimal(b)|] == ',' && ScanDec(s[i..]) == Some(Scan(b, |Decimal(b)|))
  {
    Joined(Decimal(a), Decimal(b), rest);
    ScanDecDecimal(b, "," + rest);
  }
}
