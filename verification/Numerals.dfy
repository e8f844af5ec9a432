/**
 * Decimal numbers as the text files hold them: how an output stream prints them and how an
 * input stream reads them back.
 */
module Numerals {
  import opened Options

  predicate IsDigit(c: char) { '0' <= c <= '9' }

  function DigitValue(c: char): int { c as int - '0' as int }

  function Digit(d: nat): (c: char)
    requires d < 10
    ensures IsDigit(c) && DigitValue(c) == d
  {
    ('0' as int + d) as char
  }

  function Decimal(n: nat): (s: string)
    ensures s != [] && IsDigit(s[0])
  {
    if n < 10 then [Digit(n)] else Decimal(n / 10) + [Digit(n % 10)]
  }

  function Signed(i: int): string { if i < 0 then "-" + Decimal(-i) else Decimal(i) }

  /** Reading digits from the left, continuing the number so far. */
  function Scan(s: string, acc: nat): (nat, string) {
    if s == [] || !IsDigit(s[0]) then (acc, s) else Scan(s[1..], 10 * acc + DigitValue(s[0]))
  }

  predicate NoDigitFirst(s: string) { s == [] || !IsDigit(s[0]) }

  lemma {:induction false} ScanDecimal(n: nat, rest: string)
    ensures Scan(Decimal(n) + rest, 0) == Scan(rest, n)
  {
    if n < 10 {
      assert (Decimal(n) + rest)[1..] == rest;
    } else {
      var d := Digit(n % 10);
      assert Decimal(n) + rest == Decimal(n / 10) + ([d] + rest);
      ScanDecimal(n / 10, [d] + rest);
      assert ([d] + rest)[1..] == rest;
    }
  }

  /** `isspace` in the C locale: the space, and tab to carriage return. */
  predicate IsSpace(c: char) { c == ' ' || 9 <= c as int <= 13 }

  function SkipSpaces(s: string): string { if s != [] && IsSpace(s[0]) then SkipSpaces(s[1..]) else s }

  /** A sign, digits, and what follows; nothing when there is no digit. */
  function ReadMagnitude(s: string): Option<(bool, nat, string)> {
    var t := SkipSpaces(s);
    var negative := t != [] && t[0] == '-';
    var u := if t != [] && (t[0] == '-' || t[0] == '+') then t[1..] else t;
    if u == [] || !IsDigit(u[0]) then None
    else var (m, rest) := Scan(u, 0); Some((negative, m, rest))
  }

  /** Reading an unsigned number: out of range fails, a minus sign wraps around. */
  function ReadUnsigned(s: string, limit: nat): Option<(nat, string)>
    requires limit > 0
  {
    match ReadMagnitude(s)
    case None => None
    case Some((negative, m, rest)) =>
      if m >= limit then None else Some((if negative && m > 0 then limit - m else m, rest))
  }

  /** Reading a 32-bit signed number: out of range fails. */
  function ReadInt(s: string): Option<(int, string)> {
    match ReadMagnitude(s)
    case None => None
    case Some((negative, m, rest)) =>
      var i: int := if negative then -(m as int) else m;
      if -0x8000_0000 <= i < 0x8000_0000 then Some((i, rest)) else None
  }

  predicate IsInt32(i: int) { -0x8000_0000 <= i < 0x8000_0000 }

  /** A printed number, perhaps after a space, is read back whole. */
  lemma MagnitudeBack(negative: bool, m: nat, rest: string, s: string)
    requires NoDigitFirst(rest) && s == (if negative then ['-'] + (Decimal(m) + rest) else Decimal(m) + rest)
    ensures ReadMagnitude(s) == Some((negative, m, rest)) && ReadMagnitude([' '] + s) == Some((negative, m, rest))
  {
    ScanDecimal(m, rest);
    var t := Decimal(m) + rest;
    assert t[0] == Decimal(m)[0] && IsDigit(t[0]);
    assert Scan(t, 0) == (m, rest);
    if negative { assert s[1..] == t; }
    hide Decimal, Scan;
    assert SkipSpaces(s) == s;
    assert ([' '] + s)[1..] == s;
    assert SkipSpaces([' '] + s) == s;
  }

  lemma ReadUnsignedBack(n: nat, limit: nat, rest: string)
    requires n < limit && NoDigitFirst(rest)
    ensures ReadUnsigned(Decimal(n) + rest, limit) == Some((n, rest))
    ensures ReadUnsigned([' '] + Decimal(n) + rest, limit) == Some((n, rest))
  {
    MagnitudeBack(false, n, rest, Decimal(n) + rest);
    assert [' '] + Decimal(n) + rest == [' '] + (Decimal(n) + rest);
    hide ReadMagnitude, Decimal;
  }

  lemma ReadIntBack(i: int, rest: string)
    requires IsInt32(i) && NoDigitFirst(rest)
    ensures ReadInt([' '] + Signed(i) + rest) == Some((i, rest))
  {
    var m: nat := if i < 0 then -i else i;
    var s := if i < 0 then ['-'] + (Decimal(m) + rest) else Decimal(m) + rest;
    MagnitudeBack(i < 0, m, rest, s);
    assert [' '] + Signed(i) + rest == [' '] + s;
    hide ReadMagnitude, Decimal;
  }
}
