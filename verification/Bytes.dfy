/** Byte strings as the proxy sees them, and the few library routines its text code leans on:
    substring search, ASCII case folding, `strings.TrimSpace` (ASCII part), `strconv.Atoi`
    on a 64-bit platform, and `%d` printing of a non-negative number. */
module Bytes {

  /** One byte, written as the character with that code, so that literals read as text. */
  type byte = c: char | (c as int) < 256 witness 'a'
  type bytes = seq<byte>

  const MAX_INT64: int := 0x7FFF_FFFF_FFFF_FFFF
  const TWO_TO_THE_63: int := 0x8000_0000_0000_0000
  const TWO_TO_THE_64: int := 0x1_0000_0000_0000_0000

  /** Go's conversion `byte(n)` of an int: the low eight bits. */
  function ToByte(n: int): (b: byte)
    ensures 0 <= n < 256 ==> b as int == n
  {
    (n % 256) as char
  }

  /** 64-bit two's complement reduction of a mathematical integer that is at most one wrap away. */
  function Wrap64(n: int): (r: int)
    requires -TWO_TO_THE_64 < n < TWO_TO_THE_64
    ensures -TWO_TO_THE_63 <= r <= MAX_INT64
    ensures (r - n) % TWO_TO_THE_64 == 0
  {
    if n > MAX_INT64 then n - TWO_TO_THE_64
    else if n < -TWO_TO_THE_63 then n + TWO_TO_THE_64
    else n
  }

  predicate IsBlank(c: byte) { c == ' ' || c == '\t' }

  predicate IsEol(c: byte) { c == '\r' || c == '\n' }

  /** The ASCII characters `strings.TrimSpace` removes. */
  predicate IsSpace(c: byte) { c == ' ' || '\t' <= c <= '\r' }

  predicate IsDigit(c: byte) { '0' <= c <= '9' }

  predicate IsAscii(s: bytes) { forall i | 0 <= i < |s| :: (s[i] as int) < 128 }

  predicate NoEol(s: bytes) { forall i | 0 <= i < |s| :: !IsEol(s[i]) }

  // ---------------------------------------------------------------- case folding

  function LowerByte(c: byte): byte {
    if 'A' <= c <= 'Z' then ((c as int) + 32) as char else c
  }

  function UpperByte(c: byte): byte {
    if 'a' <= c <= 'z' then ((c as int) - 32) as char else c
  }

  function Lower(s: bytes): (r: bytes)
    ensures |r| == |s| && forall i | 0 <= i < |s| :: r[i] == LowerByte(s[i])
  {
    seq(|s|, i requires 0 <= i < |s| => LowerByte(s[i]))
  }

  lemma LowerConcat(a: bytes, b: bytes)
    ensures Lower(a + b) == Lower(a) + Lower(b)
  {
  }

  // ---------------------------------------------------------------- searching

  predicate MatchAt(hay: bytes, needle: bytes, i: int) {
    0 <= i && i + |needle| <= |hay| && hay[i..i + |needle|] == needle
  }

  /** The first position at or after `from` where `needle` occurs, or -1. */
  function IndexFrom(hay: bytes, needle: bytes, from: nat): (r: int)
    ensures r == -1 || (from <= r && MatchAt(hay, needle, r))
    ensures forall i | from <= i && (r == -1 || i < r) :: !MatchAt(hay, needle, i)
    decreases |hay| - from
  {
    if from + |needle| > |hay| then -1
    else if MatchAt(hay, needle, from) then from
    else if from == |hay| then -1
    else IndexFrom(hay, needle, from + 1)
  }

  function IndexOf(hay: bytes, needle: bytes): int { IndexFrom(hay, needle, 0) }

  lemma MatchAtShift(pre: bytes, hay: bytes, needle: bytes, i: int)
    requires 0 <= i
    ensures MatchAt(pre + hay, needle, |pre| + i) == MatchAt(hay, needle, i)
  {
    if i + |needle| <= |hay| {
      assert (pre + hay)[|pre| + i..|pre| + i + |needle|] == hay[i..i + |needle|];
    }
  }

  lemma MatchAtPrefix(hay: bytes, more: bytes, needle: bytes, i: int)
    requires 0 <= i && i + |needle| <= |hay|
    ensures MatchAt(hay + more, needle, i) == MatchAt(hay, needle, i)
  {
    assert (hay + more)[i..i + |needle|] == hay[i..i + |needle|];
  }

  /** One differing byte rules a match out. */
  lemma Mismatch(hay: bytes, needle: bytes, i: nat, k: nat)
    requires k < |needle| && i + k < |hay| && hay[i + k] != needle[k]
    ensures !MatchAt(hay, needle, i)
  {
    if i + |needle| <= |hay| {
      assert hay[i..i + |needle|][k] == hay[i + k];
    }
  }

  /** A search result is fixed by the match and the absence of earlier ones. */
  lemma IndexOfIs(hay: bytes, needle: bytes, k: int)
    requires MatchAt(hay, needle, k)
    requires forall i | 0 <= i < k :: !MatchAt(hay, needle, i)
    ensures IndexOf(hay, needle) == k
  {
  }

  lemma IndexOfNone(hay: bytes, needle: bytes)
    requires forall i | 0 <= i <= |hay| :: !MatchAt(hay, needle, i)
    ensures IndexOf(hay, needle) == -1
  {
  }

  /** Bytes arriving later do not move a match that is already there. */
  lemma IndexOfStable(hay: bytes, more: bytes, needle: bytes)
    requires IndexOf(hay, needle) >= 0
    ensures IndexOf(hay + more, needle) == IndexOf(hay, needle)
  {
    var k := IndexOf(hay, needle);
    MatchAtPrefix(hay, more, needle, k);
    forall i | 0 <= i < k ensures !MatchAt(hay + more, needle, i) {
      MatchAtPrefix(hay, more, needle, i);
    }
    IndexOfIs(hay + more, needle, k);
  }

  /** A match that only appears once more bytes are there ends among the new bytes. */
  lemma IndexOfFresh(hay: bytes, more: bytes, needle: bytes)
    requires IndexOf(hay, needle) < 0 <= IndexOf(hay + more, needle)
    ensures IndexOf(hay + more, needle) + |needle| > |hay|
  {
    var k := IndexOf(hay + more, needle);
    if k + |needle| <= |hay| {
      MatchAtPrefix(hay, more, needle, k);
    }
  }

  /** Searching for a single byte. */
  lemma IndexOfByte(s: bytes, c: byte)
    ensures IndexOf(s, [c]) < 0 <==> c !in s
    ensures IndexOf(s, [c]) >= 0 ==> c !in s[..IndexOf(s, [c])]
  {
    forall i | 0 <= i < |s| ensures MatchAt(s, [c], i) <==> s[i] == c {
      assert s[i..i + 1] == [s[i]];
    }
  }

  /** If nothing starts in the first `skip` bytes, the search may begin after them. */
  lemma IndexAfter(pre: bytes, tail: bytes, needle: bytes)
    requires forall i | 0 <= i < |pre| :: !MatchAt(pre + tail, needle, i)
    ensures IndexOf(pre + tail, needle)
         == (if IndexOf(tail, needle) < 0 then -1 else |pre| + IndexOf(tail, needle))
  {
    var k := IndexOf(tail, needle);
    forall i | 0 <= i && (k < 0 || i < |pre| + k) ensures !MatchAt(pre + tail, needle, i) {
      if i >= |pre| {
        MatchAtShift(pre, tail, needle, i - |pre|);
      }
    }
    if k < 0 {
      IndexOfNone(pre + tail, needle);
    } else {
      MatchAtShift(pre, tail, needle, k);
      IndexOfIs(pre + tail, needle, |pre| + k);
    }
  }

  // ---------------------------------------------------------------- trimming

  function TrimLeft(s: bytes): (r: bytes)
    ensures r == [] || !IsSpace(r[0])
  {
    if s != [] && IsSpace(s[0]) then TrimLeft(s[1..]) else s
  }

  function TrimRight(s: bytes): (r: bytes)
    ensures r == [] || !IsSpace(r[|r| - 1])
    ensures r <= s
  {
    if s != [] && IsSpace(s[|s| - 1]) then TrimRight(s[..|s| - 1]) else s
  }

  function TrimSpace(s: bytes): bytes { TrimRight(TrimLeft(s)) }

  predicate Trimmed(s: bytes) { s == [] || (!IsSpace(s[0]) && !IsSpace(s[|s| - 1])) }

  lemma TrimSpaceTrimmed(s: bytes)
    ensures Trimmed(TrimSpace(s))
    ensures Trimmed(s) ==> TrimSpace(s) == s
  {
  }

  /** Case folding neither adds nor removes white space, so it commutes with trimming. */
  lemma {:induction false} TrimLeftLower(s: bytes)
    ensures TrimLeft(Lower(s)) == Lower(TrimLeft(s))
  {
    if s == [] || !IsSpace(s[0]) {
    } else {
      assert Lower(s)[1..] == Lower(s[1..]);
      TrimLeftLower(s[1..]);
    }
  }

  lemma {:induction false} TrimRightLower(s: bytes)
    ensures TrimRight(Lower(s)) == Lower(TrimRight(s))
  {
    if s == [] || !IsSpace(s[|s| - 1]) {
    } else {
      assert Lower(s)[..|s| - 1] == Lower(s[..|s| - 1]);
      TrimRightLower(s[..|s| - 1]);
    }
  }

  lemma TrimSpaceLower(s: bytes)
    ensures TrimSpace(Lower(s)) == Lower(TrimSpace(s))
  {
    TrimLeftLower(s);
    TrimRightLower(TrimLeft(s));
  }

  lemma {:induction false} TrimLeftOver(ws: bytes, s: bytes)
    requires forall i | 0 <= i < |ws| :: IsSpace(ws[i])
    ensures TrimLeft(ws + s) == TrimLeft(s)
  {
    if ws == [] {
      assert ws + s == s;
    } else {
      assert (ws + s)[1..] == ws[1..] + s;
      TrimLeftOver(ws[1..], s);
    }
  }

  lemma {:induction false} TrimRightOver(s: bytes, ws: bytes)
    requires forall i | 0 <= i < |ws| :: IsSpace(ws[i])
    ensures TrimRight(s + ws) == TrimRight(s)
  {
    if ws == [] {
      assert s + ws == s;
    } else {
      assert (s + ws)[..|s + ws| - 1] == s + ws[..|ws| - 1];
      TrimRightOver(s, ws[..|ws| - 1]);
    }
  }

  // ---------------------------------------------------------------- numbers

  function Digit(d: nat): byte
    requires d < 10
  {
    (('0' as int) + d) as char
  }

  function DigitValue(c: byte): nat
    requires IsDigit(c)
  {
    (c as int) - ('0' as int)
  }

  /** `%d` of a non-negative number. */
  function Decimal(n: nat): (s: bytes)
    ensures s != [] && forall i | 0 <= i < |s| :: IsDigit(s[i])
  {
    if n < 10 then [Digit(n)] else Decimal(n / 10) + [Digit(n % 10)]
  }

  datatype Scan = Value(n: nat) | BadSyntax | OutOfRange

  /** The digit loop of `strconv.ParseUint` with base 10: a bad character and a 64-bit overflow
      are reported in the order in which they are met. */
  function ScanDigits(s: bytes, acc: nat): Scan {
    if s == [] then Value(acc)
    else if !IsDigit(s[0]) then BadSyntax
    else
      var v := acc * 10 + DigitValue(s[0]);
      if v >= TWO_TO_THE_64 then OutOfRange else ScanDigits(s[1..], v)
  }

  datatype AtoiResult = AtoiResult(n: int, ok: bool)

  /** The 64-bit number for a scanned one. */
  function Bounded(scan: Scan, neg: bool): (r: AtoiResult)
    ensures -TWO_TO_THE_63 <= r.n <= MAX_INT64
  {
    match scan
    case BadSyntax => AtoiResult(0, false)
    case OutOfRange => AtoiResult(if neg then -TWO_TO_THE_63 else MAX_INT64, false)
    case Value(n) =>
      if !neg && n > MAX_INT64 then AtoiResult(MAX_INT64, false)
      else if neg && n > TWO_TO_THE_63 then AtoiResult(-TWO_TO_THE_63, false)
      else AtoiResult(if neg then -(n as int) else n as int, true)
  }

  /** `strconv.Atoi`: 0 on a syntax error, the nearest int64 on a range error. */
  function Atoi(s: bytes): (r: AtoiResult)
    ensures -TWO_TO_THE_63 <= r.n <= MAX_INT64
  {
    var neg := s != [] && s[0] == '-';
    var digits := if s != [] && (s[0] == '-' || s[0] == '+') then s[1..] else s;
    if digits == [] then AtoiResult(0, false) else Bounded(ScanDigits(digits, 0), neg)
  }

  lemma AtoiEmpty()
    ensures Atoi([]) == AtoiResult(0, false)
  {
  }

  lemma {:induction false} ScanDigitsSnoc(s: bytes, c: byte, acc: nat)
    requires ScanDigits(s, acc).Value? && IsDigit(c)
    requires ScanDigits(s, acc).n * 10 + DigitValue(c) < TWO_TO_THE_64
    ensures ScanDigits(s + [c], acc) == Value(ScanDigits(s, acc).n * 10 + DigitValue(c))
  {
    if s == [] {
      assert (s + [c])[1..] == [];
    } else {
      assert (s + [c])[1..] == s[1..] + [c];
      ScanDigitsSnoc(s[1..], c, acc * 10 + DigitValue(s[0]));
    }
  }

  lemma {:induction false} ScanDecimal(n: nat)
    requires n < TWO_TO_THE_64
    ensures ScanDigits(Decimal(n), 0) == Value(n)
  {
    if n < 10 {
      assert Decimal(n)[1..] == [];
    } else {
      ScanDecimal(n / 10);
      ScanDigitsSnoc(Decimal(n / 10), Digit(n % 10), 0);
    }
  }

  /** Printing a number and reading it back: `Atoi` inverts `%d` on every int. */
  lemma AtoiDecimal(n: nat)
    requires n <= MAX_INT64
    ensures Atoi(Decimal(n)) == AtoiResult(n, true)
  {
    ScanDecimal(n);
  }

  lemma {:induction false} ScanTooLong(s: bytes, c: byte, acc: nat)
    requires IsDigit(c)
    requires match ScanDigits(s, acc)
             case Value(n) => n * 10 + DigitValue(c) >= TWO_TO_THE_64
             case OutOfRange => true
             case BadSyntax => false
    ensures ScanDigits(s + [c], acc) == OutOfRange
  {
    if s == [] {
      assert (s + [c])[0] == c;
    } else {
      assert (s + [c])[1..] == s[1..] + [c];
      var v := acc * 10 + DigitValue(s[0]);
      if v < TWO_TO_THE_64 { ScanTooLong(s[1..], c, v); }
    }
  }

  lemma {:induction false} ScanHuge(n: nat)
    requires n >= TWO_TO_THE_64
    ensures ScanDigits(Decimal(n), 0) == OutOfRange
  {
    if n / 10 < TWO_TO_THE_64 {
      ScanDecimal(n / 10);
    } else {
      ScanHuge(n / 10);
    }
    ScanTooLong(Decimal(n / 10), Digit(n % 10), 0);
  }

  /** The number read from digits, before the sign is looked at. */
  lemma ScanAny(n: nat)
    ensures ScanDigits(Decimal(n), 0) == if n < TWO_TO_THE_64 then Value(n) else OutOfRange
  {
    if n < TWO_TO_THE_64 {
      ScanDecimal(n);
    } else {
      ScanHuge(n);
    }
  }

  /** What `Atoi` makes of any decimal number, with or without a sign: the number itself where it fits
      64 bits, and the nearest one and an error where it does not. */
  lemma AtoiSigned(n: nat)
    ensures Atoi(Decimal(n)) == if n <= MAX_INT64 then AtoiResult(n, true) else AtoiResult(MAX_INT64, false)
    ensures Atoi(['+'] + Decimal(n)) == Atoi(Decimal(n))
    ensures Atoi(['-'] + Decimal(n)) ==
            if n <= TWO_TO_THE_63 then AtoiResult(0 - n, true) else AtoiResult(-TWO_TO_THE_63, false)
  {
    ScanAny(n);
    AtoiDigits(Decimal(n), n);
  }

  lemma AtoiDigits(d: bytes, n: nat)
    requires d != [] && IsDigit(d[0]) && ScanDigits(d, 0) == if n < TWO_TO_THE_64 then Value(n) else OutOfRange
    ensures Atoi(d) == if n <= MAX_INT64 then AtoiResult(n, true) else AtoiResult(MAX_INT64, false)
    ensures Atoi(['+'] + d) == Atoi(d)
    ensures Atoi(['-'] + d) == if n <= TWO_TO_THE_63 then AtoiResult(0 - n, true) else AtoiResult(-TWO_TO_THE_63, false)
  {
    hide ScanDigits, Atoi;
    AtoiParts(d, '+');
    AtoiParts(d, '-');
  }

  lemma AtoiParts(d: bytes, sign: byte)
    requires d != [] && IsDigit(d[0]) && (sign == '+' || sign == '-')
    ensures var scan := ScanDigits(d, 0);
            && Atoi(d) == Bounded(scan, false) && Atoi([sign] + d) == Bounded(scan, sign == '-')
  {
    hide ScanDigits;
    assert ([sign] + d)[1..] == d;
  }

  /** A text that is not a number, and too short to be out of range first, is a syntax error. */
  lemma {:induction false} AtoiRejects(s: bytes, i: nat)
    requires i < |s| <= 19 && !IsDigit(s[i]) && (i == 0 ==> s[0] != '-' && s[0] != '+')
    ensures Atoi(s) == AtoiResult(0, false)
  {
    if s[0] == '-' || s[0] == '+' {
      ScanRejects(s[1..], i - 1, 0, 0);
    } else {
      ScanRejects(s, i, 0, 0);
    }
  }

  function Power10(k: nat): nat { if k == 0 then 1 else 10 * Power10(k - 1) }

  lemma {:induction false} ScanRejects(s: bytes, i: nat, acc: nat, k: nat)
    requires i < |s| && !IsDigit(s[i]) && acc < Power10(k) && k + |s| <= 19
    ensures ScanDigits(s, acc) == BadSyntax
  {
    if i == 0 {
    } else if IsDigit(s[0]) {
      var v := acc * 10 + DigitValue(s[0]);
      assert v < Power10(k + 1);
      Power10Small(k + 1);
      ScanRejects(s[1..], i - 1, v, k + 1);
    }
  }

  lemma {:induction false} Power10Small(k: nat)
    requires k <= 19
    ensures Power10(k) < TWO_TO_THE_64
    decreases 19 - k
  {
    if k == 19 {
      assert Power10(19) == 10_000_000_000_000_000_000 by { Power10At19(); }
    } else {
      Power10Small(k + 1);
    }
  }

  lemma Power10At19()
    ensures Power10(19) == 10_000_000_000_000_000_000
  {
    assert Power10(5) == 100000;
    assert Power10(10) == 10_000_000_000;
    assert Power10(15) == 1_000_000_000_000_000;
  }

  /** A number has three digits exactly when it lies in 100..999. */
  lemma DecimalLength3(n: nat)
    ensures |Decimal(n)| == 3 <==> 100 <= n <= 999
  {
    if n >= 10 {
      assert |Decimal(n)| == |Decimal(n / 10)| + 1;
      if n >= 100 {
        assert |Decimal(n / 10)| == |Decimal(n / 100)| + 1 by { assert n / 10 / 10 == n / 100; }
        if n >= 1000 { assert |Decimal(n / 100)| == |Decimal(n / 100 / 10)| + 1; }
      }
    }
  }
}
