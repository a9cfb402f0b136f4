/** Header blocks made of CRLF-terminated lines: where the blank line is found, what the header-map
    parser reads, what the byte scanner reads, and when the two agree on Content-Length. */
module HeaderBlock {
  import opened Bytes
  import opened Message

  const CRLF: bytes := "\r\n"
  const END_OF_HEADERS: bytes := "\r\n\r\n"
  const LENGTH_KEY: bytes := "Content-Length"

  function Terminated(lines: seq<bytes>): (s: bytes)
    ensures lines != [] ==> |s| >= 2
  {
    if lines == [] then [] else lines[0] + CRLF + Terminated(lines[1..])
  }

  /** The block the read loop hands to the scanner: the lines without the last CRLF. */
  function BlockOf(lines: seq<bytes>): bytes
    requires lines != []
  {
    if |lines| == 1 then lines[0] else lines[0] + CRLF + BlockOf(lines[1..])
  }

  lemma {:induction false} TerminatedIsBlock(lines: seq<bytes>)
    requires lines != []
    ensures Terminated(lines) == BlockOf(lines) + CRLF
  {
    if |lines| > 1 {
      TerminatedIsBlock(lines[1..]);
    } else {
      assert lines[1..] == [];
    }
  }

  predicate ProperLines(lines: seq<bytes>) {
    forall i | 0 <= i < |lines| :: lines[i] != [] && NoEol(lines[i])
  }

  lemma TerminatedCons(first: bytes, rest: seq<bytes>, tail: bytes)
    ensures Terminated([first] + rest) + tail == first + CRLF + (Terminated(rest) + tail)
  {
    assert ([first] + rest)[1..] == rest;
  }

  lemma {:induction false} TerminatedConcat(a: seq<bytes>, b: seq<bytes>)
    ensures Terminated(a + b) == Terminated(a) + Terminated(b)
  {
    if a == [] {
      assert a + b == b;
    } else {
      assert (a + b)[1..] == a[1..] + b;
      TerminatedConcat(a[1..], b);
    }
  }

  lemma TerminatedSnoc(lines: seq<bytes>, line: bytes)
    ensures Terminated(lines + [line]) == Terminated(lines) + (line + CRLF)
  {
    TerminatedConcat(lines, [line]);
    assert Terminated([line]) == line + CRLF;
  }

  // ---------------------------------------------------------------- the blank line

  lemma NoTerminatorInLine(line: bytes, rest: bytes, i: nat)
    requires NoEol(line) && i < |line| + 2
    requires i == |line| ==> rest != [] && rest[0] != '\r'
    ensures !MatchAt(line + CRLF + rest, END_OF_HEADERS, i)
  {
    Mismatch(line + CRLF + rest, END_OF_HEADERS, i, if i == |line| then 2 else 0);
  }

  lemma EndOfHeadersOne(line: bytes, body: bytes)
    requires NoEol(line)
    ensures IndexOf(line + CRLF + (CRLF + body), END_OF_HEADERS) == |line|
  {
    var s := line + CRLF + (CRLF + body);
    forall i | 0 <= i < |line| ensures !MatchAt(s, END_OF_HEADERS, i) {
      NoTerminatorInLine(line, CRLF + body, i);
    }
    assert s[|line|..|line| + 4] == END_OF_HEADERS;
    IndexOfIs(s, END_OF_HEADERS, |line|);
  }

  lemma EndOfHeadersSkip(line: bytes, rest: bytes)
    requires NoEol(line) && rest != [] && rest[0] != '\r' && IndexOf(rest, END_OF_HEADERS) >= 0
    ensures IndexOf(line + CRLF + rest, END_OF_HEADERS) == |line| + 2 + IndexOf(rest, END_OF_HEADERS)
  {
    forall i | 0 <= i < |line + CRLF| ensures !MatchAt(line + CRLF + rest, END_OF_HEADERS, i) {
      NoTerminatorInLine(line, rest, i);
    }
    IndexAfter(line + CRLF, rest, END_OF_HEADERS);
  }

  /** The end of headers is found after the last line and nowhere earlier. */
  lemma {:induction false} EndOfHeadersAt(lines: seq<bytes>, body: bytes)
    requires lines != [] && ProperLines(lines)
    ensures IndexOf(Terminated(lines) + (CRLF + body), END_OF_HEADERS) == |Terminated(lines)| - 2
  {
    var rest := Terminated(lines[1..]) + (CRLF + body);
    if lines[1..] == [] {
      EndOfHeadersOne(lines[0], body);
      assert lines[0] + CRLF + [] + (CRLF + body) == lines[0] + CRLF + (CRLF + body);
    } else {
      EndOfHeadersAt(lines[1..], body);
      assert rest[0] == lines[1][0];
      EndOfHeadersSkip(lines[0], rest);
      assert Terminated(lines) + (CRLF + body) == lines[0] + CRLF + rest;
    }
  }

  // ---------------------------------------------------------------- the header-map parser

  datatype Block = Block(rest: bytes, headers: Headers, ok: bool)

  /** The header loop of the message parsers: stop at an empty line, fail at a line without colon. */
  function ParseHeaders(buf: bytes, headers: Headers): Block
    decreases |buf|
  {
    var line := FirstLine(buf);
    if line == [] then Block(AfterLine(buf), headers, true)
    else
      match ParseHeader(line)
      case NoColon => Block(AfterLine(buf), headers, false)
      case HeaderLine(k, v) => ParseHeaders(AfterLine(buf), headers[k := v])
  }

  predicate AllHeaders(lines: seq<bytes>) {
    forall i | 0 <= i < |lines| :: ParseHeader(lines[i]).HeaderLine?
  }

  function Fold(lines: seq<bytes>, headers: Headers): Headers
    requires AllHeaders(lines)
  {
    if lines == [] then headers
    else Fold(lines[1..], headers[ParseHeader(lines[0]).key := ParseHeader(lines[0]).value])
  }

  lemma {:induction false} ParseHeadersLines(lines: seq<bytes>, body: bytes, headers: Headers)
    requires ProperLines(lines) && AllHeaders(lines)
    ensures ParseHeaders(Terminated(lines) + (CRLF + body), headers)
         == Block(body, Fold(lines, headers), true)
  {
    if lines == [] {
      SplitCrlf([], body);
      assert Terminated(lines) + (CRLF + body) == [] + CRLF + body;
    } else {
      var rest := Terminated(lines[1..]) + (CRLF + body);
      assert Terminated(lines) + (CRLF + body) == lines[0] + CRLF + rest;
      SplitCrlf(lines[0], rest);
      var h := ParseHeader(lines[0]);
      ParseHeadersLines(lines[1..], body, headers[h.key := h.value]);
    }
  }

  lemma {:induction false} FoldConcat(a: seq<bytes>, b: seq<bytes>, headers: Headers)
    requires AllHeaders(a) && AllHeaders(b)
    ensures AllHeaders(a + b) && Fold(a + b, headers) == Fold(b, Fold(a, headers))
  {
    if a == [] {
      assert a + b == b;
    } else {
      assert (a + b)[1..] == a[1..] + b;
      FoldConcat(a[1..], b, headers[ParseHeader(a[0]).key := ParseHeader(a[0]).value]);
    }
  }

  /** Lines with other keys leave the entry for a key alone. */
  lemma {:induction false} FoldFrame(lines: seq<bytes>, headers: Headers, key: bytes)
    requires AllHeaders(lines)
    requires forall i | 0 <= i < |lines| :: ParseHeader(lines[i]).key != key
    ensures key in Fold(lines, headers) <==> key in headers
    ensures key in headers ==> Fold(lines, headers)[key] == headers[key]
  {
    if lines == [] {
    } else {
      FoldFrame(lines[1..], headers[ParseHeader(lines[0]).key := ParseHeader(lines[0]).value], key);
    }
  }

  /** A block of header lines is read up to its blank line. The value of a key is that of the last line with
      this key, and a key without a line is not there. */
  lemma LastLineWins(lines: seq<bytes>, body: bytes, key: bytes, i: nat)
    requires ProperLines(lines) && AllHeaders(lines) && i <= |lines|
    requires forall j | i < j < |lines| :: ParseHeader(lines[j]).key != key
    requires if i < |lines| then ParseHeader(lines[i]).key == key
             else forall j | 0 <= j < |lines| :: ParseHeader(lines[j]).key != key
    ensures var b := ParseHeaders(Terminated(lines) + (CRLF + body), map[]);
            && b.ok && b.rest == body && (key in b.headers <==> i < |lines|)
            && (i < |lines| ==> b.headers[key] == ParseHeader(lines[i]).value)
  {
    hide ParseHeader, ParseHeaders, Terminated, Fold;
    ParseHeadersLines(lines, body, map[]);
    if i < |lines| {
      FoldConcat(lines[..i], lines[i..], map[]);
      assert lines[..i] + lines[i..] == lines;
      FoldFirst(lines[i..], Fold(lines[..i], map[]), key);
    } else {
      FoldFrame(lines, map[], key);
    }
  }

  lemma FoldFirst(lines: seq<bytes>, headers: Headers, key: bytes)
    requires lines != [] && AllHeaders(lines) && ParseHeader(lines[0]).key == key
    requires forall j | 0 < j < |lines| :: ParseHeader(lines[j]).key != key
    ensures key in Fold(lines, headers) && Fold(lines, headers)[key] == ParseHeader(lines[0]).value
  {
    hide ParseHeader;
    FoldFrame(lines[1..], headers[ParseHeader(lines[0]).key := ParseHeader(lines[0]).value], key);
  }

  /** A line without a colon makes the parser fail, whatever comes before and after it. */
  lemma {:induction false} NoColonFails(lines: seq<bytes>, bad: bytes, rest: bytes, headers: Headers)
    requires ProperLines(lines) && AllHeaders(lines) && bad != [] && NoEol(bad) && ':' !in bad
    ensures !ParseHeaders(Terminated(lines) + (bad + CRLF + rest), headers).ok
    decreases |lines|
  {
    if lines == [] {
      assert Terminated(lines) + (bad + CRLF + rest) == bad + CRLF + rest;
      SplitCrlf(bad, rest);
      IndexOfByte(bad, ':');
    } else {
      var next := Terminated(lines[1..]) + (bad + CRLF + rest);
      assert Terminated(lines) + (bad + CRLF + rest) == lines[0] + CRLF + next;
      SplitCrlf(lines[0], next);
      var h := ParseHeader(lines[0]);
      NoColonFails(lines[1..], bad, rest, headers[h.key := h.value]);
    }
  }

  // ---------------------------------------------------------------- the byte scanner

  function Hit(line: bytes): int { IndexOf(Lower(line), NEEDLE) }

  lemma NoHitInLine(line: bytes, more: bytes, i: nat)
    requires NoEol(line) && Hit(line) < 0 && i < |line| + 2
    ensures !MatchAt(Lower(line) + (CRLF + more), NEEDLE, i)
  {
    var s := Lower(line) + (CRLF + more);
    if i + |NEEDLE| <= |line| {
      MatchAtPrefix(Lower(line), CRLF + more, NEEDLE, i);
    } else {
      var p := if i <= |line| then |line| else |line| + 1;
      Mismatch(s, NEEDLE, i, p - i);
    }
  }

  /** A line without the needle is passed over. */
  lemma ScanSkipsLine(line: bytes, tail: bytes)
    requires NoEol(line) && Hit(line) < 0
    ensures Hit(line + CRLF + tail) == (if Hit(tail) < 0 then -1 else |line| + 2 + Hit(tail))
  {
    var pre := Lower(line) + CRLF;
    assert Lower(line + CRLF + tail) == pre + Lower(tail);
    forall i | 0 <= i < |pre| ensures !MatchAt(pre + Lower(tail), NEEDLE, i) {
      NoHitInLine(line, Lower(tail), i);
      assert pre + Lower(tail) == Lower(line) + (CRLF + Lower(tail));
    }
    IndexAfter(pre, Lower(tail), NEEDLE);
  }

  lemma {:induction false} ScanSkips(before: seq<bytes>, rest: bytes)
    requires forall i | 0 <= i < |before| :: NoEol(before[i]) && Hit(before[i]) < 0
    ensures Hit(Terminated(before) + rest)
         == (if Hit(rest) < 0 then -1 else |Terminated(before)| + Hit(rest))
  {
    if before == [] {
      assert Terminated(before) + rest == rest;
    } else {
      ScanSkips(before[1..], rest);
      ScanSkipsLine(before[0], Terminated(before[1..]) + rest);
      assert Terminated(before) + rest == before[0] + CRLF + (Terminated(before[1..]) + rest);
    }
  }

  /** The text after the needle, up to the end of its line, is what is read as the number. */
  lemma LengthAfterLine(text: bytes, tail: bytes)
    requires NoEol(text)
    requires tail == [] || MatchAt(tail, CRLF, 0)
    ensures LengthAfter(text + tail) == Atoi(TrimSpace(text)).n
  {
    var rest := text + tail;
    forall i | 0 <= i < |text| ensures !MatchAt(rest, CRLF, i) {
      Mismatch(rest, CRLF, i, 0);
    }
    if tail == [] {
      assert rest == text;
      IndexOfNone(rest, CRLF);
    } else {
      MatchAtShift(text, tail, CRLF, 0);
      IndexOfIs(rest, CRLF, |text|);
      assert rest[..|text|] == text;
    }
  }

  lemma HitStays(line: bytes, tail: bytes)
    requires Hit(line) >= 0
    ensures Hit(line + tail) == Hit(line)
  {
    LowerConcat(line, tail);
    IndexOfStable(Lower(line), Lower(tail), NEEDLE);
  }

  lemma ReadFirstHit(pre: bytes, text: bytes, tail: bytes, p: nat)
    requires p + |NEEDLE| <= |text| && NoEol(text)
    requires tail == [] || MatchAt(tail, CRLF, 0)
    ensures LengthAfter((pre + (text + tail))[|pre| + p + |NEEDLE|..])
         == Atoi(TrimSpace(text[p + |NEEDLE|..])).n
  {
    assert (pre + (text + tail))[|pre| + p + |NEEDLE|..] == text[p + |NEEDLE|..] + tail;
    LengthAfterLine(text[p + |NEEDLE|..], tail);
  }

  lemma ContentLengthAt(block: bytes, at: nat)
    requires Hit(block) == at
    ensures at + |NEEDLE| <= |block| && ContentLength(block) == LengthAfter(block[at + |NEEDLE|..])
  {
  }

  lemma ScannerReadsAt(pre: bytes, line: bytes, tail: bytes, p: nat)
    requires NoEol(line) && p + |NEEDLE| <= |line|
    requires Hit(pre + (line + tail)) == |pre| + p
    requires tail == [] || MatchAt(tail, CRLF, 0)
    ensures ContentLength(pre + (line + tail)) == Atoi(TrimSpace(line[p + |NEEDLE|..])).n
  {
    ContentLengthAt(pre + (line + tail), |pre| + p);
    ReadFirstHit(pre, line, tail, p);
  }

  /** The scanner reads the first line that holds the needle, from the needle to the line's end. */
  lemma ScannerReads(before: seq<bytes>, line: bytes, tail: bytes)
    requires forall i | 0 <= i < |before| :: NoEol(before[i]) && Hit(before[i]) < 0
    requires NoEol(line) && Hit(line) >= 0
    requires tail == [] || MatchAt(tail, CRLF, 0)
    ensures ContentLength(Terminated(before) + (line + tail))
         == Atoi(TrimSpace(line[Hit(line) + |NEEDLE|..])).n
  {
    assert Hit(Terminated(before) + (line + tail)) == |Terminated(before)| + Hit(line) by {
      HitStays(line, tail);
      ScanSkips(before, line + tail);
    }
    ScannerReadsAt(Terminated(before), line, tail, Hit(line));
  }

  function TailOf(after: seq<bytes>): bytes {
    if after == [] then [] else CRLF + BlockOf(after)
  }

  lemma {:induction false} BlockSplit(before: seq<bytes>, line: bytes, after: seq<bytes>)
    ensures BlockOf(before + [line] + after) == Terminated(before) + (line + TailOf(after))
  {
    var lines := before + [line] + after;
    if before == [] {
      assert lines[1..] == after && lines[0] == line;
      assert line + [] == line;
      assert line + CRLF + TailOf(after) == line + (CRLF + TailOf(after));
      if after != [] {
        assert line + CRLF + BlockOf(after) == line + (CRLF + BlockOf(after));
      }
      assert Terminated(before) + (line + TailOf(after)) == line + TailOf(after);
    } else {
      assert lines[1..] == before[1..] + [line] + after;
      BlockSplit(before[1..], line, after);
      var rest := line + TailOf(after);
      assert before[0] + CRLF + (Terminated(before[1..]) + rest) == before[0] + CRLF + Terminated(before[1..]) + rest;
    }
  }

  lemma ScannerReadsBlock(before: seq<bytes>, line: bytes, after: seq<bytes>)
    requires forall i | 0 <= i < |before| :: NoEol(before[i]) && Hit(before[i]) < 0
    requires NoEol(line) && Hit(line) >= 0
    ensures ContentLength(BlockOf(before + [line] + after))
         == Atoi(TrimSpace(line[Hit(line) + |NEEDLE|..])).n
  {
    BlockSplit(before, line, after);
    if after != [] { assert TailOf(after)[0..2] == CRLF; }
    ScannerReads(before, line, TailOf(after));
  }

  /** A block none of whose lines holds the needle announces no body. */
  lemma {:induction false} ScannerReadsNothing(lines: seq<bytes>)
    requires lines != []
    requires forall i | 0 <= i < |lines| :: NoEol(lines[i]) && Hit(lines[i]) < 0
    ensures Hit(BlockOf(lines)) == -1 && ContentLength(BlockOf(lines)) == 0
  {
    if |lines| == 1 {
    } else {
      ScannerReadsNothing(lines[1..]);
      ScanSkipsLine(lines[0], BlockOf(lines[1..]));
    }
  }

  // ---------------------------------------------------------------- the two parsers

  /** The line that declares the length: its key, with no space before the colon, and its value. */
  predicate DeclaresLength(line: bytes, value: bytes) {
    |line| >= |NEEDLE| && Lower(line[..|NEEDLE|]) == NEEDLE && line[|NEEDLE|..] == value
  }

  lemma LengthLine(line: bytes, value: bytes)
    requires DeclaresLength(line, value)
    ensures Hit(line) == 0
    ensures ParseHeader(line) == HeaderLine(LENGTH_KEY, Normalize(value))
  {
    var n := |NEEDLE| - 1;
    assert Lower(line)[0..|NEEDLE|] == Lower(line[..|NEEDLE|]);
    IndexOfIs(Lower(line), NEEDLE, 0);
    assert line[n..n + 1] == ":" by {
      assert LowerByte(line[n]) == Lower(line[..|NEEDLE|])[n] == ':';
    }
    forall i | 0 <= i < n ensures !MatchAt(line, ":", i) {
      assert LowerByte(line[i]) == Lower(line[..|NEEDLE|])[i] == NEEDLE[i];
      Mismatch(line, ":", i, 0);
    }
    IndexOfIs(line, ":", n);
    var key := line[..n];
    assert Lower(key) == "content-length" by {
      assert Lower(key) == Lower(line[..|NEEDLE|])[..n];
    }
    assert Lower(LENGTH_KEY) == "content-length";
    assert !IsSpace(LowerByte(key[0])) && !IsSpace(LowerByte(key[n - 1])) by {
      assert LowerByte(key[0]) == Lower(key)[0] && LowerByte(key[n - 1]) == Lower(key)[n - 1];
    }
    TrimSpaceTrimmed(key);
    TrimSpaceTrimmed(LENGTH_KEY);
    CanonicalKeysAgree(key, LENGTH_KEY);
    CanonicalLengthKey();
  }

  lemma CanonicalLengthKey()
    ensures CanonicalKey(LENGTH_KEY) == LENGTH_KEY
  {
    TrimSpaceTrimmed(LENGTH_KEY);
    forall i | 0 <= i < |LENGTH_KEY| ensures CanonByte(LENGTH_KEY, i) == LENGTH_KEY[i] {
    }
  }

  /** A line that neither parser takes for the length. */
  predicate Neutral(line: bytes) {
    Hit(line) < 0 && !(ParseHeader(line).HeaderLine? && ParseHeader(line).key == LENGTH_KEY)
  }

  lemma MapReading(before: seq<bytes>, line: bytes, value: bytes, after: seq<bytes>)
    requires DeclaresLength(line, value) && AllHeaders(before) && AllHeaders(after)
    requires forall i | 0 <= i < |after| :: Neutral(after[i])
    ensures AllHeaders(before + [line] + after)
    ensures Lookup(Fold(before + [line] + after, map[]), LENGTH_KEY) == Normalize(value)
  {
    hide DeclaresLength, Hit, Normalize, CanonicalKey, ParseHeader, IndexOf;
    LengthLine(line, value);
    CanonicalLengthKey();
    FoldConcat(before, [line], map[]);
    FoldConcat(before + [line], after, map[]);
    FoldFrame(after, Fold(before + [line], map[]), LENGTH_KEY);
  }

  lemma ScanReading(status: bytes, before: seq<bytes>, line: bytes, value: bytes, after: seq<bytes>)
    requires NoEol(status) && Hit(status) < 0 && NoEol(line) && DeclaresLength(line, value)
    requires forall i | 0 <= i < |before| :: NoEol(before[i]) && Hit(before[i]) < 0
    ensures ContentLength(BlockOf([status] + before + [line] + after)) == Atoi(TrimSpace(value)).n
  {
    LengthLine(line, value);
    ScannerReadsBlock([status] + before, line, after);
  }

  /** With one declaring line and only neutral lines around it, the scanner reads the trimmed value
      and the header map holds the normalised one. */
  lemma TwoReadings(status: bytes, before: seq<bytes>, line: bytes, value: bytes, after: seq<bytes>)
    requires NoEol(status) && Hit(status) < 0 && NoEol(line) && DeclaresLength(line, value)
    requires ProperLines(before) && AllHeaders(before) && AllHeaders(after)
    requires forall i | 0 <= i < |before| :: Neutral(before[i])
    requires forall i | 0 <= i < |after| :: Neutral(after[i])
    ensures AllHeaders(before + [line] + after)
    ensures ContentLength(BlockOf([status] + before + [line] + after)) == Atoi(TrimSpace(value)).n
    ensures Lookup(Fold(before + [line] + after, map[]), LENGTH_KEY) == Normalize(value)
  {
    ScanReading(status, before, line, value, after);
    MapReading(before, line, value, after);
  }

  predicate AllDigits(s: bytes) { forall i | 0 <= i < |s| :: IsDigit(s[i]) }

  /** For a value written as blanks, a positive number and blanks, the scanner always reads the
      number; the header map reads it exactly when no space follows it (tabs are dropped, spaces
      are kept and spoil the number, which then counts as zero). */
  lemma LengthReadings(lead: bytes, digits: bytes, trail: bytes)
    requires AllBlank(lead) && AllBlank(trail) && AllDigits(digits) && Atoi(digits).n > 0
    ensures Atoi(TrimSpace(lead + digits + trail)).n == Atoi(digits).n
    ensures ' ' !in trail ==> Atoi(Normalize(lead + digits + trail)) == Atoi(digits)
    ensures ' ' in trail && Atoi(digits).ok ==> Atoi(Normalize(lead + digits + trail)).n == 0
  {
    var v := lead + digits + trail;
    assert digits != [];
    assert v == lead + (digits + trail);
    TrimLeftOver(lead, digits + trail);
    TrimRightOver(digits, trail);
    assert TrimLeft(digits + trail) == digits + trail;
    SkipBlanksOver(lead, digits + trail);
    ScanDigitsThen(digits, trail);
    var rest := ScanValue(trail, false);
    SpacesRemain(trail);
    if ' ' !in trail {
      assert digits + rest == digits;
    } else if Atoi(digits).ok {
      ScanStops(digits, rest, 0);
    }
  }

  lemma {:induction false} ScanDigitsThen(digits: bytes, rest: bytes)
    requires AllDigits(digits)
    ensures ScanValue(digits + rest, false) == digits + ScanValue(rest, false)
  {
    if digits == [] {
      assert digits + rest == rest;
    } else {
      assert (digits + rest)[1..] == digits[1..] + rest;
      ScanDigitsThen(digits[1..], rest);
      assert digits == [digits[0]] + digits[1..];
    }
  }

  lemma {:induction false} SpacesRemain(trail: bytes)
    requires AllBlank(trail)
    ensures ' ' !in trail ==> ScanValue(trail, false) == []
    ensures ' ' in trail ==> ScanValue(trail, false) != [] && ScanValue(trail, false)[0] == ' '
  {
    if trail == [] {
    } else {
      assert trail == [trail[0]] + trail[1..];
      SpacesRemain(trail[1..]);
    }
  }

  lemma {:induction false} ScanStops(digits: bytes, rest: bytes, acc: nat)
    requires rest != [] && !IsDigit(rest[0]) && ScanDigits(digits, acc).Value?
    ensures ScanDigits(digits + rest, acc) == BadSyntax
  {
    if digits == [] {
      assert digits + rest == rest;
    } else {
      assert (digits + rest)[1..] == digits[1..] + rest;
      ScanStops(digits[1..], rest, acc * 10 + DigitValue(digits[0]));
    }
  }
}
