/** RTSP responses: the status-line and message parsers, the printer, and the exact set of responses
    that survive printing and parsing. */
module Response {
  import opened Bytes
  import opened Message
  import opened HeaderBlock

  // ---------------------------------------------------------------- the status line

  /** `string(b)` of a single byte: the UTF-8 encoding of the code point with that number, so a
      byte of 128 or more becomes two bytes. */
  function Utf8Byte(c: byte): bytes {
    if (c as int) < 128 then [c]
    else [ToByte(0xC0 + (c as int) / 64), ToByte(0x80 + (c as int) % 64)]
  }

  function Utf8(s: bytes): bytes {
    if s == [] then [] else Utf8(s[..|s| - 1]) + Utf8Byte(s[|s| - 1])
  }

  predicate NoBlank(s: bytes) { forall i | 0 <= i < |s| :: !IsBlank(s[i]) }

  function BlankIndex(s: bytes): (i: nat)
    ensures i <= |s| && NoBlank(s[..i]) && (i < |s| ==> IsBlank(s[i]))
  {
    if s == [] || IsBlank(s[0]) then 0 else 1 + BlankIndex(s[1..])
  }

  /** The text from position `i` on; nothing when `i` is past the end. */
  function From(s: bytes, i: nat): bytes { if i <= |s| then s[i..] else [] }

  datatype StatusLine = StatusLine(status: bytes, version: bytes, code: int, ok: bool)

  /** The code field: a text of three characters is a number, any other text counts as zero. */
  function CodeOf(text: bytes): AtoiResult {
    if |text| == 3 then Atoi(text) else AtoiResult(0, true)
  }

  /** The verdict on the three fields of a status line. */
  function StatusOf(version: bytes, text: bytes, reason: bytes): StatusLine {
    var n := CodeOf(text);
    if !n.ok then StatusLine("", version, n.n, false)
    else StatusLine(reason, version, n.n, reason != "" && n.n != 0 && version != "")
  }

  function WordAt(s: bytes, i: nat): bytes { From(s, i)[..BlankIndex(From(s, i))] }

  function NextWord(s: bytes, i: nat): nat { i + BlankIndex(From(s, i)) + 1 }

  function ReasonAt(s: bytes, i: nat): bytes { From(s, i)[..EolIndex(From(s, i))] }

  function ParseStatusLine(s: bytes): StatusLine {
    var i := NextWord(s, 0);
    var j := NextWord(s, i);
    StatusOf(Utf8(WordAt(s, 0)), Utf8(WordAt(s, i)), Utf8(ReasonAt(s, j)))
  }

  /** `%d` of an int. */
  function FormatInt(n: int): bytes {
    if n < 0 then "-" + Decimal(-n) else Decimal(n)
  }

  lemma {:induction false} BlankIndexIs(s: bytes, i: nat)
    requires i <= |s| && NoBlank(s[..i]) && (i < |s| ==> IsBlank(s[i]))
    ensures BlankIndex(s) == i
  {
    if i == 0 {
    } else {
      assert !IsBlank(s[..i][0]) && s[1..][..i - 1] == s[..i][1..];
      BlankIndexIs(s[1..], i - 1);
    }
  }

  lemma CutAtBlank(word: bytes, rest: bytes)
    requires NoBlank(word)
    ensures BlankIndex(word + " " + rest) == |word|
    ensures (word + " " + rest)[..|word|] == word && From(word + " " + rest, |word| + 1) == rest
  {
    var s := word + " " + rest;
    assert s[..|word|] == word;
    BlankIndexIs(s, |word|);
    assert s[|word| + 1..] == rest;
  }

  /** Re-encoding keeps exactly the ASCII texts. */
  lemma {:induction false} Utf8Ascii(s: bytes)
    ensures |Utf8(s)| >= |s|
    ensures |Utf8(s)| == |s| <==> IsAscii(s)
    ensures IsAscii(s) ==> Utf8(s) == s
  {
    if s == [] {
    } else {
      Utf8Ascii(s[..|s| - 1]);
      assert s == s[..|s| - 1] + [s[|s| - 1]];
    }
  }

  /** Re-encoding never makes a blank or a line end. */
  lemma {:induction false} Utf8Clean(s: bytes)
    ensures NoBlank(s) ==> NoBlank(Utf8(s))
    ensures NoEol(s) ==> NoEol(Utf8(s))
  {
    if s == [] {
    } else {
      Utf8Clean(s[..|s| - 1]);
      var last := Utf8Byte(s[|s| - 1]);
      assert !IsBlank(s[|s| - 1]) ==> NoBlank(last);
      assert !IsEol(s[|s| - 1]) ==> NoEol(last);
    }
  }

  lemma FormatIntFacts(n: int)
    ensures NoBlank(FormatInt(n)) && NoEol(FormatInt(n)) && IsAscii(FormatInt(n))
    ensures |FormatInt(n)| == 3 <==> (100 <= n <= 999 || -99 <= n <= -10)
    ensures -MAX_INT64 <= n <= MAX_INT64 ==> Atoi(FormatInt(n)) == AtoiResult(n, true)
  {
    if n >= 0 {
      DecimalLength3(n);
      if n <= MAX_INT64 { AtoiDecimal(n); }
    } else {
      DecimalLength2(-n);
      assert FormatInt(n)[1..] == Decimal(-n);
      if -n <= MAX_INT64 { ScanDecimal(-n); }
    }
  }

  lemma DecimalLength2(n: nat)
    ensures |Decimal(n)| == 2 <==> 10 <= n <= 99
  {
    if n >= 10 {
      assert |Decimal(n)| == |Decimal(n / 10)| + 1;
      if n >= 100 { assert |Decimal(n / 10)| == |Decimal(n / 10 / 10)| + 1; }
    }
  }

  predicate StatusLineOk(version: bytes, code: int, status: bytes) {
    && version != "" && NoBlank(version) && IsAscii(version)
    && (100 <= code <= 999 || -99 <= code <= -10)
    && status != "" && NoEol(status) && IsAscii(status)
  }

  lemma ParsePrintedStatus(version: bytes, code: int, status: bytes)
    requires NoBlank(version) && NoEol(status)
    ensures ParseStatusLine(version + " " + FormatInt(code) + " " + status)
         == StatusOf(Utf8(version), FormatInt(code), Utf8(status))
  {
    hide FormatInt, Utf8, CodeOf;
    var text := FormatInt(code);
    var s := version + " " + text + " " + status;
    assert s == version + " " + (text + " " + status);
    assert From(s, 0) == s;
    FormatIntFacts(code);
    CutAtBlank(version, text + " " + status);
    CutAtBlank(text, status);
    var i := |version| + 1;
    assert From(s, i) == text + " " + status;
    assert From(s, i + |text| + 1) == status;
    assert status[..|status|] == status;
    EolIndexIs(status, |status|);
    Utf8Ascii(text);
  }

  /** A printed status line is read back as it was exactly when the version is a non-empty ASCII
      word, the code prints with three characters and the reason is non-empty ASCII text. */
  lemma StatusLineRoundTrip(version: bytes, code: int, status: bytes)
    ensures (ParseStatusLine(version + " " + FormatInt(code) + " " + status)
             == StatusLine(status, version, code, true)) <==> StatusLineOk(version, code, status)
  {
    hide ParseStatusLine, FormatInt, Utf8, Atoi;
    ParseStatusFacts(version + " " + FormatInt(code) + " " + status);
    if NoBlank(version) && NoEol(status) {
      ParsePrintedStatus(version, code, status);
      FormatIntFacts(code);
      Utf8Ascii(version);
      Utf8Ascii(status);
    }
  }

  /** What a status line of three parts gives, whatever the parts are, in ASCII: the version is the first
      word; the code is the number in the second, which counts only with three characters; the reason is
      all the rest. It is accepted if and only if none of them is missing and the code is a number other
      than zero. A code that is not a number ends the parse before the reason is read. */
  lemma StatusLineParts(version: bytes, b: byte, text: bytes, d: byte, reason: bytes)
    requires NoBlank(version) && IsBlank(b) && NoBlank(text) && IsBlank(d) && NoEol(reason)
    requires IsAscii(version) && IsAscii(text) && IsAscii(reason)
    ensures var line := ParseStatusLine(version + ([b] + (text + ([d] + reason))));
            && line.version == version
            && line.code == (if |text| == 3 then Atoi(text).n else 0)
            && line.status == (if |text| == 3 && !Atoi(text).ok then "" else reason)
            && (line.ok <==> version != "" && reason != "" && |text| == 3 && Atoi(text).ok && Atoi(text).n != 0)
  {
    hide Utf8, Atoi, BlankIndex, EolIndex;
    var u := text + ([d] + reason);
    var s := version + ([b] + u);
    CutOff(version, b, u);
    CutOff(text, d, reason);
    var i := |version| + 1;
    FromFrom(s, i, |text| + 1);
    assert From(s, 0) == s && reason[..|reason|] == reason;
    EolIndexIs(reason, |reason|);
    Utf8Ascii(version);
    Utf8Ascii(text);
    Utf8Ascii(reason);
  }

  lemma CutOff(word: bytes, b: byte, rest: bytes)
    requires NoBlank(word) && IsBlank(b)
    ensures var s := word + ([b] + rest); BlankIndex(s) == |word| && s[..|word|] == word && From(s, |word| + 1) == rest
  {
    var s := word + ([b] + rest);
    assert s[..|word|] == word;
    BlankIndexIs(s, |word|);
  }

  lemma FromFrom(s: bytes, i: nat, k: nat)
    requires i + k <= |s|
    ensures From(From(s, i), k) == From(s, i + k)
  {
  }

  /** With fewer than three parts the line is refused. */
  lemma StatusLineTooShort(word: bytes, b: byte, text: bytes)
    requires NoBlank(word) && IsBlank(b) && NoBlank(text)
    ensures !ParseStatusLine(word).ok && !ParseStatusLine(word + ([b] + text)).ok
  {
    var s := word + ([b] + text);
    assert word[..|word|] == word && From(word, 0) == word && From(s, 0) == s && s[..|word|] == word;
    BlankIndexIs(word, |word|);
    BlankIndexIs(s, |word|);
    assert From(s, |word| + 1) == text && text[..|text|] == text;
    BlankIndexIs(text, |text|);
  }

  lemma ParseStatusFacts(s: bytes)
    ensures NoBlank(ParseStatusLine(s).version) && NoEol(ParseStatusLine(s).status)
    ensures NoEol(s) ==> NoEol(ParseStatusLine(s).version)
  {
    Utf8Clean(WordAt(s, 0));
    Utf8Clean(ReasonAt(s, NextWord(s, NextWord(s, 0))));
  }

  // ---------------------------------------------------------------- messages

  datatype Resp = Resp(status: bytes, version: bytes, code: int, headers: Headers, body: bytes)

  datatype Parsed = Parsed(resp: Resp, ok: bool)

  /** What `NewResponse(400, "Bad request")` starts from. */
  const FRESH: Resp := Resp("Bad request", "RTSP/1.0", 400, map[], "")

  function BodyFrom(rest: bytes, lengthText: bytes, initial: bytes): bytes {
    var n := Atoi(lengthText).n;
    if lengthText == "" || n <= 0 then initial
    else if n <= |rest| then rest[..n] else rest
  }

  function ParseInto(init: Resp, buf: bytes): Parsed {
    var line := ParseStatusLine(FirstLine(buf));
    var r1 := init.(status := line.status, version := line.version, code := line.code);
    if !line.ok then Parsed(r1, false)
    else
      var block := ParseHeaders(AfterLine(buf), init.headers);
      var r2 := r1.(headers := block.headers);
      if !block.ok then Parsed(r2, false)
      else Parsed(r2.(body := BodyFrom(block.rest, Lookup(block.headers, LENGTH_KEY), r1.body)), true)
  }

  function StatusText(r: Resp): bytes { r.version + " " + FormatInt(r.code) + " " + r.status }

  function HeaderText(key: bytes, value: bytes): bytes { key + ": " + value }

  /** The header lines in the order in which the map happened to be ranged over. */
  function HeaderLines(headers: Headers, order: seq<bytes>): (lines: seq<bytes>)
    requires forall i | 0 <= i < |order| :: order[i] in headers
    ensures |lines| == |order|
    ensures forall i | 0 <= i < |order| :: lines[i] == HeaderText(order[i], headers[order[i]])
  {
    seq(|order|, i requires 0 <= i < |order| => HeaderText(order[i], headers[order[i]]))
  }

  /** Each key once, in any order. */
  predicate IsOrder(order: seq<bytes>, headers: Headers) {
    && (forall i | 0 <= i < |order| :: order[i] in headers)
    && (forall k | k in headers :: k in order)
    && (forall i, j | 0 <= i < j < |order| :: order[i] != order[j])
  }

  function Lines(r: Resp, order: seq<bytes>): seq<bytes>
    requires IsOrder(order, r.headers)
  {
    [StatusText(r)] + HeaderLines(r.headers, order)
  }

  function Print(r: Resp, order: seq<bytes>): bytes
    requires IsOrder(order, r.headers)
  {
    Terminated(Lines(r, order)) + (CRLF + r.body)
  }

  lemma PrintNone(status: bytes, headers: Headers)
    ensures Terminated([status] + HeaderLines(headers, [])) == status + CRLF
  {
    TerminatedCons(status, HeaderLines(headers, []), []);
  }

  lemma PrintOneMore(status: bytes, headers: Headers, order: seq<bytes>, key: bytes)
    requires key in headers && forall i | 0 <= i < |order| :: order[i] in headers
    ensures Terminated([status] + HeaderLines(headers, order + [key]))
         == Terminated([status] + HeaderLines(headers, order)) + (HeaderText(key, headers[key]) + CRLF)
  {
    hide Terminated;
    var lines := [status] + HeaderLines(headers, order);
    TerminatedSnoc(lines, HeaderText(key, headers[key]));
    assert [status] + HeaderLines(headers, order + [key]) == lines + [HeaderText(key, headers[key])];
  }

  lemma ParsedKeyCanonical(line: bytes)
    requires ParseHeader(line).HeaderLine?
    ensures CanonicalKey(ParseHeader(line).key) == ParseHeader(line).key
  {
    CanonicalKeyIdempotent(line[..IndexOf(line, ":")]);
  }

  // ---------------------------------------------------------------- the class

  class Response {
    var status: bytes
    var protocolVersion: bytes
    var code: int
    var headers: Headers
    var body: bytes

    function Value(): Resp
      reads this
    {
      Resp(status, protocolVersion, code, headers, body)
    }

    constructor (code: int, status: bytes, protocolVersion: bytes)
      ensures Value() == Resp(status, protocolVersion, code, map[], "")
    {
      this.code := code;
      this.status := status;
      this.protocolVersion := protocolVersion;
      headers := map[];
      body := "";
    }

    method ParseStatus(buffer: bytes) returns (ok: bool)
      modifies this
      ensures StatusLine(status, protocolVersion, code, ok) == ParseStatusLine(buffer)
      ensures headers == old(headers) && body == old(body)
    {
      var line := ReadStatus(buffer);
      status, protocolVersion, code := line.status, line.version, line.code;
      ok := line.ok;
    }

    method ParseResponse(buffer: bytes) returns (ok: bool)
      modifies this
      ensures CanonicalMap(old(headers)) ==> Parsed(Value(), ok) == ParseInto(old(Value()), buffer)
    {
      hide ParseStatusLine, FirstLine, ParseHeader, Atoi, Lookup, CanonicalKey;
      var next, thisLine := SharedLineSplit(buffer);
      ok := ParseStatus(thisLine);
      if !ok {
        return false;
      }
      ghost var initial, after := headers, next;
      while true
        invariant Value() == old(Value()).(status := status, version := protocolVersion,
                                           code := code, headers := headers)
        invariant status == ParseStatusLine(FirstLine(buffer)).status
        invariant protocolVersion == ParseStatusLine(FirstLine(buffer)).version
        invariant code == ParseStatusLine(FirstLine(buffer)).code
        invariant CanonicalMap(initial) ==> CanonicalMap(headers)
        invariant ParseHeaders(next, headers) == ParseHeaders(after, initial)
        decreases |next|
      {
        next, thisLine := SharedLineSplit(next);
        if thisLine == "" {
          break;
        }
        var h := SharedParseHeader(thisLine);
        if h.NoColon? {
          return false;
        }
        ParsedKeyCanonical(thisLine);
        headers := headers[h.key := h.value];
      }
      var contentLengthRaw := HeaderGet(headers, LENGTH_KEY);
      if CanonicalMap(initial) { HeaderGetIsCaseInsensitive(headers, LENGTH_KEY, contentLengthRaw); }
      if contentLengthRaw != "" {
        var contentLength := Atoi(contentLengthRaw).n;
        if contentLength > 0 {
          if contentLength <= |next| {
            body := next[..contentLength];
          } else {
            body := next;
          }
        }
      }
    }

    method String() returns (res: bytes, ghost order: seq<bytes>)
      ensures IsOrder(order, headers) && res == Print(Value(), order)
    {
      hide FormatInt, Terminated, HeaderLines;
      PrintNone(StatusText(Value()), headers);
      res := protocolVersion + " " + FormatInt(code) + " " + status + CRLF;
      order := [];
      var todo := headers.Keys;
      while todo != {}
        invariant todo <= headers.Keys
        invariant forall i | 0 <= i < |order| :: order[i] in headers && order[i] !in todo
        invariant forall k | k in headers :: k in order || k in todo
        invariant forall i, j | 0 <= i < j < |order| :: order[i] != order[j]
        invariant res == Terminated([StatusText(Value())] + HeaderLines(headers, order))
      {
        var key :| key in todo;
        var line := key + ": " + headers[key];
        PrintOneMore(StatusText(Value()), headers, order, key);
        res := res + (line + CRLF);
        order := order + [key];
        todo := todo - {key};
      }
      ghost var printed := res;
      res := res + CRLF;
      assert res + body == printed + (CRLF + body);
      if body != "" {
        res := res + body;
      } else {
        assert res + body == res;
      }
    }
  }

  /** The loop that copies one blank-delimited word, re-encoding each byte. */
  method TakeWord(buffer: bytes, from: nat) returns (word: bytes, i: nat)
    ensures i + 1 == NextWord(buffer, from) && word == Utf8(WordAt(buffer, from))
  {
    hide Utf8Byte;
    ghost var text := From(buffer, from);
    i := from;
    word := "";
    while i < |buffer| && buffer[i] != ' ' && buffer[i] != '\t'
      invariant from <= i <= from + |text|
      invariant word == Utf8(text[..i - from]) && NoBlank(text[..i - from])
    {
      assert text[..i + 1 - from][..i - from] == text[..i - from];
      word := word + Utf8Byte(buffer[i]);
      i := i + 1;
    }
    BlankIndexIs(text, i - from);
  }

  /** The loop that copies the reason up to the line end. */
  method TakeReason(buffer: bytes, from: nat) returns (reason: bytes)
    ensures reason == Utf8(ReasonAt(buffer, from))
  {
    hide Utf8Byte;
    ghost var text := From(buffer, from);
    var i := from;
    reason := "";
    while i < |buffer| && buffer[i] != '\r' && buffer[i] != '\n'
      invariant from <= i <= from + |text|
      invariant reason == Utf8(text[..i - from]) && NoEol(text[..i - from])
    {
      assert text[..i + 1 - from][..i - from] == text[..i - from];
      reason := reason + Utf8Byte(buffer[i]);
      i := i + 1;
    }
    EolIndexIs(text, i - from);
  }

  /** The three loops over the status line and the checks on what they collected. */
  method ReadStatus(buffer: bytes) returns (line: StatusLine)
    ensures line == ParseStatusLine(buffer)
  {
    hide Utf8, From, BlankIndex, EolIndex, CodeOf;
    var version, i := TakeWord(buffer, 0);
    var text, j := TakeWord(buffer, i + 1);
    var reason := TakeReason(buffer, j + 1);
    line := StatusOf(version, text, reason);
  }

  /** A response made from received text starts out as a 400. */
  method NewResponseFromBuffer(buffer: bytes) returns (response: Response, ok: bool)
    ensures fresh(response)
    ensures buffer == "" ==> ok && response.Value() == FRESH
    ensures buffer != "" ==> Parsed(response.Value(), ok) == ParseInto(FRESH, buffer)
  {
    response := new Response(400, "Bad request", "RTSP/1.0");
    ok := true;
    if buffer != "" {
      ok := response.ParseResponse(buffer);
    }
  }

  // ---------------------------------------------------------------- round trip

  predicate HeaderOk(key: bytes, value: bytes) {
    ':' !in key && CanonicalKey(key) == key && NoEol(key) && Normalize(value) == value
  }

  predicate HeadersOk(headers: Headers) {
    forall k | k in headers :: HeaderOk(k, headers[k])
  }

  /** A body needs a Content-Length that is at least its size. */
  predicate BodyOk(r: Resp) {
    r.body == "" || (LENGTH_KEY in r.headers && Atoi(r.headers[LENGTH_KEY]).n >= |r.body|)
  }

  predicate ReadsBack(r: Resp) {
    && StatusLineOk(r.version, r.code, r.status) && NoEol(r.version)
    && HeadersOk(r.headers) && BodyOk(r)
  }

  /** The lines parse to the entries of the map, in the given order. */
  predicate Spells(lines: seq<bytes>, order: seq<bytes>, headers: Headers) {
    && |lines| == |order|
    && forall i | 0 <= i < |lines| :: order[i] in headers
         && lines[i] != [] && NoEol(lines[i])
         && ParseHeader(lines[i]) == HeaderLine(order[i], headers[order[i]])
  }

  lemma HeaderLinesSpell(headers: Headers, order: seq<bytes>)
    requires IsOrder(order, headers) && HeadersOk(headers)
    ensures Spells(HeaderLines(headers, order), order, headers)
  {
    forall i | 0 <= i < |order|
      ensures HeaderText(order[i], headers[order[i]]) != [] && NoEol(HeaderText(order[i], headers[order[i]]))
      ensures ParseHeader(HeaderText(order[i], headers[order[i]])) == HeaderLine(order[i], headers[order[i]])
    {
      HeaderTextOk(order[i], headers[order[i]]);
    }
  }

  lemma HeaderTextOk(key: bytes, value: bytes)
    requires HeaderOk(key, value)
    ensures HeaderText(key, value) != [] && NoEol(HeaderText(key, value))
    ensures ParseHeader(HeaderText(key, value)) == HeaderLine(key, value)
  {
    HeaderLineRoundTrip(key, value);
    HeaderTextClean(key, value);
  }

  lemma HeaderTextClean(key: bytes, value: bytes)
    requires NoEol(key) && Normalize(value) == value
    ensures HeaderText(key, value) != [] && NoEol(HeaderText(key, value))
  {
    NormalizeIdempotentIff(value);
  }

  lemma {:induction false} FoldSpelled(lines: seq<bytes>, order: seq<bytes>, headers: Headers, acc: Headers)
    requires Spells(lines, order, headers)
    ensures AllHeaders(lines)
    ensures forall k :: k in Fold(lines, acc) <==> k in order || k in acc
    ensures forall k | k in order :: Fold(lines, acc)[k] == headers[k]
    ensures forall k | k in acc && k !in order :: Fold(lines, acc)[k] == acc[k]
  {
    if lines == [] {
    } else {
      assert ParseHeader(lines[0]) == HeaderLine(order[0], headers[order[0]]);
      assert order == [order[0]] + order[1..];
      FoldSpelled(lines[1..], order[1..], headers, acc[order[0] := headers[order[0]]]);
    }
  }

  lemma FoldWhole(lines: seq<bytes>, order: seq<bytes>, headers: Headers)
    requires Spells(lines, order, headers) && IsOrder(order, headers)
    ensures AllHeaders(lines) && ProperLines(lines) && Fold(lines, map[]) == headers
  {
    FoldSpelled(lines, order, headers, map[]);
  }

  /** What the parser makes of a printed response whose header lines are in order: the map comes
      back whole, for every order of printing, and the body is cut by Content-Length. */
  lemma ParsePrinted(r: Resp, order: seq<bytes>)
    requires IsOrder(order, r.headers) && HeadersOk(r.headers)
    requires NoEol(r.version) && NoEol(r.status)
    ensures FirstLine(Print(r, order)) == StatusText(r)
    ensures ParseHeaders(AfterLine(Print(r, order)), map[]) == Block(r.body, r.headers, true)
  {
    hide Print, ParseHeaders, FirstLine, AfterLine, Terminated, FormatInt;
    PrintSplit(r, order);
    assert NoEol(StatusText(r)) by { FormatIntFacts(r.code); }
    SplitCrlf(StatusText(r), Terminated(HeaderLines(r.headers, order)) + (CRLF + r.body));
    HeadersReadBack(r, order);
  }

  lemma HeadersReadBack(r: Resp, order: seq<bytes>)
    requires IsOrder(order, r.headers) && HeadersOk(r.headers)
    ensures ParseHeaders(Terminated(HeaderLines(r.headers, order)) + (CRLF + r.body), map[])
         == Block(r.body, r.headers, true)
  {
    HeaderLinesSpell(r.headers, order);
    SpelledReadBack(HeaderLines(r.headers, order), order, r.headers, r.body);
  }

  lemma SpelledReadBack(lines: seq<bytes>, order: seq<bytes>, headers: Headers, body: bytes)
    requires Spells(lines, order, headers) && IsOrder(order, headers)
    ensures ParseHeaders(Terminated(lines) + (CRLF + body), map[]) == Block(body, headers, true)
  {
    FoldWhole(lines, order, headers);
    ParseHeadersLines(lines, body, map[]);
  }

  lemma PrintSplit(r: Resp, order: seq<bytes>)
    requires IsOrder(order, r.headers)
    ensures Print(r, order)
         == StatusText(r) + CRLF + (Terminated(HeaderLines(r.headers, order)) + (CRLF + r.body))
  {
    TerminatedCons(StatusText(r), HeaderLines(r.headers, order), CRLF + r.body);
  }

  lemma {:induction false} ParsedHeadersOk(buf: bytes, headers: Headers)
    requires HeadersOk(headers)
    ensures HeadersOk(ParseHeaders(buf, headers).headers)
    decreases |buf|
  {
    var line := FirstLine(buf);
    if line == [] || !ParseHeader(line).HeaderLine? {
    } else {
      var c := IndexOf(line, ":");
      CanonicalKeyOk(line, c);
      NormalizeIdempotent(line[c + 1..]);
      ParsedHeadersOk(AfterLine(buf), headers[ParseHeader(line).key := ParseHeader(line).value]);
    }
  }

  lemma CanonicalKeyOk(line: bytes, c: nat)
    requires NoEol(line) && c == IndexOf(line, ":")
    ensures ':' !in CanonicalKey(line[..c]) && NoEol(CanonicalKey(line[..c]))
    ensures CanonicalKey(CanonicalKey(line[..c])) == CanonicalKey(line[..c])
  {
    var raw := line[..c];
    IndexOfByte(line, ':');
    CanonicalKeyIdempotent(raw);
    TrimKeeps(raw);
    forall i | 0 <= i < |CanonicalKey(raw)| ensures CanonicalKey(raw)[i] != ':' && !IsEol(CanonicalKey(raw)[i]) {
      assert TrimSpace(raw)[i] in raw;
    }
  }

  lemma {:induction false} TrimKeeps(s: bytes)
    ensures forall i | 0 <= i < |TrimLeft(s)| :: TrimLeft(s)[i] in s
    ensures forall i | 0 <= i < |TrimSpace(s)| :: TrimSpace(s)[i] in s
  {
    if s == [] || !IsSpace(s[0]) {
    } else {
      TrimKeeps(s[1..]);
    }
  }

  /** Whatever the parser accepts has printable headers and no line end in its status line. */
  lemma ParsedIsClean(buf: bytes)
    requires ParseInto(FRESH, buf).ok
    ensures var r := ParseInto(FRESH, buf).resp;
            HeadersOk(r.headers) && NoEol(r.version) && NoEol(r.status)
  {
    ParseStatusFacts(FirstLine(buf));
    ParsedHeadersOk(AfterLine(buf), map[]);
  }

  lemma CleanRoundTrip(r: Resp, order: seq<bytes>)
    requires IsOrder(order, r.headers)
    requires HeadersOk(r.headers) && NoEol(r.version) && NoEol(r.status)
    ensures ParseInto(FRESH, Print(r, order)) == Parsed(r, true) <==> ReadsBack(r)
  {
    ParsePrinted(r, order);
    StatusLineRoundTrip(r.version, r.code, r.status);
    BodyReadsBack(r);
  }

  lemma BodyReadsBack(r: Resp)
    ensures BodyFrom(r.body, Lookup(r.headers, LENGTH_KEY), "") == r.body <==> BodyOk(r)
  {
    CanonicalLengthKey();
    assert r.body[..|r.body|] == r.body;
  }

  /** What comes back of a printed response with other bytes behind its headers than announced: the bytes
      up to the announced length, or all there are if these are fewer; without Content-Length, or with
      one that is not positive, none. */
  lemma BodyIsCut(r: Resp, order: seq<bytes>)
    requires IsOrder(order, r.headers) && HeadersOk(r.headers)
    requires StatusLineOk(r.version, r.code, r.status) && NoEol(r.version)
    ensures var n := if LENGTH_KEY in r.headers then Atoi(r.headers[LENGTH_KEY]).n else 0;
            ParseInto(FRESH, Print(r, order)) ==
            Parsed(r.(body := if n <= 0 then "" else if n < |r.body| then r.body[..n] else r.body), true)
  {
    ParsePrinted(r, order);
    StatusLineRoundTrip(r.version, r.code, r.status);
    CutBody(r);
    hide Atoi, Print, FormatInt, ParseStatusLine, ParseHeaders, FirstLine, AfterLine, Lookup, BodyFrom, StatusLineOk;
    hide HeadersOk, IsOrder;
    assert FRESH.headers == map[];
    assert StatusText(r) == r.version + " " + FormatInt(r.code) + " " + r.status;
  }

  lemma CutBody(r: Resp)
    ensures var n := if LENGTH_KEY in r.headers then Atoi(r.headers[LENGTH_KEY]).n else 0;
            BodyFrom(r.body, Lookup(r.headers, LENGTH_KEY), "") ==
            if n <= 0 then "" else if n < |r.body| then r.body[..n] else r.body
  {
    hide Atoi;
    CanonicalLengthKey();
    AtoiEmpty();
    assert r.body[..|r.body|] == r.body;
  }

  /** The round trip, exactly: printing in any order and parsing gives the response back if and only
      if its status line, its headers and its body are of the printable kind. */
  lemma ResponseRoundTrip(r: Resp, order: seq<bytes>)
    requires IsOrder(order, r.headers)
    ensures ParseInto(FRESH, Print(r, order)) == Parsed(r, true) <==> ReadsBack(r)
  {
    if HeadersOk(r.headers) && NoEol(r.version) && NoEol(r.status) {
      CleanRoundTrip(r, order);
    } else if ParseInto(FRESH, Print(r, order)).ok {
      ParsedIsClean(Print(r, order));
    }
  }
}
