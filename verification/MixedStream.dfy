/** What the proxy and a camera put on the wire, and what the demultiplexer makes of it: frames as
    `SendBinary` encodes them, responses as `Response.String` prints them, in any mixture. */
module MixedStream {
  import opened Bytes
  import opened Message
  import opened HeaderBlock
  import opened Response
  import opened Demux

  // ---------------------------------------------------------------- frames

  /** The four header bytes: `$`, the channel, and the low sixteen bits of the length. */
  function FrameHeader(channel: int, size: nat): bytes {
    ['$', ToByte(channel), ToByte(size / 256), ToByte(size)]
  }

  function EncodeFrame(channel: int, data: bytes): bytes { FrameHeader(channel, |data|) + data }

  /** An encoded frame is cut off exactly as it was written if and only if its length fits the
      sixteen-bit field; the channel read back is the channel modulo 256. */
  lemma FrameRoundTrip(channel: int, data: bytes, more: bytes)
    requires |data| + |more| < MAX_INT64 - 8
    ensures LookAt(EncodeFrame(channel, data) + more) == Take(Frame(EncodeFrame(channel, data)), 4 + |data|) <==>
            |data| < 0x1_0000
    ensures EncodeFrame(channel, data)[1] as int == channel % 256 && EncodeFrame(channel, data)[4..] == data
  {
    hide MessageLength;
    var f := EncodeFrame(channel, data);
    var s := f + more;
    assert FrameLength(s) == 4 + (|data| / 256 % 256) * 256 + |data| % 256;
    if |data| < 0x1_0000 {
      assert s[..|f|] == f;
    }
  }

  // ---------------------------------------------------------------- messages

  /** A text of proper lines, a blank line and a body, with more bytes behind it. */
  lemma LookAtLines(lines: seq<bytes>, body: bytes, more: bytes)
    requires lines != [] && ProperLines(lines) && lines[0][0] != '$'
    requires |Terminated(lines)| + |body| + |more| < MAX_INT64 - 8
    ensures (LookAt(Terminated(lines) + (CRLF + body) + more)
             == Take(Msg(Terminated(lines) + (CRLF + body)), |Terminated(lines)| + 2 + |body|)) <==>
            ContentLength(BlockOf(lines)) == |body|
  {
    hide ContentLength, BlockOf, Terminated, FrameLength;
    var text := Terminated(lines) + (CRLF + body);
    var s := text + more;
    assert s == Terminated(lines) + (CRLF + (body + more));
    EndOfHeadersAt(lines, body + more);
    TerminatedIsBlock(lines);
    TerminatedStarts(lines);
    var eol := |Terminated(lines)| - 2;
    assert s[..eol] == BlockOf(lines);
    assert s[0] == lines[0][0];
    assert |text| == eol + 4 + |body|;
    if MessageLength(s, eol) == |text| {
      assert s[..|text|] == text;
    }
  }

  /** What the loop does with any announced length, as a whole: with `head` bytes up to and including the
      blank line it waits for a positive length to be there; a negative one cuts the message inside its
      own head; one that takes all of the head back is taken again and again; and one that takes more
      than that, or that overflows 64 bits, is an invalid slice bound. */
  lemma AnyLength(lines: seq<bytes>, rest: bytes)
    requires lines != [] && ProperLines(lines) && lines[0][0] != '$'
    requires |Terminated(lines)| + |rest| < MAX_INT64 - 8
    ensures var s := Terminated(lines) + (CRLF + rest);
            var head, n := |Terminated(lines)| + 2, ContentLength(BlockOf(lines));
            LookAt(s) ==
            if head + n < 0 || head + n > MAX_INT64 then Panic(head)
            else if head + n > |s| then NeedMore
            else if head + n == 0 then Spin(head)
            else Take(Msg(s[..head + n]), if n < 0 then head else head + n)
  {
    hide ContentLength, BlockOf, Terminated, FrameLength;
    var s := Terminated(lines) + (CRLF + rest);
    EndOfHeadersAt(lines, rest);
    TerminatedIsBlock(lines);
    TerminatedStarts(lines);
    var eol := |Terminated(lines)| - 2;
    assert s[..eol] == BlockOf(lines);
    assert s[0] == lines[0][0];
  }

  lemma TerminatedStarts(lines: seq<bytes>)
    requires lines != [] && lines[0] != []
    ensures Terminated(lines) != [] && Terminated(lines)[0] == lines[0][0]
  {
  }

  // ---------------------------------------------------------------- the two Content-Length parsers

  /** A received message: status line, header lines of which one declares the length as blanks,
      digits and blanks, a blank line, and a body of that length. */
  datatype Received = Received(status: bytes, before: seq<bytes>, name: bytes,
                               lead: bytes, digits: bytes, trail: bytes,
                               after: seq<bytes>, body: bytes)

  function LengthValue(m: Received): bytes { m.lead + m.digits + m.trail }

  function LengthText(m: Received): bytes { m.name + LengthValue(m) }

  function HeaderPart(m: Received): seq<bytes> { m.before + [LengthText(m)] + m.after }

  function AllLines(m: Received): seq<bytes> { [m.status] + m.before + [LengthText(m)] + m.after }

  function WireText(m: Received): bytes { Terminated(AllLines(m)) + (CRLF + m.body) }

  predicate WellFormed(m: Received) {
    && m.status != [] && m.status[0] != '$' && NoEol(m.status) && Hit(m.status) < 0
    && Lower(m.name) == NEEDLE
    && AllBlank(m.lead) && AllDigits(m.digits) && AllBlank(m.trail)
    && Atoi(m.digits) == AtoiResult(|m.body|, true) && m.body != []
    && ProperLines(m.before) && AllHeaders(m.before)
    && ProperLines(m.after) && AllHeaders(m.after)
    && (forall i | 0 <= i < |m.before| :: Neutral(m.before[i]))
    && (forall i | 0 <= i < |m.after| :: Neutral(m.after[i]))
  }

  lemma LengthTextOk(m: Received)
    requires WellFormed(m)
    ensures DeclaresLength(LengthText(m), LengthValue(m))
    ensures LengthText(m) != [] && NoEol(LengthText(m))
    ensures ProperLines(AllLines(m)) && ProperLines(HeaderPart(m))
  {
    hide Atoi, Hit, ParseHeader;
    var line := LengthText(m);
    assert |Lower(m.name)| == |NEEDLE|;
    assert line[..|NEEDLE|] == m.name && line[|NEEDLE|..] == LengthValue(m);
    forall i | 0 <= i < |m.name| ensures !IsEol(m.name[i]) {
      assert LowerByte(m.name[i]) == Lower(m.name)[i] == NEEDLE[i];
    }
    ProperConcat(m.before, [line]);
    ProperConcat(m.before + [line], m.after);
    ProperConcat([m.status], HeaderPart(m));
    assert [m.status] + HeaderPart(m) == AllLines(m);
  }

  lemma ProperConcat(a: seq<bytes>, b: seq<bytes>)
    requires ProperLines(a) && ProperLines(b)
    ensures ProperLines(a + b)
  {
  }

  lemma ScannedLength(m: Received)
    requires WellFormed(m)
    ensures ContentLength(BlockOf(AllLines(m))) == |m.body|
    ensures AllHeaders(HeaderPart(m))
    ensures Lookup(Fold(HeaderPart(m), map[]), LENGTH_KEY) == Normalize(LengthValue(m))
  {
    hide Atoi, BlockOf, ContentLength, Fold, Lookup, Normalize, ParseHeader, Hit;
    LengthTextOk(m);
    TwoReadings(m.status, m.before, LengthText(m), LengthValue(m), m.after);
    LengthReadings(m.lead, m.digits, m.trail);
  }

  /** The byte scanner frames such a message whole, whatever follows it on the stream. */
  lemma ReceivedIsFramed(m: Received, more: bytes)
    requires WellFormed(m) && |WireText(m)| + |more| < MAX_INT64 - 8
    ensures LookAt(WireText(m) + more) == Take(Msg(WireText(m)), |WireText(m)|)
  {
    hide Atoi, BlockOf, ContentLength, Fold, Lookup, Terminated, LookAt, Hit, ParseHeader;
    LengthTextOk(m);
    ScannedLength(m);
    LookAtLines(AllLines(m), m.body, more);
  }

  /** The two Content-Length parsers agree, and the framed body is the body the message parser
      stores, if and only if no space follows the digits; with one, the framed body is dropped. */
  lemma TwoParsersAgree(m: Received)
    requires WellFormed(m) && ParseStatusLine(m.status).ok
    ensures ParseInto(FRESH, WireText(m)).ok
    ensures ParseInto(FRESH, WireText(m)).resp.body == (if ' ' in m.trail then "" else m.body)
    ensures ParseInto(FRESH, WireText(m)).resp.body == m.body <==> ' ' !in m.trail
  {
    hide Atoi, Fold, Lookup, Terminated, Normalize, ParseStatusLine, ParseHeaders,
         FirstLine, AfterLine, Hit, ParseHeader;
    LengthTextOk(m);
    ScannedLength(m);
    var rest := Terminated(HeaderPart(m)) + (CRLF + m.body);
    assert AllLines(m) == [m.status] + HeaderPart(m);
    TerminatedCons(m.status, HeaderPart(m), CRLF + m.body);
    SplitCrlf(m.status, rest);
    ParseHeadersLines(HeaderPart(m), m.body, map[]);
    LengthReadings(m.lead, m.digits, m.trail);
    AtoiEmpty();
    assert m.body[..|m.body|] == m.body;
  }

  lemma ShortHasNoNeedle(line: bytes)
    requires |line| < |NEEDLE|
    ensures Hit(line) < 0
  {
    IndexOfNone(Lower(line), NEEDLE);
  }

  /** A message whose body the loop frames and the parser then drops. */
  lemma SpaceHidesBody() returns (m: Received)
    ensures WellFormed(m) && m.body != ""
            && ParseInto(FRESH, WireText(m)).ok && ParseInto(FRESH, WireText(m)).resp.body == ""
  {
    hide Atoi, ParseInto, ParseStatusLine, Hit, FormatInt, Terminated;
    var code := FormatInt(200);
    FormatIntFacts(200);
    var status := "V" + " " + code + " " + "K";
    m := Received(status, [], NEEDLE, "", Decimal(1), " ", [], "B");
    StatusLineRoundTrip("V", 200, "K");
    ShortHasNoNeedle(status);
    AtoiDecimal(1);
    TwoParsersAgree(m);
  }

  // ---------------------------------------------------------------- printed responses

  /** No printed line but the Content-Length header holds the text the scanner looks for. */
  predicate LengthOnly(r: Resp) {
    && Hit(StatusText(r)) < 0
    && forall k | k in r.headers && k != LENGTH_KEY :: Hit(HeaderText(k, r.headers[k])) < 0
  }

  /** What the header announces to the scanner. */
  function Announced(r: Resp): int {
    if LENGTH_KEY in r.headers then Atoi(TrimSpace(r.headers[LENGTH_KEY])).n else 0
  }

  lemma PrintedLineOf(r: Resp, order: seq<bytes>, i: nat)
    requires IsOrder(order, r.headers) && HeadersOk(r.headers) && i < |order|
    ensures HeaderLines(r.headers, order)[i] != [] && NoEol(HeaderLines(r.headers, order)[i])
    ensures LengthOnly(r) && order[i] != LENGTH_KEY ==> Hit(HeaderLines(r.headers, order)[i]) < 0
  {
    hide Hit, StatusText, ParseHeader, CanonicalKey, Normalize;
    HeaderTextOk(order[i], r.headers[order[i]]);
  }

  lemma PrintedLines(r: Resp, order: seq<bytes>)
    requires IsOrder(order, r.headers) && ReadsBack(r)
    ensures ProperLines(Lines(r, order)) && Lines(r, order)[0][0] == r.version[0]
  {
    hide FormatInt, HeaderOk;
    var lines := Lines(r, order);
    FormatIntFacts(r.code);
    forall i | 0 <= i < |lines| ensures lines[i] != [] && NoEol(lines[i]) {
      if i > 0 { PrintedLineOf(r, order, i - 1); }
    }
  }

  lemma LengthHeaderReading(value: bytes)
    ensures Hit(HeaderText(LENGTH_KEY, value)) == 0
    ensures TrimSpace(HeaderText(LENGTH_KEY, value)[|NEEDLE|..]) == TrimSpace(value)
  {
    var line := HeaderText(LENGTH_KEY, value);
    assert line[..|NEEDLE|] == "Content-Length:";
    assert Lower(line[..|NEEDLE|]) == NEEDLE;
    assert line[|NEEDLE|..] == " " + value;
    LengthLine(line, " " + value);
    TrimLeftOver(" ", value);
  }

  lemma LengthLineAt(lines: seq<bytes>, k: nat, value: bytes)
    requires k < |lines| && ProperLines(lines) && lines[k] == HeaderText(LENGTH_KEY, value)
    requires forall i | 0 <= i < k :: Hit(lines[i]) < 0
    ensures ContentLength(BlockOf(lines)) == Atoi(TrimSpace(value)).n
  {
    hide Hit, ContentLength, BlockOf, Atoi, TrimSpace, HeaderText;
    LengthHeaderReading(value);
    assert lines == lines[..k] + [lines[k]] + lines[k + 1..];
    ScannerReadsBlock(lines[..k], lines[k], lines[k + 1..]);
  }

  /** In any printing order the scanner reads what the Content-Length header announces. */
  lemma PrintedLength(r: Resp, order: seq<bytes>)
    requires IsOrder(order, r.headers) && ReadsBack(r) && LengthOnly(r)
    ensures ContentLength(BlockOf(Lines(r, order))) == Announced(r)
  {
    hide Hit, ContentLength, BlockOf, Atoi, TrimSpace, FormatInt, HeaderOk, HeaderText, StatusText;
    var lines := Lines(r, order);
    PrintedLines(r, order);
    forall i | 0 <= i < |lines| && (i == 0 || order[i - 1] != LENGTH_KEY) ensures Hit(lines[i]) < 0 {
      if i > 0 { PrintedLineOf(r, order, i - 1); }
    }
    if LENGTH_KEY in r.headers {
      var k :| 0 <= k < |order| && order[k] == LENGTH_KEY;
      LengthLineAt(lines, k + 1, r.headers[LENGTH_KEY]);
    } else {
      ScannerReadsNothing(lines);
    }
  }

  /** A printed response is cut off the stream exactly as printed, whatever comes after it, if and
      only if it does not start like a frame and its announced length is its body's length. */
  lemma PrintedIsFramed(r: Resp, order: seq<bytes>, more: bytes)
    requires IsOrder(order, r.headers) && ReadsBack(r) && LengthOnly(r)
    requires |Print(r, order)| + |more| < MAX_INT64 - 8
    ensures LookAt(Print(r, order) + more) == Take(Msg(Print(r, order)), |Print(r, order)|) <==>
            (r.version[0] != '$' && Announced(r) == |r.body|)
  {
    hide Hit, ContentLength, BlockOf, Announced, FormatInt, HeaderOk, Terminated, MessageLength, LookAt;
    PrintedLines(r, order);
    if r.version[0] != '$' {
      PrintedLength(r, order);
      LookAtLines(Lines(r, order), r.body, more);
    } else {
      TerminatedStarts(Lines(r, order));
      DollarIsNoMessage(Print(r, order) + more);
    }
  }

  lemma DollarIsNoMessage(buf: bytes)
    requires |buf| <= MAX_INT64 - 4 && buf != [] && buf[0] == '$'
    ensures !(LookAt(buf).Take? && LookAt(buf).item.Msg?)
  {
  }

  // ---------------------------------------------------------------- any mixture

  datatype Sent = Media(channel: int, data: bytes) | Reply(resp: Resp, order: seq<bytes>)

  predicate Proper(x: Sent) {
    match x
    case Media(_, data) => |data| < 0x1_0000
    case Reply(r, order) =>
      && IsOrder(order, r.headers) && ReadsBack(r) && LengthOnly(r)
      && r.version[0] != '$' && Announced(r) == |r.body|
  }

  function ItemOf(x: Sent): Item
    requires Proper(x)
  {
    match x
    case Media(ch, data) => Frame(EncodeFrame(ch, data))
    case Reply(r, order) => Msg(Print(r, order))
  }

  predicate AllProper(xs: seq<Sent>) { forall i | 0 <= i < |xs| :: Proper(xs[i]) }

  function Items(xs: seq<Sent>): (items: seq<Item>)
    requires AllProper(xs)
    ensures |items| == |xs| && forall i | 0 <= i < |xs| :: items[i] == ItemOf(xs[i])
  {
    seq(|xs|, i requires 0 <= i < |xs| => ItemOf(xs[i]))
  }

  lemma SentIsFramed(x: Sent, more: bytes)
    requires Proper(x) && |Text(ItemOf(x))| + |more| < MAX_INT64 - 8
    ensures LookAt(Text(ItemOf(x)) + more) == Take(ItemOf(x), |Text(ItemOf(x))|)
  {
    hide LookAt, Print, LengthOnly, ReadsBack, Announced;
    match x
    case Media(ch, data) => FrameRoundTrip(ch, data, more);
    case Reply(r, order) => PrintedIsFramed(r, order, more);
  }

  /** The reference parser cuts the concatenation into exactly the items, and the stream fits a
      buffer exactly when each single item does. */
  lemma {:induction false} MixtureParsed(cap: nat, xs: seq<Sent>)
    requires AllProper(xs) && |Joined(Items(xs))| < MAX_INT64 - 8 && 0 < cap
    ensures Parse(Joined(Items(xs))) == Cut(Items(xs), [], Waiting)
    ensures Fits(cap, Joined(Items(xs))) <==> forall i | 0 <= i < |xs| :: |Text(ItemOf(xs[i]))| <= cap
    decreases |xs|
  {
    hide LookAt, Proper, ItemOf, Parse;
    if xs == [] {
      ParseEmpty();
      FitsEmpty(cap);
    } else {
      assert Items(xs)[1..] == Items(xs[1..]);
      var t, more := Text(ItemOf(xs[0])), Joined(Items(xs[1..]));
      SentIsFramed(xs[0], more);
      assert (t + more)[|t|..] == more;
      MixtureParsed(cap, xs[1..]);
      ParseTake(t + more);
      assert Items(xs) == [ItemOf(xs[0])] + Items(xs[1..]);
      assert forall i | 0 <= i < |xs| :: i > 0 ==> xs[i] == xs[1..][i - 1];
    }
  }

  lemma FitsEmpty(cap: nat)
    ensures Fits(cap, []) == (0 < cap)
  {
  }

  /** The mixed-stream round trip: any sequence of frames and responses, delivered in any chunking
      through a buffer that holds each of them, comes out as exactly that sequence with nothing left
      over and nothing thrown away, and every message parses back to the response that was printed.
      If one of them does not fit, every complete delivery throws bytes away. */
  lemma MixedRoundTrip(cap: nat, xs: seq<Sent>, sizes: seq<nat>)
    requires AllProper(xs) && 0 < cap && |Joined(Items(xs))| + cap < MAX_INT64 - 8
    requires Delivered(cap, Joined(Items(xs)), sizes)
    ensures (forall i | 0 <= i < |xs| :: |Text(ItemOf(xs[i]))| <= cap) ==>
              Run(cap, Joined(Items(xs)), sizes).0 == Reading([], Items(xs), [], Waiting)
    ensures (exists i | 0 <= i < |xs| :: |Text(ItemOf(xs[i]))| > cap) ==>
              Run(cap, Joined(Items(xs)), sizes).0.lost != []
    ensures forall i | 0 <= i < |xs| && xs[i].Reply? ::
              ParseInto(FRESH, Text(Items(xs)[i])) == Parsed(xs[i].resp, true)
  {
    hide LookAt, Parse, Run, Print, Fits, ReadsBack, LengthOnly, ParseInto, Announced;
    var stream := Joined(Items(xs));
    ChunkIndependence(cap, stream, sizes);
    MixtureParsed(cap, xs);
    if Fits(cap, stream) {
      var (r, at) := Run(cap, stream, sizes);
      assert r.buf + stream[at..] == [] && |r.buf| + |stream[at..]| == |r.buf + stream[at..]|;
    }
    forall i | 0 <= i < |xs| && xs[i].Reply?
      ensures ParseInto(FRESH, Text(Items(xs)[i])) == Parsed(xs[i].resp, true)
    {
      assert Proper(xs[i]);
      ResponseRoundTrip(xs[i].resp, xs[i].order);
    }
  }

  /** With the default buffer the largest frames are never delivered: a payload of 65533 bytes or
      more makes every complete delivery throw bytes away, and a smaller one never does. */
  lemma LargestFrames(channel: int, data: bytes, sizes: seq<nat>)
    requires |data| < 0x1_0000 && Delivered(65536, EncodeFrame(channel, data), sizes)
    ensures Run(65536, EncodeFrame(channel, data), sizes).0.lost != [] <==> |data| > 65532
  {
    hide LookAt, Parse, Run;
    var xs := [Media(channel, data)];
    assert Items(xs)[1..] == [];
    assert Joined(Items(xs)) == EncodeFrame(channel, data) + [] == EncodeFrame(channel, data);
    MixedRoundTrip(65536, xs, sizes);
    assert |Text(ItemOf(xs[0]))| == 4 + |data|;
  }

  /** Such deliveries there are: a frame with 65533 bytes of payload, read byte by byte. */
  lemma LargestFrameLost(channel: int) returns (data: bytes, sizes: seq<nat>)
    ensures |data| == 65533 && Delivered(65536, EncodeFrame(channel, data), sizes)
    ensures Run(65536, EncodeFrame(channel, data), sizes).0.lost != []
  {
    hide Delivered, Run;
    data := seq(65533, _ => 'x');
    sizes := seq(65537, _ => 1);
    EventuallyDelivered(65536, EncodeFrame(channel, data), sizes);
    LargestFrames(channel, data, sizes);
  }
}
