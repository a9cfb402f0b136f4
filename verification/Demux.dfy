/** The upstream demultiplexer: one fixed buffer that is filled by reads of any size, cut into
    interleaved `$` frames (section 10.12 of RFC 2326) and RTSP messages sized by Content-Length
    (sections 4.4 and 12.14 of RFC 2326), and shifted in place. */
module Demux {
  import opened Bytes
  import opened Message
  import opened HeaderBlock

  /** What is handed on: a frame to the dispatcher, a message to the response handler. */
  datatype Item = Frame(packet: bytes) | Msg(text: bytes)

  function Text(it: Item): bytes {
    match it
    case Frame(p) => p
    case Msg(t) => t
  }

  /** One look at the buffered bytes. `need` is how many bytes had to be there for the decision.
      `Spin` and `Panic` are what a hostile Content-Length does: a total of zero is taken again and
      again without progress, a negative total is an invalid slice bound. */
  datatype Look =
    | NeedMore
    | Take(item: Item, need: nat)
    | Spin(need: nat)
    | Panic(need: nat)

  function FrameLength(buf: bytes): nat
    requires |buf| >= 4
  {
    4 + (buf[2] as int) * 256 + (buf[3] as int)
  }

  /** The int64 sum `eol + 4 + contentLength`. */
  function MessageLength(buf: bytes, eol: nat): int
    requires eol <= |buf| && |buf| <= MAX_INT64 - 4
  {
    Wrap64(eol + 4 + ContentLength(buf[..eol]))
  }

  function LookAt(buf: bytes): (l: Look)
    requires |buf| <= MAX_INT64 - 4
    ensures l.Take? ==> 1 <= |Text(l.item)| <= l.need && Text(l.item) <= buf
    ensures l.Take? || l.Spin? || l.Panic? ==> 4 <= l.need <= |buf|
  {
    if buf == [] then NeedMore
    else if buf[0] == '$' then
      if |buf| < 4 || |buf| < FrameLength(buf) then NeedMore
      else Take(Frame(buf[..FrameLength(buf)]), FrameLength(buf))
    else
      var eol := IndexOf(buf, END_OF_HEADERS);
      if eol < 0 then NeedMore
      else
        var total := MessageLength(buf, eol);
        if |buf| < total then NeedMore
        else if total < 0 then Panic(eol + 4)
        else if total == 0 then Spin(eol + 4)
        else Take(Msg(buf[..total]), if total < eol + 4 then eol + 4 else total)
  }

  // ---------------------------------------------------------------- one-shot reference parser

  datatype End = Waiting | Spinning | Panicked

  datatype Cut = Cut(items: seq<Item>, rest: bytes, end: End)

  /** The whole stream at once, as simple recursion. */
  function Parse(buf: bytes): Cut
    requires |buf| <= MAX_INT64 - 4
    decreases |buf|
  {
    match LookAt(buf)
    case NeedMore => Cut([], buf, Waiting)
    case Spin(_) => Cut([], buf, Spinning)
    case Panic(_) => Cut([], buf, Panicked)
    case Take(item, _) =>
      var c := Parse(buf[|Text(item)|..]);
      Cut([item] + c.items, c.rest, c.end)
  }

  function Joined(items: seq<Item>): bytes {
    if items == [] then [] else Text(items[0]) + Joined(items[1..])
  }

  lemma {:induction false} JoinedConcat(a: seq<Item>, b: seq<Item>)
    ensures Joined(a + b) == Joined(a) + Joined(b)
  {
    if a == [] {
      assert a + b == b;
    } else {
      assert (a + b)[1..] == a[1..] + b;
      JoinedConcat(a[1..], b);
    }
  }

  /** The stop reasons of the parser are the looks that are not a `Take`. */
  predicate Stops(l: Look, end: End) {
    match l
    case Take(_, _) => false
    case NeedMore => end == Waiting
    case Spin(_) => end == Spinning
    case Panic(_) => end == Panicked
  }

  lemma ParseStop(buf: bytes)
    requires |buf| <= MAX_INT64 - 4 && !LookAt(buf).Take?
    ensures Parse(buf).items == [] && Parse(buf).rest == buf && Stops(LookAt(buf), Parse(buf).end)
  {
    hide LookAt;
  }

  lemma ParseTake(buf: bytes)
    requires |buf| <= MAX_INT64 - 4 && LookAt(buf).Take?
    ensures var item := LookAt(buf).item;
            var c := Parse(buf[|Text(item)|..]);
            Parse(buf) == Cut([item] + c.items, c.rest, c.end)
  {
    hide LookAt;
  }

  /** No byte is invented, lost or reordered by the cut, and it stops where the looks stop. */
  lemma {:induction false} ParseConserves(buf: bytes)
    requires |buf| <= MAX_INT64 - 4
    ensures Joined(Parse(buf).items) + Parse(buf).rest == buf
    ensures |Parse(buf).rest| <= |buf|
    ensures Stops(LookAt(Parse(buf).rest), Parse(buf).end)
    decreases |buf|
  {
    hide LookAt, Parse;
    if LookAt(buf).Take? {
      var item := LookAt(buf).item;
      var tail := buf[|Text(item)|..];
      ParseTake(buf);
      ParseConserves(tail);
      assert ([item] + Parse(tail).items)[1..] == Parse(tail).items;
      assert Joined(Parse(buf).items) + Parse(buf).rest
          == Text(item) + (Joined(Parse(tail).items) + Parse(tail).rest);
    } else {
      ParseStop(buf);
    }
  }

  // ---------------------------------------------------------------- later bytes

  lemma FrameStable(buf: bytes, more: bytes)
    requires |buf + more| <= MAX_INT64 - 4 && buf != [] && buf[0] == '$'
    ensures !LookAt(buf).NeedMore? ==> LookAt(buf + more) == LookAt(buf)
    ensures LookAt(buf).NeedMore? && !LookAt(buf + more).NeedMore? ==> LookAt(buf + more).need > |buf|
  {
    hide MessageLength;
    if |buf| >= 4 {
      assert FrameLength(buf + more) == FrameLength(buf);
      if |buf| >= FrameLength(buf) {
        assert (buf + more)[..FrameLength(buf)] == buf[..FrameLength(buf)];
      }
    }
  }

  lemma MessageStable(buf: bytes, more: bytes)
    requires |buf + more| <= MAX_INT64 - 4 && buf != [] && buf[0] != '$'
    ensures !LookAt(buf).NeedMore? ==> LookAt(buf + more) == LookAt(buf)
    ensures LookAt(buf).NeedMore? && !LookAt(buf + more).NeedMore? ==> LookAt(buf + more).need > |buf|
  {
    hide FrameLength, MessageLength;
    var eol := IndexOf(buf, END_OF_HEADERS);
    if eol >= 0 {
      MessageLengthStable(buf, more, eol);
      var total := MessageLength(buf, eol);
      if 0 <= total <= |buf| {
        assert (buf + more)[..total] == buf[..total];
      }
    } else if IndexOf(buf + more, END_OF_HEADERS) >= 0 {
      IndexOfFresh(buf, more, END_OF_HEADERS);
    }
  }

  lemma MessageLengthStable(buf: bytes, more: bytes, eol: nat)
    requires |buf + more| <= MAX_INT64 - 4 && eol == IndexOf(buf, END_OF_HEADERS)
    ensures IndexOf(buf + more, END_OF_HEADERS) == eol
    ensures MessageLength(buf + more, eol) == MessageLength(buf, eol)
  {
    hide ContentLength, Wrap64;
    IndexOfStable(buf, more, END_OF_HEADERS);
    assert (buf + more)[..eol] == buf[..eol];
  }

  /** A decision is never revised by later bytes, and a decision that later bytes make possible
      needs more bytes than were there before. */
  lemma LookStable(buf: bytes, more: bytes)
    requires |buf + more| <= MAX_INT64 - 4
    ensures !LookAt(buf).NeedMore? ==> LookAt(buf + more) == LookAt(buf)
    ensures LookAt(buf).NeedMore? && !LookAt(buf + more).NeedMore? ==> LookAt(buf + more).need > |buf|
  {
    hide MessageLength, FrameLength;
    if buf != [] {
      if buf[0] == '$' {
        FrameStable(buf, more);
      } else {
        MessageStable(buf, more);
      }
    }
  }

  function Resume(c: Cut, more: bytes): Cut
    requires |c.rest + more| <= MAX_INT64 - 4
  {
    if c.end != Waiting then c.(rest := c.rest + more)
    else
      var d := Parse(c.rest + more);
      Cut(c.items + d.items, d.rest, d.end)
  }

  /** Cutting in two goes is cutting in one go. */
  lemma {:induction false} ParseAppend(buf: bytes, more: bytes)
    requires |buf + more| <= MAX_INT64 - 4
    ensures |Parse(buf).rest| <= |buf|
    ensures Parse(buf + more) == Resume(Parse(buf), more)
    decreases |buf|
  {
    hide LookAt, Parse;
    LookStable(buf, more);
    if LookAt(buf).Take? {
      var n := |Text(LookAt(buf).item)|;
      var tail := buf[n..];
      assert (buf + more)[n..] == tail + more;
      ParseTake(buf);
      ParseTake(buf + more);
      ParseAppend(tail, more);
      ResumeCons(LookAt(buf).item, Parse(tail), more);
    } else {
      ParseStop(buf);
      if !LookAt(buf).NeedMore? {
        ParseStop(buf + more);
      } else {
        assert [] + Parse(buf + more).items == Parse(buf + more).items;
      }
    }
  }

  lemma ResumeCons(item: Item, c: Cut, more: bytes)
    requires |c.rest + more| <= MAX_INT64 - 4
    ensures Resume(Cut([item] + c.items, c.rest, c.end), more)
         == (var d := Resume(c, more); Cut([item] + d.items, d.rest, d.end))
  {
    hide Parse;
    if c.end == Waiting {
      var d := Parse(c.rest + more);
      assert [item] + c.items + d.items == [item] + (c.items + d.items);
    }
  }

  // ---------------------------------------------------------------- what fits the buffer

  /** Every decision along the stream can be made with at most `cap` bytes, and what is left over
      does not fill the buffer. It speaks of the stream alone, not of how it is delivered. */
  predicate Fits(cap: nat, stream: bytes)
    requires |stream| <= MAX_INT64 - 4
    decreases |stream|
  {
    match LookAt(stream)
    case NeedMore => |stream| < cap
    case Spin(need) => need <= cap
    case Panic(need) => need <= cap
    case Take(item, need) => need <= cap && Fits(cap, stream[|Text(item)|..])
  }

  lemma {:induction false} FitsAfterDrain(cap: nat, buf: bytes, more: bytes)
    requires |buf + more| <= MAX_INT64 - 4 && |buf| <= cap
    ensures |Parse(buf).rest| <= |buf|
    ensures Fits(cap, buf + more) == Fits(cap, Parse(buf).rest + more)
    decreases |buf|
  {
    hide MessageLength, FrameLength, LookAt;
    LookStable(buf, more);
    if !LookAt(buf).Take? {
    } else {
      var n := |Text(LookAt(buf).item)|;
      assert (buf + more)[n..] == buf[n..] + more;
      FitsAfterDrain(cap, buf[n..], more);
    }
  }

  // ---------------------------------------------------------------- the loop as a state machine

  /** Bytes thrown away by the "buffer full" branch, after so many items had been handed on. */
  datatype Gap = Gap(after: nat, text: bytes)

  datatype Reading = Reading(buf: bytes, out: seq<Item>, lost: seq<Gap>, end: End)

  const START: Reading := Reading([], [], [], Waiting)

  /** Process everything in the buffer, then clear it if it is full. */
  function Settle(cap: nat, r: Reading): Reading
    requires |r.buf| <= MAX_INT64 - 4
  {
    if r.end != Waiting then r
    else
      var c := Parse(r.buf);
      if c.end == Waiting && |c.rest| == cap then
        Reading([], r.out + c.items, r.lost + [Gap(|r.out + c.items|, c.rest)], Waiting)
      else Reading(c.rest, r.out + c.items, r.lost, c.end)
  }

  /** How many bytes a read of nominal size `size` returns: no more than there is room for and no
      more than have arrived. A read that times out returns nothing. */
  function Granted(cap: nat, r: Reading, size: nat, arrived: nat): nat
    requires |r.buf| <= cap
  {
    var room := cap - |r.buf|;
    var n := if size < room then size else room;
    if r.end != Waiting then 0 else if n < arrived then n else arrived
  }

  /** The reads so far, in order; `sizes` is any oracle, so this is any chunking. */
  function Run(cap: nat, stream: bytes, sizes: seq<nat>): (p: (Reading, nat))
    requires 0 < cap && |stream| + cap <= MAX_INT64 - 4
    ensures p.1 <= |stream| && |p.0.buf| <= cap
    ensures p.0.end == Waiting ==> |p.0.buf| < cap
    decreases |sizes|
  {
    hide LookAt;
    if sizes == [] then (START, 0)
    else
      var (r, at) := Run(cap, stream, sizes[..|sizes| - 1]);
      var n := Granted(cap, r, sizes[|sizes| - 1], |stream| - at);
      var filled := r.(buf := r.buf + stream[at..at + n]);
      ParseConserves(filled.buf);
      (Settle(cap, filled), at + n)
  }

  /** The items handed on with the bytes thrown away between them, in the order of the stream. */
  function Woven(out: seq<Item>, lost: seq<Gap>): bytes
    decreases |lost|
  {
    if lost == [] then Joined(out)
    else
      var g := lost[|lost| - 1];
      if g.after <= |out| then Woven(out[..g.after], lost[..|lost| - 1]) + g.text + Joined(out[g.after..]) else []
  }

  predicate GapsOk(out: seq<Item>, lost: seq<Gap>) { lost == [] || lost[|lost| - 1].after <= |out| }

  lemma WovenItems(out: seq<Item>, lost: seq<Gap>, items: seq<Item>)
    requires GapsOk(out, lost)
    ensures Woven(out + items, lost) == Woven(out, lost) + Joined(items)
  {
    hide Joined;
    if lost == [] {
      JoinedConcat(out, items);
    } else {
      var g := lost[|lost| - 1];
      var n, more := g.after, out + items;
      assert more[..n] == out[..n];
      assert more[n..] == out[n..] + items;
      JoinedConcat(out[n..], items);
      var front := Woven(out[..n], lost[..|lost| - 1]) + g.text;
      assert Woven(more, lost) == front + Joined(more[n..]);
      assert front + (Joined(out[n..]) + Joined(items)) == front + Joined(out[n..]) + Joined(items);
    }
  }

  lemma WovenGap(out: seq<Item>, lost: seq<Gap>, text: bytes)
    ensures Woven(out, lost + [Gap(|out|, text)]) == Woven(out, lost) + text
  {
    assert (lost + [Gap(|out|, text)])[..|lost|] == lost;
    assert out[..|out|] == out && out[|out|..] == [];
  }

  lemma SettleConserves(cap: nat, r: Reading)
    requires |r.buf| <= MAX_INT64 - 4 && GapsOk(r.out, r.lost)
    ensures var t := Settle(cap, r);
            GapsOk(t.out, t.lost) && Woven(t.out, t.lost) + t.buf == Woven(r.out, r.lost) + r.buf
  {
    hide LookAt, Parse, Woven, Joined;
    ParseConserves(r.buf);
    var c := Parse(r.buf);
    WovenItems(r.out, r.lost, c.items);
    WovenGap(r.out + c.items, r.lost, c.rest);
    var w := Woven(r.out, r.lost);
    assert w + Joined(c.items) + c.rest == w + (Joined(c.items) + c.rest);
    var full := w + Joined(c.items) + c.rest;
    assert full + [] == full;
  }

  /** Conservation in every run, complete or not: the bytes read so far are, in order, the items handed
      on with the bytes thrown away between them, and then the bytes in the buffer. */
  lemma {:induction false} RunConserves(cap: nat, stream: bytes, sizes: seq<nat>)
    requires 0 < cap && |stream| + cap <= MAX_INT64 - 4
    ensures var (r, at) := Run(cap, stream, sizes);
            GapsOk(r.out, r.lost) && Woven(r.out, r.lost) + r.buf == stream[..at]
    decreases |sizes|
  {
    hide Settle, Woven;
    if sizes == [] {
      WovenNothing();
    } else {
      RunConserves(cap, stream, sizes[..|sizes| - 1]);
      var (r, at) := Run(cap, stream, sizes[..|sizes| - 1]);
      var n := Granted(cap, r, sizes[|sizes| - 1], |stream| - at);
      var chunk := stream[at..at + n];
      SettleConserves(cap, r.(buf := r.buf + chunk));
      assert stream[..at + n] == stream[..at] + chunk;
      assert Woven(r.out, r.lost) + (r.buf + chunk) == Woven(r.out, r.lost) + r.buf + chunk;
    }
  }

  lemma WovenNothing()
    ensures Woven([], []) == []
  {
  }

  /** As long as nothing was thrown away, the run stands exactly where the one-shot parser stands
      on the bytes read so far, and the rest of the stream fits exactly when the whole does. */
  ghost predicate InStep(cap: nat, stream: bytes, r: Reading, at: nat)
    requires |stream| + cap <= MAX_INT64 - 4 && at <= |stream| && |r.buf| <= cap
  {
    if r.lost == [] then
      && Parse(stream[..at]) == Cut(r.out, r.buf, r.end)
      && (Fits(cap, stream) <==> Fits(cap, r.buf + stream[at..]))
    else !Fits(cap, stream)
  }

  lemma SettleKeepsStep(cap: nat, stream: bytes, r: Reading, at: nat, n: nat)
    requires 0 < cap && |stream| + cap <= MAX_INT64 - 4 && at + n <= |stream|
    requires |r.buf| + n <= cap && r.end == Waiting && r.lost == [] && InStep(cap, stream, r, at)
    ensures |Parse(r.buf + stream[at..at + n]).rest| <= cap
    ensures InStep(cap, stream, Settle(cap, r.(buf := r.buf + stream[at..at + n])), at + n)
  {
    hide LookAt, Parse, Fits;
    var chunk, rem := stream[at..at + n], stream[at + n..];
    var buf := r.buf + chunk;
    assert stream[..at + n] == stream[..at] + chunk;
    ParseAppend(stream[..at], chunk);
    assert r.buf + stream[at..] == buf + rem;
    ParseConserves(buf);
    FitsAfterDrain(cap, buf, rem);
    var c := Parse(buf);
    if c.end == Waiting && |c.rest| == cap {
      FullDoesNotFit(cap, c.rest, rem);
    }
  }

  lemma FullDoesNotFit(cap: nat, buf: bytes, more: bytes)
    requires |buf + more| <= MAX_INT64 - 4 && |buf| == cap && LookAt(buf).NeedMore?
    ensures !Fits(cap, buf + more)
  {
    hide LookAt;
    LookStable(buf, more);
  }

  lemma {:induction false} RunInStep(cap: nat, stream: bytes, sizes: seq<nat>)
    requires 0 < cap && |stream| + cap <= MAX_INT64 - 4
    ensures var (r, at) := Run(cap, stream, sizes); InStep(cap, stream, r, at)
    decreases |sizes|
  {
    hide LookAt, Fits, Parse;
    if sizes == [] {
      assert stream[..0] == [] && [] + stream[0..] == stream;
      assert Parse([]) == Cut([], [], Waiting) by { ParseEmpty(); }
    } else {
      RunInStep(cap, stream, sizes[..|sizes| - 1]);
      var (r, at) := Run(cap, stream, sizes[..|sizes| - 1]);
      var n := Granted(cap, r, sizes[|sizes| - 1], |stream| - at);
      assert r.end != Waiting ==> stream[at..at + n] == [] && r.buf + [] == r.buf;
      if r.end == Waiting && r.lost == [] {
        SettleKeepsStep(cap, stream, r, at, n);
      }
    }
  }

  lemma ParseEmpty()
    ensures Parse([]) == Cut([], [], Waiting)
  {
  }

  /** If the stream fits the buffer, no run loses anything: at every moment, in any chunking, the bytes
      read are the items handed on followed by the bytes in the buffer. */
  lemma RunInOrder(cap: nat, stream: bytes, sizes: seq<nat>)
    requires 0 < cap && |stream| + cap <= MAX_INT64 - 4 && Fits(cap, stream)
    ensures var (r, at) := Run(cap, stream, sizes);
            r.lost == [] && Joined(r.out) + r.buf == stream[..at]
  {
    hide LookAt, Parse, Fits, Run;
    RunInStep(cap, stream, sizes);
    RunConserves(cap, stream, sizes);
  }

  // ---------------------------------------------------------------- what is handed on

  predicate IsFrame(item: Item, most: nat) {
    item.Frame? ==> 4 <= |item.packet| <= most && item.packet[0] == '$'
  }

  lemma TakenIsFrame(buf: bytes)
    requires |buf| <= MAX_INT64 - 4 && LookAt(buf).Take?
    ensures IsFrame(LookAt(buf).item, |buf|)
  {
    hide MessageLength;
  }

  predicate AllFrames(items: seq<Item>, most: nat) { forall i | 0 <= i < |items| :: IsFrame(items[i], most) }

  lemma {:induction false} ParsedAreFrames(buf: bytes, most: nat)
    requires |buf| <= MAX_INT64 - 4 && |buf| <= most
    ensures AllFrames(Parse(buf).items, most)
    decreases |buf|
  {
    hide LookAt, Parse;
    if LookAt(buf).Take? {
      ParseTake(buf);
      TakenIsFrame(buf);
      ParsedAreFrames(buf[|Text(LookAt(buf).item)|..], most);
    } else {
      ParseStop(buf);
    }
  }

  lemma SettleKeepsFrames(cap: nat, r: Reading)
    requires |r.buf| <= MAX_INT64 - 4 && |r.buf| <= cap && AllFrames(r.out, cap)
    ensures AllFrames(Settle(cap, r).out, cap)
  {
    hide LookAt, Parse, IsFrame;
    ParsedAreFrames(r.buf, cap);
  }

  /** Every frame handed on, in any run on any stream, has a header, starts with `$` and is no longer
      than the buffer. */
  lemma {:induction false} FramesFit(cap: nat, stream: bytes, sizes: seq<nat>)
    requires 0 < cap && |stream| + cap <= MAX_INT64 - 4
    ensures AllFrames(Run(cap, stream, sizes).0.out, cap)
    decreases |sizes|
  {
    hide Settle, AllFrames;
    if sizes == [] {
      NoFrames(cap);
    } else {
      FramesFit(cap, stream, sizes[..|sizes| - 1]);
      var (r, at) := Run(cap, stream, sizes[..|sizes| - 1]);
      var n := Granted(cap, r, sizes[|sizes| - 1], |stream| - at);
      SettleKeepsFrames(cap, r.(buf := r.buf + stream[at..at + n]));
    }
  }

  lemma NoFrames(cap: nat)
    ensures AllFrames([], cap)
  {
  }

  // ---------------------------------------------------------------- complete deliveries

  /** The whole stream was read, or the loop came to an end on the way. */
  predicate Delivered(cap: nat, stream: bytes, sizes: seq<nat>)
    requires 0 < cap && |stream| + cap <= MAX_INT64 - 4
  {
    Run(cap, stream, sizes).1 == |stream| || Run(cap, stream, sizes).0.end != Waiting
  }

  lemma {:induction false} ReadsAdvance(cap: nat, stream: bytes, sizes: seq<nat>)
    requires 0 < cap && |stream| + cap <= MAX_INT64 - 4 && forall i | 0 <= i < |sizes| :: sizes[i] > 0
    ensures Delivered(cap, stream, sizes) || Run(cap, stream, sizes).1 >= |sizes|
    decreases |sizes|
  {
    hide LookAt, Parse;
    if sizes == [] {
    } else {
      var before := sizes[..|sizes| - 1];
      ReadsAdvance(cap, stream, before);
      var (r, at) := Run(cap, stream, before);
      var n := Granted(cap, r, sizes[|sizes| - 1], |stream| - at);
      assert r.end == Waiting && at < |stream| ==> n > 0;
    }
  }

  /** Any schedule of positive reads that is long enough delivers the stream. */
  lemma EventuallyDelivered(cap: nat, stream: bytes, sizes: seq<nat>)
    requires 0 < cap && |stream| + cap <= MAX_INT64 - 4 && forall i | 0 <= i < |sizes| :: sizes[i] > 0
    requires |sizes| >= |stream|
    ensures Delivered(cap, stream, sizes)
  {
    hide Run;
    ReadsAdvance(cap, stream, sizes);
  }

  // ---------------------------------------------------------------- chunk independence

  /** Chunk independence, exactly. Over any run that reads the whole stream, in any chunking, the
      "buffer full, clearing" branch is never taken if and only if the stream fits the buffer; and
      then the items handed on and the bytes kept are those of the one-shot parser. A run that
      ended early (`Spin`, `Panic`) has consumed enough to end there. */
  lemma ChunkIndependence(cap: nat, stream: bytes, sizes: seq<nat>)
    requires 0 < cap && |stream| + cap <= MAX_INT64 - 4
    requires Delivered(cap, stream, sizes)
    ensures Run(cap, stream, sizes).0.lost == [] <==> Fits(cap, stream)
    ensures Fits(cap, stream) ==>
              var (r, at) := Run(cap, stream, sizes);
              Parse(stream) == Cut(r.out, r.buf + stream[at..], r.end)
  {
    hide LookAt, Parse, Fits;
    RunInStep(cap, stream, sizes);
    var (r, at) := Run(cap, stream, sizes);
    if r.lost == [] {
      assert stream[..at] + stream[at..] == stream;
      ParseAppend(stream[..at], stream[at..]);
      ParseConserves(stream[..at]);
      RestFits(cap, r.buf, r.end, stream[at..]);
      if r.end == Waiting {
        assert r.buf + stream[at..] == r.buf && stream[..at] == stream;
      }
    }
  }

  lemma RestFits(cap: nat, buf: bytes, end: End, more: bytes)
    requires |buf + more| <= MAX_INT64 - 4 && |buf| <= cap
    requires Stops(LookAt(buf), end)
    requires end == Waiting ==> |buf| < cap && more == []
    ensures Fits(cap, buf + more)
  {
    hide LookAt;
    LookStable(buf, more);
    assert buf + [] == buf;
  }
}
