/** Order and content on the way through one client: what its sessions accepted comes out as it went in. */
module ClientOrder {
  import opened Bytes
  import opened ClientPipe
  import opened ClientFlow

  /** The payloads the queue took, in order. */
  function Accepted(offers: seq<Offer>): seq<bytes> {
    if offers == [] then []
    else
      var o := offers[|offers| - 1];
      Accepted(offers[..|offers| - 1]) + (if o.taken then [o.payload] else [])
  }

  function Payloads(ts: seq<Tagged>): (ps: seq<bytes>)
    ensures |ps| == |ts| && forall i | 0 <= i < |ts| :: ps[i] == ts[i].payload
  {
    seq(|ts|, i requires 0 <= i < |ts| => ts[i].payload)
  }

  /** What session `k` put into the write channel. */
  function FromSession(ts: seq<Tagged>, k: nat): seq<bytes> {
    if ts == [] then []
    else
      var t := ts[|ts| - 1];
      FromSession(ts[..|ts| - 1], k) + (if t.session == k then [t.payload] else [])
  }

  lemma AcceptedSnoc(offers: seq<Offer>, o: Offer)
    ensures Accepted(offers + [o]) == Accepted(offers) + (if o.taken then [o.payload] else [])
  {
    assert (offers + [o])[..|offers|] == offers;
  }

  lemma FromSessionSnoc(ts: seq<Tagged>, t: Tagged, k: nat)
    ensures FromSession(ts + [t], k) == FromSession(ts, k) + (if t.session == k then [t.payload] else [])
  {
    assert (ts + [t])[..|ts|] == ts;
  }

  lemma {:induction false} FromSessionNone(ts: seq<Tagged>, k: nat)
    requires forall i | 0 <= i < |ts| :: ts[i].session != k
    ensures FromSession(ts, k) == []
  {
    if ts == [] {
    } else {
      FromSessionNone(ts[..|ts| - 1], k);
    }
  }

  lemma {:induction false} FromSessionPrefix(ts: seq<Tagged>, n: nat, k: nat)
    requires n <= |ts|
    ensures FromSession(ts[..n], k) <= FromSession(ts, k)
    decreases |ts| - n
  {
    if n == |ts| {
      assert ts[..n] == ts;
    } else {
      FromSessionPrefix(ts, n + 1, k);
      assert ts[..n + 1] == ts[..n] + [ts[n]];
      FromSessionSnoc(ts[..n], ts[n], k);
    }
  }

  // ---------------------------------------------------------------- the flow invariant

  /** While the runner works, what was accepted is what was passed on, then what it holds, then what
      is queued; afterwards what was passed on is a prefix of what was accepted. */
  predicate SessionFlow(s: Session, heap: Heap) {
    if Live(s.runner) then Accepted(s.offers) == s.passed + Contents(heap, RunnerHand(s) + s.queue)
    else s.passed <= Accepted(s.offers)
  }

  predicate WriterFlow(cl: Client, heap: Heap) {
    if cl.writer == Selecting || cl.writer.Writing? then
      Payloads(cl.forwarded) == cl.written + Contents(heap, WriterHand(cl) + cl.channel)
    else cl.written <= Payloads(cl.forwarded)
  }

  predicate TagsFlow(cl: Client) {
    && (forall i | 0 <= i < |cl.forwarded| :: cl.forwarded[i].session < |cl.sessions|)
    && (forall k | 0 <= k < |cl.sessions| :: FromSession(cl.forwarded, k) == cl.sessions[k].passed)
  }

  predicate Flow(cl: Client, heap: Heap) {
    && (forall k | 0 <= k < |cl.sessions| :: SessionFlow(cl.sessions[k], heap))
    && WriterFlow(cl, heap) && TagsFlow(cl)
  }

  lemma ContentsConcat(heap: Heap, a: seq<Slice>, b: seq<Slice>)
    ensures Contents(heap, a + b) == Contents(heap, a) + Contents(heap, b)
  {
    hide Content;
  }

  lemma PushKeepsSessionFlow(cfg: Config, s: Session, p: Slice, heap: Heap)
    requires SessionFlow(s, heap)
    ensures SessionFlow(PushSession(cfg, s, p, heap), heap)
  {
    hide Content, Contents, Accepted;
    AcceptedSnoc(s.offers, Offer(Content(heap, p), Takes(cfg, s)));
    ContentsConcat(heap, RunnerHand(s) + s.queue, [p]);
    assert RunnerHand(s) + s.queue + [p] == RunnerHand(s) + (s.queue + [p]);
    ContentsOne(heap, p);
  }

  lemma ContentsOne(heap: Heap, p: Slice)
    ensures Contents(heap, [p]) == [Content(heap, p)]
  {
  }

  /** What a runner holding a packet owes. */
  lemma HoldingFlow(s: Session, heap: Heap)
    requires s.runner.Holding? && SessionFlow(s, heap)
    ensures Accepted(s.offers) == s.passed + [Content(heap, s.runner.packet)] + Contents(heap, [] + s.queue)
    ensures s.passed <= Accepted(s.offers)
  {
    hide Content, Contents, Accepted;
    ContentsConcat(heap, [s.runner.packet], s.queue);
    ContentsOne(heap, s.runner.packet);
    assert [] + s.queue == s.queue;
  }

  lemma RunnerKeepsSessionFlow(cl: Client, a: Act, heap: Heap)
    requires RunnerAct(a) && Enabled(cl, a, true) && SessionFlow(cl.sessions[a.session], heap)
    ensures SessionFlow(SessionAfter(cl, a, heap), heap)
  {
    hide Content, Contents, Accepted, DestroyStation;
    var s := cl.sessions[a.session];
    if a.Take? {
      assert [s.queue[0]] + s.queue[1..] == [] + s.queue;
    } else if s.runner.Holding? {
      HoldingFlow(s, heap);
    }
  }

  lemma SendKeepsOutsideFlow(cl: Client, k: nat, p: Slice, heap: Heap)
    requires WriterFlow(cl, heap)
    ensures WriterFlow(cl.(channel := cl.channel + [p], forwarded := cl.forwarded + [Tagged(k, Content(heap, p))]),
                       heap)
  {
    hide Content, Contents;
    var t := Tagged(k, Content(heap, p));
    assert Payloads(cl.forwarded + [t]) == Payloads(cl.forwarded) + [t.payload];
    var w := WriterHand(cl) + cl.channel;
    ContentsConcat(heap, w, [p]);
    ContentsOne(heap, p);
    assert WriterHand(cl) + (cl.channel + [p]) == w + [p];
    assert cl.written + (Contents(heap, w) + [t.payload]) == cl.written + Contents(heap, w) + [t.payload];
  }

  lemma SendKeepsTags(cl: Client, k: nat, payload: bytes)
    requires TagsFlow(cl) && IsSession(cl, k)
    ensures var s := cl.sessions[k];
            TagsFlow(WithSession(cl, k, s.(runner := Ready, passed := s.passed + [payload]))
                     .(forwarded := cl.forwarded + [Tagged(k, payload)]))
  {
    hide FromSession;
    forall j | 0 <= j < |cl.sessions|
      ensures FromSession(cl.forwarded + [Tagged(k, payload)], j)
           == (if j == k then cl.sessions[k].passed + [payload] else cl.sessions[j].passed)
    {
      FromSessionSnoc(cl.forwarded, Tagged(k, payload), j);
    }
  }

  /** A session may change as long as it stays in order and what it passed on stays. */
  lemma SessionKeepsFlow(cl: Client, k: nat, s: Session, heap: Heap)
    requires IsSession(cl, k) && Flow(cl, heap) && SessionFlow(s, heap) && s.passed == cl.sessions[k].passed
    ensures Flow(WithSession(cl, k, s), heap)
  {
    hide SessionFlow, FromSession, WriterFlow;
    WriterFlowFrame(cl, WithSession(cl, k, s), heap);
  }

  lemma SendKeepsFlow(cl: Client, k: nat, heap: Heap)
    requires Enabled(cl, Send(k), true) && !cl.chanClosed && Flow(cl, heap)
    requires SessionFlow(SessionAfter(cl, Send(k), heap), heap)
    ensures Flow(WithSession(OutsideAfter(cl, Send(k), heap), k, SessionAfter(cl, Send(k), heap)), heap)
  {
    hide SessionFlow, Content, FromSession, WriterFlow;
    var p := cl.sessions[k].runner.packet;
    var c := OutsideAfter(cl, Send(k), heap);
    SendKeepsOutsideFlow(cl, k, p, heap);
    SendKeepsTags(cl, k, Content(heap, p));
    WriterFlowFrame(c, WithSession(c, k, SessionAfter(cl, Send(k), heap)), heap);
  }

  lemma QuietRunner(cl: Client, a: Act, heap: Heap)
    requires RunnerAct(a) && Enabled(cl, a, true) && (a.Send? ==> cl.chanClosed)
    ensures IsSession(cl, a.session) && SessionAfter(cl, a, heap).passed == cl.sessions[a.session].passed
    ensures SameHold(cl, OutsideAfter(cl, a, heap))
    ensures OutsideAfter(cl, a, heap).forwarded == cl.forwarded && OutsideAfter(cl, a, heap).written == cl.written
  {
    hide DestroyStation;
  }

  lemma RunnerKeepsFlow(cfg: Config, cl: Client, a: Act, heap: Heap)
    requires RunnerAct(a) && Enabled(cl, a, true) && Flow(cl, heap)
    ensures Flow(ApplyRunner(cfg, cl, a, heap).client, heap)
  {
    hide SessionFlow, SessionAfter, OutsideAfter, RunnerPuts, Flow;
    assert SessionFlow(cl.sessions[a.session], heap) by { SessionOfFlow(cl, a.session, heap); }
    RunnerKeepsSessionFlow(cl, a, heap);
    if a.Send? && !cl.chanClosed {
      SendKeepsFlow(cl, a.session, heap);
    } else {
      QuietRunner(cl, a, heap);
      FlowFrame(cl, OutsideAfter(cl, a, heap), heap);
      SessionKeepsFlow(OutsideAfter(cl, a, heap), a.session, SessionAfter(cl, a, heap), heap);
    }
  }

  lemma SessionOfFlow(cl: Client, k: nat, heap: Heap)
    requires IsSession(cl, k) && Flow(cl, heap)
    ensures SessionFlow(cl.sessions[k], heap)
  {
  }

  lemma WriterFlowFrame(cl: Client, cl': Client, heap: Heap)
    requires WriterFlow(cl, heap) && cl'.writer == cl.writer && cl'.channel == cl.channel
    requires cl'.forwarded == cl.forwarded && cl'.written == cl.written
    ensures WriterFlow(cl', heap)
  {
  }

  lemma WriterTakeFlow(cl: Client, heap: Heap)
    requires cl.writer == Selecting && cl.channel != [] && WriterFlow(cl, heap)
    ensures WriterFlow(cl.(writer := Writing(cl.channel[0]), channel := cl.channel[1..]), heap)
  {
    hide Contents, Payloads;
    assert [cl.channel[0]] + cl.channel[1..] == [] + cl.channel;
  }

  lemma WriterWriteFlow(cl: Client, heap: Heap)
    requires cl.writer.Writing? && WriterFlow(cl, heap)
    ensures Payloads(cl.forwarded) == cl.written + [Content(heap, cl.writer.data)] + Contents(heap, cl.channel)
    ensures [] + cl.channel == cl.channel
  {
    hide Contents, Payloads, Content;
    ContentsConcat(heap, [cl.writer.data], cl.channel);
    ContentsOne(heap, cl.writer.data);
  }

  lemma WriterStopFlow(cl: Client, heap: Heap)
    requires WriterFlow(cl, heap) && !cl.writer.Writing?
    ensures cl.written <= Payloads(cl.forwarded)
  {
    hide Contents, Payloads;
  }

  lemma WriterKeepsWriterFlow(cfg: Config, cl: Client, a: Act, heap: Heap)
    requires WriterAct(a) && Enabled(cl, a, true) && WriterFlow(cl, heap)
    ensures WriterFlow(ApplyWriter(cfg, cl, a, heap).client, heap)
  {
    hide Contents, Payloads, Content, PutBack;
    if a.WriterTake? {
      hide WriterFlow;
      WriterTakeFlow(cl, heap);
    } else if cl.writer.Writing? {
      WriterWriteFlow(cl, heap);
    } else {
      WriterStopFlow(cl, heap);
    }
  }

  lemma WriterKeepsFlow(cfg: Config, cl: Client, a: Act, heap: Heap)
    requires WriterAct(a) && Enabled(cl, a, true) && Flow(cl, heap)
    ensures Flow(ApplyWriter(cfg, cl, a, heap).client, heap)
  {
    hide SessionFlow, WriterFlow, Content, FromSession, PutBack;
    WriterKeepsWriterFlow(cfg, cl, a, heap);
  }

  lemma QuietKeepsFlow(cl: Client, k: nat, s: Session, heap: Heap)
    requires IsSession(cl, k) && Flow(cl, heap)
    requires var o := cl.sessions[k];
             s.runner == o.runner && s.queue == o.queue && s.offers == o.offers && s.passed == o.passed
    ensures Flow(WithSession(cl, k, s), heap)
  {
    hide Contents, FromSession, Accepted, WriterFlow;
    assert SessionFlow(cl.sessions[k], heap);
    WriterFlowFrame(cl, WithSession(cl, k, s), heap);
  }

  /** The fields the flow speaks of. */
  lemma FlowFrame(cl: Client, cl': Client, heap: Heap)
    requires Flow(cl, heap) && SameHold(cl, cl') && cl'.forwarded == cl.forwarded && cl'.written == cl.written
    ensures Flow(cl', heap)
  {
    hide SessionFlow, FromSession;
  }

  lemma StopKeepsFlow(cl: Client, k: nat, heap: Heap)
    requires IsSession(cl, k) && Flow(cl, heap)
    ensures Flow(StopSession(cl, k), heap)
  {
    hide Flow;
    var s := cl.sessions[k].(active := false, quitClosed := true);
    QuietKeepsFlow(cl, k, s, heap);
    FlowFrame(if cl.sessions[k].active then WithSession(cl, k, s) else cl, StopSession(cl, k), heap);
  }

  lemma AttachKeepsFlow(cl: Client, heap: Heap)
    requires Flow(cl, heap)
    ensures Flow(cl.(sessions := cl.sessions + [NEW_SESSION]), heap)
  {
    hide FromSession, WriterFlow;
    FromSessionNone(cl.forwarded, |cl.sessions|);
    assert SessionFlow(NEW_SESSION, heap);
    WriterFlowFrame(cl, cl.(sessions := cl.sessions + [NEW_SESSION]), heap);
  }

  lemma ReaderKeepsFlow(cl: Client, a: Act, heap: Heap)
    requires ReaderAct(a) && Enabled(cl, a, true) && Flow(cl, heap)
    ensures Flow(ApplyReader(cl, a), heap)
  {
    hide Flow, StopSession, ApplyReader, Enabled;
    ReaderHolds(cl, a);
    if a.Attach? {
      AttachKeepsFlow(cl, heap);
    } else if a.MapChannel? && cl.sessions != [] {
      var s := cl.sessions[Last(cl)];
      QuietKeepsFlow(cl, Last(cl), s.(channels := s.channels[a.upstream := a.downstream]), heap);
    } else if a.Remove? && cl.sessions != [] {
      StopKeepsFlow(cl, Last(cl), heap);
    }
    FlowFrame(ReaderBase(cl, a), ApplyReader(cl, a), heap);
  }

  lemma PushKeepsFlow(cfg: Config, cl: Client, k: nat, p: Slice, heap: Heap)
    requires IsSession(cl, k) && Flow(cl, heap)
    ensures Flow(Push(cfg, cl, k, p, heap).client, heap)
  {
    hide SessionFlow, Content, FromSession, WriterFlow;
    assert SessionFlow(cl.sessions[k], heap);
    PushKeepsSessionFlow(cfg, cl.sessions[k], p, heap);
    WriterFlowFrame(cl, Push(cfg, cl, k, p, heap).client, heap);
  }

  /** Every act keeps the order and the bytes of everything on its way. */
  lemma ActKeepsFlow(cfg: Config, cl: Client, a: Act, heap: Heap)
    requires Enabled(cl, a, true) && Flow(cl, heap)
    ensures Flow(Apply(cfg, cl, a, heap).client, heap)
  {
    hide Flow, ApplyReader, ApplyRunner, ApplyWriter, Push, StopSession;
    if a.Accept? {
      PushKeepsFlow(cfg, cl, a.session, a.packet, heap);
    } else if WriterAct(a) {
      WriterKeepsFlow(cfg, cl, a, heap);
    } else if RunnerAct(a) {
      RunnerKeepsFlow(cfg, cl, a, heap);
    } else if ReaderAct(a) {
      ReaderKeepsFlow(cl, a, heap);
    } else if a.EvictStop? {
      StopKeepsFlow(cl, a.session, heap);
    } else {
      FlowFrame(cl, Evicted(cl), heap);
    }
  }

  /** What the flow invariant means for the peer: the bytes written to the socket are a prefix of
      what entered the channel, and the part of them that came from one session is a prefix of what
      that session's queue accepted, in order and unchanged. */
  lemma WrittenInOrder(cl: Client, heap: Heap, k: nat)
    requires Flow(cl, heap) && IsSession(cl, k)
    ensures |cl.written| <= |cl.forwarded| && cl.written == Payloads(cl.forwarded[..|cl.written|])
    ensures FromSession(cl.forwarded[..|cl.written|], k) <= Accepted(cl.sessions[k].offers)
  {
    hide Accepted, FromSession, Content;
    var n := |cl.written|;
    assert cl.written <= Payloads(cl.forwarded);
    assert Payloads(cl.forwarded[..n]) == Payloads(cl.forwarded)[..n];
    FromSessionPrefix(cl.forwarded, n, k);
    assert SessionFlow(cl.sessions[k], heap);
    assert cl.sessions[k].passed <= Accepted(cl.sessions[k].offers);
  }
}
