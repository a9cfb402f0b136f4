/** The buffers on their way through one client: an act neither duplicates nor leaks one, and every
    packet stays one that the guard in front of the pool lets back. */
module ClientFlow {
  import opened ClientPipe

  // ---------------------------------------------------------------- buffers held

  function One(b: Buf, x: Buf): nat { if b == x then 1 else 0 }

  /** How many of the slices lie in buffer `b`. */
  function Copies(ps: seq<Slice>, b: Buf): nat {
    if ps == [] then 0 else One(b, ps[0].buf) + Copies(ps[1..], b)
  }

  lemma CopiesOne(p: Slice, b: Buf)
    ensures Copies([p], b) == One(b, p.buf) && Copies([], b) == 0
  {
    assert [p][1..] == [];
  }

  lemma CopiesHead(ps: seq<Slice>, b: Buf)
    requires ps != []
    ensures Copies(ps, b) == One(b, ps[0].buf) + Copies(ps[1..], b)
  {
  }

  lemma {:induction false} CopiesSnoc(ps: seq<Slice>, p: Slice, b: Buf)
    ensures Copies(ps + [p], b) == Copies(ps, b) + One(b, p.buf)
  {
    if ps == [] {
      assert (ps + [p])[1..] == [];
    } else {
      assert (ps + [p])[1..] == ps[1..] + [p];
      CopiesSnoc(ps[1..], p, b);
    }
  }

  function RunnerHand(s: Session): seq<Slice> { if s.runner.Holding? then [s.runner.packet] else [] }

  function WriterHand(cl: Client): seq<Slice> { if cl.writer.Writing? then [cl.writer.data] else [] }

  function SessionCopies(s: Session, b: Buf): nat { Copies(RunnerHand(s), b) + Copies(s.queue, b) }

  function SessionsCopies(ss: seq<Session>, b: Buf): nat {
    if ss == [] then 0 else SessionCopies(ss[0], b) + SessionsCopies(ss[1..], b)
  }

  /** In how many places of the client buffer `b` is. */
  function Held(cl: Client, b: Buf): nat {
    Copies(WriterHand(cl), b) + Copies(cl.channel, b) + SessionsCopies(cl.sessions, b)
  }

  lemma {:induction false} SessionsCopiesUpdate(ss: seq<Session>, k: nat, s: Session, b: Buf)
    requires k < |ss|
    ensures SessionsCopies(ss[k := s], b) + SessionCopies(ss[k], b) == SessionsCopies(ss, b) + SessionCopies(s, b)
  {
    hide SessionCopies;
    if k > 0 {
      assert ss[k := s][1..] == ss[1..][k - 1 := s];
      SessionsCopiesUpdate(ss[1..], k - 1, s, b);
    } else {
      assert ss[k := s][1..] == ss[1..];
    }
  }

  lemma {:induction false} SessionsCopiesSnoc(ss: seq<Session>, s: Session, b: Buf)
    ensures SessionsCopies(ss + [s], b) == SessionsCopies(ss, b) + SessionCopies(s, b)
  {
    hide SessionCopies;
    if ss == [] {
      assert (ss + [s])[1..] == [];
    } else {
      assert (ss + [s])[1..] == ss[1..] + [s];
      SessionsCopiesSnoc(ss[1..], s, b);
    }
  }

  // ---------------------------------------------------------------- every slice is poolable

  predicate AllPoolable(cfg: Config, ps: seq<Slice>, heap: Heap) {
    forall i | 0 <= i < |ps| :: Poolable(cfg, heap, ps[i])
  }

  predicate SessionPoolable(cfg: Config, s: Session, heap: Heap) {
    AllPoolable(cfg, RunnerHand(s), heap) && AllPoolable(cfg, s.queue, heap)
  }

  /** Every packet on its way is a `$` frame in a buffer of the pool's size, so that the guard in
      front of `Put` always lets it through. */
  predicate ClientPoolable(cfg: Config, cl: Client, heap: Heap) {
    && AllPoolable(cfg, WriterHand(cl), heap) && AllPoolable(cfg, cl.channel, heap)
    && forall k | 0 <= k < |cl.sessions| :: SessionPoolable(cfg, cl.sessions[k], heap)
  }

  function Incoming(a: Act, b: Buf): nat {
    if a.Accept? then One(b, a.packet.buf) else 0
  }

  predicate IncomingPoolable(cfg: Config, a: Act, heap: Heap) {
    a.Accept? ==> Poolable(cfg, heap, a.packet)
  }

  function PutCopies(put: seq<Buf>, b: Buf): nat { multiset(put)[b] }

  lemma PutOne(x: Buf, b: Buf)
    ensures PutCopies([x], b) == One(b, x) && PutCopies([], b) == 0
  {
    assert multiset([x]) == multiset{x};
  }

  /** What leaves the session when its runner acts. */
  function Departing(cl: Client, a: Act): seq<Slice>
    requires RunnerAct(a) && Enabled(cl, a, true)
  {
    var s := cl.sessions[a.session];
    if a.Timeout? || (a.Send? && !cl.chanClosed) then [s.runner.packet]
    else if a.DrainOne? then [s.queue[0]]
    else []
  }

  lemma RunnerSession(cl: Client, a: Act, heap: Heap, b: Buf)
    requires RunnerAct(a) && Enabled(cl, a, true)
    ensures SessionCopies(SessionAfter(cl, a, heap), b) + Copies(Departing(cl, a), b)
         == SessionCopies(cl.sessions[a.session], b)
  {
    hide Copies, One, Content, DestroyStation;
    var s := cl.sessions[a.session];
    CopiesOne(Slice(0, 0), b);
    if s.queue != [] {
      CopiesHead(s.queue, b);
      CopiesOne(s.queue[0], b);
    }
  }

  lemma RunnerElsewhere(cfg: Config, cl: Client, a: Act, heap: Heap, b: Buf)
    requires RunnerAct(a) && Enabled(cl, a, true) && SessionPoolable(cfg, cl.sessions[a.session], heap)
    ensures Copies(OutsideAfter(cl, a, heap).channel, b) + PutCopies(RunnerPuts(cfg, cl, a, heap), b)
         == Copies(cl.channel, b) + Copies(Departing(cl, a), b)
  {
    hide Copies, One, Poolable, PutCopies, Content, DestroyStation;
    var s := cl.sessions[a.session];
    PutOne(0, b);
    CopiesOne(Slice(0, 0), b);
    if s.runner.Holding? {
      var p := RunnerHand(s)[0];
      assert Poolable(cfg, heap, p);
      PutOne(p.buf, b);
      CopiesOne(p, b);
      CopiesSnoc(cl.channel, p, b);
    } else if a.DrainOne? {
      PutOne(s.queue[0].buf, b);
      CopiesOne(s.queue[0], b);
    }
  }

  lemma RunnerConserves(cfg: Config, cl: Client, a: Act, heap: Heap, b: Buf)
    requires RunnerAct(a) && Enabled(cl, a, true) && ClientPoolable(cfg, cl, heap)
    ensures var e := ApplyRunner(cfg, cl, a, heap);
            Held(e.client, b) + PutCopies(e.put, b) == Held(cl, b)
  {
    hide SessionsCopies, Copies, SessionCopies, SessionPoolable, PutCopies, SessionAfter,
         OutsideAfter, RunnerPuts, Departing, Enabled;
    assert IsSession(cl, a.session) by { EnabledRunner(cl, a); }
    RunnerElsewhere(cfg, cl, a, heap, b);
    RunnerSession(cl, a, heap, b);
    SessionsCopiesUpdate(cl.sessions, a.session, SessionAfter(cl, a, heap), b);
  }

  lemma EnabledRunner(cl: Client, a: Act)
    requires RunnerAct(a) && Enabled(cl, a, true)
    ensures IsSession(cl, a.session)
  {
  }

  lemma WriterConserves(cfg: Config, cl: Client, a: Act, heap: Heap, b: Buf)
    requires WriterAct(a) && Enabled(cl, a, true) && ClientPoolable(cfg, cl, heap)
    ensures var e := ApplyWriter(cfg, cl, a, heap);
            Held(e.client, b) + PutCopies(e.put, b) == Held(cl, b)
  {
    hide SessionsCopies, Copies, One, Poolable, PutCopies, Content;
    PutOne(0, b);
    CopiesOne(Slice(0, 0), b);
    if cl.writer.Writing? {
      var p := WriterHand(cl)[0];
      assert Poolable(cfg, heap, p);
      PutOne(p.buf, b);
      CopiesOne(p, b);
    } else if cl.channel != [] {
      CopiesHead(cl.channel, b);
      PutOne(cl.channel[0].buf, b);
      CopiesOne(cl.channel[0], b);
    }
  }

  lemma PushConserves(cfg: Config, cl: Client, k: nat, p: Slice, heap: Heap, b: Buf)
    requires IsSession(cl, k)
    ensures var e := Push(cfg, cl, k, p, heap);
            Held(e.client, b) + PutCopies(e.put, b) == Held(cl, b) + One(b, p.buf)
  {
    hide SessionsCopies, SessionCopies, Copies, One, PutCopies, PushSession;
    SessionsCopiesUpdate(cl.sessions, k, PushSession(cfg, cl.sessions[k], p, heap), b);
    PushSessionCopies(cfg, cl.sessions[k], p, heap, b);
    PutOne(p.buf, b);
  }

  lemma PushSessionCopies(cfg: Config, s: Session, p: Slice, heap: Heap, b: Buf)
    ensures SessionCopies(PushSession(cfg, s, p, heap), b)
         == SessionCopies(s, b) + (if Takes(cfg, s) then One(b, p.buf) else 0)
  {
    hide Copies, One, Content;
    CopiesSnoc(s.queue, p, b);
  }

  lemma QuietSession(cl: Client, k: nat, s: Session, b: Buf)
    requires IsSession(cl, k) && RunnerHand(s) == RunnerHand(cl.sessions[k]) && s.queue == cl.sessions[k].queue
    ensures Held(WithSession(cl, k, s), b) == Held(cl, b)
  {
    hide SessionsCopies, Copies;
    SessionsCopiesUpdate(cl.sessions, k, s, b);
  }

  /** The fields that buffers can be in. */
  predicate SameHold(cl: Client, cl': Client) {
    cl'.writer == cl.writer && cl'.channel == cl.channel && cl'.sessions == cl.sessions
  }

  /** What a reader's act does to the sessions; the rest of it moves no buffer. */
  function ReaderBase(cl: Client, a: Act): Client
    requires ReaderAct(a)
  {
    if a.Attach? && !cl.attached then cl.(sessions := cl.sessions + [NEW_SESSION])
    else if a.MapChannel? && cl.attached && cl.sessions != [] then
      var s := cl.sessions[Last(cl)];
      WithSession(cl, Last(cl), s.(channels := s.channels[a.upstream := a.downstream]))
    else if a.Remove? && cl.attached && cl.sessions != [] && cl.sessions[Last(cl)].active then StopSession(cl, Last(cl))
    else cl
  }

  lemma ReaderHolds(cl: Client, a: Act)
    requires ReaderAct(a) && Enabled(cl, a, true)
    ensures SameHold(ReaderBase(cl, a), ApplyReader(cl, a))
    ensures ApplyReader(cl, a).forwarded == ReaderBase(cl, a).forwarded
    ensures ApplyReader(cl, a).written == ReaderBase(cl, a).written
  {
    hide StopSession;
  }

  lemma StopConserves(cl: Client, k: nat, b: Buf)
    requires IsSession(cl, k)
    ensures Held(StopSession(cl, k), b) == Held(cl, b)
  {
    hide SessionsCopies, Copies;
    QuietSession(cl, k, cl.sessions[k].(active := false, quitClosed := true), b);
  }

  lemma ReaderConserves(cl: Client, a: Act, b: Buf)
    requires Enabled(cl, a, true) && ReaderAct(a)
    ensures Held(ApplyReader(cl, a), b) == Held(cl, b)
  {
    hide SessionsCopies, Copies, StopSession, ApplyReader, Enabled;
    ReaderHolds(cl, a);
    if a.Attach? {
      SessionsCopiesSnoc(cl.sessions, NEW_SESSION, b);
      NewSessionEmpty(b);
    } else if a.MapChannel? && cl.sessions != [] {
      var s := cl.sessions[Last(cl)];
      QuietSession(cl, Last(cl), s.(channels := s.channels[a.upstream := a.downstream]), b);
    } else if a.Remove? && cl.sessions != [] {
      StopConserves(cl, Last(cl), b);
    }
  }

  lemma NewSessionEmpty(b: Buf)
    ensures SessionCopies(NEW_SESSION, b) == 0
  {
  }

  /** Conservation of buffers: whatever the act, the places buffer `b` had in the client plus the
      one it arrives in are the places it has plus those it was put back from. */
  lemma ActConservesBuffers(cfg: Config, cl: Client, a: Act, heap: Heap, b: Buf)
    requires Enabled(cl, a, true) && ClientPoolable(cfg, cl, heap)
    ensures var e := Apply(cfg, cl, a, heap);
            Held(e.client, b) + PutCopies(e.put, b) == Held(cl, b) + Incoming(a, b)
  {
    hide ApplyReader, ApplyRunner, ApplyWriter, Push, StopSession, ClientPoolable, SessionsCopies, Copies;
    if a.Accept? {
      PushConserves(cfg, cl, a.session, a.packet, heap, b);
    } else if WriterAct(a) {
      WriterConserves(cfg, cl, a, heap, b);
    } else if RunnerAct(a) {
      RunnerConserves(cfg, cl, a, heap, b);
    } else if a.EvictStop? {
      StopConserves(cl, a.session, b);
    } else if ReaderAct(a) {
      ReaderConserves(cl, a, b);
    }
  }

  lemma PoolableUpdate(cfg: Config, cl: Client, k: nat, s: Session, heap: Heap)
    requires IsSession(cl, k) && ClientPoolable(cfg, cl, heap) && SessionPoolable(cfg, s, heap)
    ensures ClientPoolable(cfg, WithSession(cl, k, s), heap)
  {
    hide SessionPoolable, AllPoolable;
  }

  lemma RunnerKeepsPoolable(cfg: Config, cl: Client, a: Act, heap: Heap)
    requires RunnerAct(a) && Enabled(cl, a, true) && ClientPoolable(cfg, cl, heap)
    ensures ClientPoolable(cfg, ApplyRunner(cfg, cl, a, heap).client, heap)
  {
    hide Poolable, ClientPoolable, SessionAfter, OutsideAfter, RunnerPuts, SessionPoolable, AllPoolable, Enabled;
    assert IsSession(cl, a.session) by { EnabledRunner(cl, a); }
    PoolableParts(cfg, cl, a.session, heap);
    SessionAfterPoolable(cfg, cl, a, heap);
    var c := OutsideAfter(cl, a, heap);
    PoolableChannel(cfg, cl, c.channel, heap);
    PoolableHold(cfg, cl.(channel := c.channel), c, heap);
    PoolableUpdate(cfg, c, a.session, SessionAfter(cl, a, heap), heap);
  }

  lemma SessionAfterPoolable(cfg: Config, cl: Client, a: Act, heap: Heap)
    requires RunnerAct(a) && Enabled(cl, a, true)
    requires SessionPoolable(cfg, cl.sessions[a.session], heap) && AllPoolable(cfg, cl.channel, heap)
    ensures SessionPoolable(cfg, SessionAfter(cl, a, heap), heap)
    ensures AllPoolable(cfg, OutsideAfter(cl, a, heap).channel, heap)
  {
    hide Poolable, Content;
    var s := cl.sessions[a.session];
    if s.runner.Holding? { assert Poolable(cfg, heap, RunnerHand(s)[0]); }
  }

  lemma PoolableParts(cfg: Config, cl: Client, k: nat, heap: Heap)
    requires IsSession(cl, k) && ClientPoolable(cfg, cl, heap)
    ensures SessionPoolable(cfg, cl.sessions[k], heap) && AllPoolable(cfg, cl.channel, heap)
  {
  }

  lemma PoolableChannel(cfg: Config, cl: Client, channel: seq<Slice>, heap: Heap)
    requires ClientPoolable(cfg, cl, heap) && AllPoolable(cfg, channel, heap)
    ensures ClientPoolable(cfg, cl.(channel := channel), heap)
  {
  }

  lemma PoolableHold(cfg: Config, cl: Client, cl': Client, heap: Heap)
    requires ClientPoolable(cfg, cl, heap) && SameHold(cl, cl')
    ensures ClientPoolable(cfg, cl', heap)
  {
  }

  lemma WriterKeepsPoolable(cfg: Config, cl: Client, a: Act, heap: Heap)
    requires WriterAct(a) && Enabled(cl, a, true) && ClientPoolable(cfg, cl, heap)
    ensures ClientPoolable(cfg, ApplyWriter(cfg, cl, a, heap).client, heap)
  {
    hide Poolable;
  }

  lemma StopKeepsPoolable(cfg: Config, cl: Client, k: nat, heap: Heap)
    requires IsSession(cl, k) && ClientPoolable(cfg, cl, heap)
    ensures ClientPoolable(cfg, StopSession(cl, k), heap)
  {
    hide Poolable, ClientPoolable;
    var s := cl.sessions[k].(active := false, quitClosed := true);
    PoolableParts(cfg, cl, k, heap);
    PoolableUpdate(cfg, cl, k, s, heap);
    PoolableHold(cfg, if cl.sessions[k].active then WithSession(cl, k, s) else cl, StopSession(cl, k), heap);
  }

  lemma PoolableAttach(cfg: Config, cl: Client, heap: Heap)
    requires ClientPoolable(cfg, cl, heap)
    ensures ClientPoolable(cfg, cl.(sessions := cl.sessions + [NEW_SESSION]), heap)
  {
    hide Poolable;
    assert SessionPoolable(cfg, NEW_SESSION, heap);
  }

  lemma ReaderKeepsPoolable(cfg: Config, cl: Client, a: Act, heap: Heap)
    requires ReaderAct(a) && Enabled(cl, a, true) && ClientPoolable(cfg, cl, heap)
    ensures ClientPoolable(cfg, ApplyReader(cl, a), heap)
  {
    hide Poolable, ClientPoolable, StopSession, ApplyReader, Enabled;
    ReaderHolds(cl, a);
    if a.Attach? {
      PoolableAttach(cfg, cl, heap);
    } else if a.MapChannel? && cl.sessions != [] {
      var s := cl.sessions[Last(cl)];
      PoolableParts(cfg, cl, Last(cl), heap);
      PoolableUpdate(cfg, cl, Last(cl), s.(channels := s.channels[a.upstream := a.downstream]), heap);
    } else if a.Remove? && cl.sessions != [] {
      StopKeepsPoolable(cfg, cl, Last(cl), heap);
    }
    PoolableHold(cfg, ReaderBase(cl, a), ApplyReader(cl, a), heap);
  }

  lemma PushKeepsPoolable(cfg: Config, cl: Client, k: nat, p: Slice, heap: Heap)
    requires IsSession(cl, k) && ClientPoolable(cfg, cl, heap) && Poolable(cfg, heap, p)
    ensures ClientPoolable(cfg, Push(cfg, cl, k, p, heap).client, heap)
  {
    hide Poolable, ClientPoolable;
    PoolableParts(cfg, cl, k, heap);
    PoolableUpdate(cfg, cl, k, PushSession(cfg, cl.sessions[k], p, heap), heap);
  }

  /** Every act keeps every packet on its way poolable. */
  lemma ActKeepsPoolable(cfg: Config, cl: Client, a: Act, heap: Heap)
    requires Enabled(cl, a, true) && ClientPoolable(cfg, cl, heap) && IncomingPoolable(cfg, a, heap)
    ensures ClientPoolable(cfg, Apply(cfg, cl, a, heap).client, heap)
  {
    hide Poolable, ApplyReader, ApplyRunner, ApplyWriter, Push, StopSession, ClientPoolable;
    if a.Accept? {
      PushKeepsPoolable(cfg, cl, a.session, a.packet, heap);
    } else if WriterAct(a) {
      WriterKeepsPoolable(cfg, cl, a, heap);
    } else if RunnerAct(a) {
      RunnerKeepsPoolable(cfg, cl, a, heap);
    } else if ReaderAct(a) {
      ReaderKeepsPoolable(cfg, cl, a, heap);
    } else if a.EvictStop? {
      StopKeepsPoolable(cfg, cl, a.session, heap);
    } else {
      PoolableHold(cfg, cl, Evicted(cl), heap);
    }
  }
}
