/** A client's future depends on its own acts and the bytes it is given, not on which buffers carry
    them: two clients that look alike still look alike after acts that look alike. */
module ClientIsolation {
  import opened ClientPipe
  import opened ClientFlow

  predicate AlikeSlices(ps: seq<Slice>, h: Heap, qs: seq<Slice>, g: Heap) {
    |ps| == |qs| && forall i | 0 <= i < |ps| :: Content(h, ps[i]) == Content(g, qs[i])
  }

  predicate AlikeRunner(r: Runner, h: Heap, q: Runner, g: Heap) {
    if r.Holding? then q.Holding? && Content(h, r.packet) == Content(g, q.packet) else q == r
  }

  predicate AlikeSession(s: Session, h: Heap, t: Session, g: Heap) {
    && AlikeSlices(s.queue, h, t.queue, g) && AlikeRunner(s.runner, h, t.runner, g)
    && t == s.(queue := t.queue, runner := t.runner)
  }

  predicate AlikeSessions(ss: seq<Session>, h: Heap, ts: seq<Session>, g: Heap) {
    |ss| == |ts| && forall k | 0 <= k < |ss| :: AlikeSession(ss[k], h, ts[k], g)
  }

  predicate AlikeWriter(w: Writer, h: Heap, v: Writer, g: Heap) {
    if w.Writing? then v.Writing? && Content(h, w.data) == Content(g, v.data) else v == w
  }

  /** Equal but for the numbers of the buffers that hold the packets. */
  predicate Alike(cl: Client, h: Heap, cm: Client, g: Heap) {
    && AlikeSessions(cl.sessions, h, cm.sessions, g)
    && AlikeSlices(cl.channel, h, cm.channel, g) && AlikeWriter(cl.writer, h, cm.writer, g)
    && cm == cl.(sessions := cm.sessions, channel := cm.channel, writer := cm.writer)
  }

  predicate AlikeActs(a: Act, h: Heap, b: Act, g: Heap) {
    if a.Accept? then b.Accept? && b.session == a.session && Content(h, a.packet) == Content(g, b.packet)
    else b == a
  }

  lemma AlikeEnabled(cl: Client, h: Heap, cm: Client, g: Heap, a: Act, b: Act, down: bool)
    requires Alike(cl, h, cm, g) && AlikeActs(a, h, b, g) && Enabled(cl, a, down)
    ensures Enabled(cm, b, down)
  {
    hide Content;
    if RunnerAct(a) { assert AlikeSession(cl.sessions[a.session], h, cm.sessions[a.session], g); }
    if a.Removed? { assert AlikeSession(cl.sessions[Last(cl)], h, cm.sessions[Last(cl)], g); }
  }

  lemma AlikeUpdate(cl: Client, h: Heap, cm: Client, g: Heap, k: nat, s: Session, t: Session)
    requires Alike(cl, h, cm, g) && IsSession(cl, k) && AlikeSession(s, h, t, g)
    ensures Alike(WithSession(cl, k, s), h, WithSession(cm, k, t), g)
  {
    hide AlikeSession, AlikeSlices, AlikeWriter;
  }

  lemma AlikePushSession(cfg: Config, s: Session, h: Heap, t: Session, g: Heap, p: Slice, q: Slice)
    requires AlikeSession(s, h, t, g) && Content(h, p) == Content(g, q)
    ensures AlikeSession(PushSession(cfg, s, p, h), h, PushSession(cfg, t, q, g), g)
    ensures Takes(cfg, s) == Takes(cfg, t)
  {
    hide Content, AlikeRunner;
  }

  lemma AlikePush(cfg: Config, cl: Client, h: Heap, cm: Client, g: Heap, k: nat, p: Slice, q: Slice)
    requires Alike(cl, h, cm, g) && IsSession(cl, k) && IsSession(cm, k) && Content(h, p) == Content(g, q)
    ensures Alike(Push(cfg, cl, k, p, h).client, h, Push(cfg, cm, k, q, g).client, g)
  {
    hide Content, Alike, PushSession, AlikeSession;
    AlikeParts(cl, h, cm, g, k);
    AlikePushSession(cfg, cl.sessions[k], h, cm.sessions[k], g, p, q);
    AlikeUpdate(cl, h, cm, g, k, PushSession(cfg, cl.sessions[k], p, h), PushSession(cfg, cm.sessions[k], q, g));
  }

  lemma AlikeParts(cl: Client, h: Heap, cm: Client, g: Heap, k: nat)
    requires Alike(cl, h, cm, g) && IsSession(cl, k)
    ensures IsSession(cm, k) && |cm.sessions| == |cl.sessions| && AlikeSession(cl.sessions[k], h, cm.sessions[k], g)
    ensures cm == cl.(sessions := cm.sessions, channel := cm.channel, writer := cm.writer)
  {
  }

  lemma AlikeSessionAfter(cl: Client, h: Heap, cm: Client, g: Heap, a: Act)
    requires RunnerAct(a) && Enabled(cl, a, true) && Enabled(cm, a, true)
    requires AlikeSession(cl.sessions[a.session], h, cm.sessions[a.session], g)
    requires cm == cl.(sessions := cm.sessions, channel := cm.channel, writer := cm.writer)
    ensures AlikeSession(SessionAfter(cl, a, h), h, SessionAfter(cm, a, g), g)
  {
    hide Content, DestroyStation;
    if a.RunnerDestroy? { AlikeStation(cl, cm, cl.sessions[a.session].runner.at); }
  }

  lemma AlikeStation(cl: Client, cm: Client, at: Destroying)
    requires cm == cl.(sessions := cm.sessions, channel := cm.channel, writer := cm.writer)
    ensures DestroyStation(cl, at).1 == DestroyStation(cm, at).1
    ensures SameHold(cl, DestroyStation(cl, at).0) && SameHold(cm, DestroyStation(cm, at).0)
    ensures DestroyStation(cm, at).0
         == DestroyStation(cl, at).0.(sessions := cm.sessions, channel := cm.channel, writer := cm.writer)
  {
  }

  lemma AlikeSend(cl: Client, h: Heap, cm: Client, g: Heap, k: nat, p: Slice, q: Slice)
    requires Alike(cl, h, cm, g) && Content(h, p) == Content(g, q)
    ensures Alike(cl.(channel := cl.channel + [p], forwarded := cl.forwarded + [Tagged(k, Content(h, p))]), h,
                  cm.(channel := cm.channel + [q], forwarded := cm.forwarded + [Tagged(k, Content(g, q))]), g)
  {
    hide Content, AlikeSlices, AlikeSessions, AlikeWriter;
    AlikeSnoc(cl.channel, h, cm.channel, g, p, q);
  }

  lemma AlikeOutsideAfter(cl: Client, h: Heap, cm: Client, g: Heap, a: Act)
    requires RunnerAct(a) && Enabled(cl, a, true) && Enabled(cm, a, true) && Alike(cl, h, cm, g)
    ensures Alike(OutsideAfter(cl, a, h), h, OutsideAfter(cm, a, g), g)
  {
    hide Content, Alike, DestroyStation;
    AlikeParts(cl, h, cm, g, a.session);
    var r, q := cl.sessions[a.session].runner, cm.sessions[a.session].runner;
    if a.Send? && !cl.chanClosed {
      AlikeSend(cl, h, cm, g, a.session, r.packet, q.packet);
    } else if a.RunnerDestroy? {
      AlikeStation(cl, cm, r.at);
      AlikeFields(cl, h, cm, g, DestroyStation(cl, r.at).0, DestroyStation(cm, r.at).0);
    } else {
      AlikeFields(cl, h, cm, g, OutsideAfter(cl, a, h), OutsideAfter(cm, a, g));
    }
  }

  lemma AlikeSnoc(ps: seq<Slice>, h: Heap, qs: seq<Slice>, g: Heap, p: Slice, q: Slice)
    requires AlikeSlices(ps, h, qs, g) && Content(h, p) == Content(g, q)
    ensures AlikeSlices(ps + [p], h, qs + [q], g)
  {
    hide Content;
  }

  lemma AlikeRunnerAct(cfg: Config, cl: Client, h: Heap, cm: Client, g: Heap, a: Act)
    requires RunnerAct(a) && Enabled(cl, a, true) && Enabled(cm, a, true) && Alike(cl, h, cm, g)
    ensures Alike(ApplyRunner(cfg, cl, a, h).client, h, ApplyRunner(cfg, cm, a, g).client, g)
  {
    hide Content, Alike, SessionAfter, OutsideAfter, RunnerPuts, Enabled, AlikeSession;
    assert IsSession(cl, a.session) by { EnabledRunner(cl, a); }
    AlikeParts(cl, h, cm, g, a.session);
    AlikeSessionAfter(cl, h, cm, g, a);
    AlikeOutsideAfter(cl, h, cm, g, a);
    AlikeUpdate(OutsideAfter(cl, a, h), h, OutsideAfter(cm, a, g), g, a.session,
                SessionAfter(cl, a, h), SessionAfter(cm, a, g));
  }

  lemma AlikeWriterAct(cfg: Config, cl: Client, h: Heap, cm: Client, g: Heap, a: Act)
    requires WriterAct(a) && Enabled(cl, a, true) && Enabled(cm, a, true) && Alike(cl, h, cm, g)
    ensures Alike(ApplyWriter(cfg, cl, a, h).client, h, ApplyWriter(cfg, cm, a, g).client, g)
  {
    hide Content, PutBack, AlikeSessions;
  }

  lemma AlikeStop(cl: Client, h: Heap, cm: Client, g: Heap, k: nat)
    requires Alike(cl, h, cm, g) && IsSession(cl, k)
    ensures Alike(StopSession(cl, k), h, StopSession(cm, k), g)
  {
    hide Content, AlikeSlices, AlikeRunner;
    AlikeParts(cl, h, cm, g, k);
    AlikeUpdate(cl, h, cm, g, k,
                cl.sessions[k].(active := false, quitClosed := true),
                cm.sessions[k].(active := false, quitClosed := true));
  }

  /** Fields other than the packets may be set alike on both sides. */
  lemma AlikeFields(cl: Client, h: Heap, cm: Client, g: Heap, cl': Client, cm': Client)
    requires Alike(cl, h, cm, g) && SameHold(cl, cl') && SameHold(cm, cm')
    requires cm' == cl'.(sessions := cm.sessions, channel := cm.channel, writer := cm.writer)
    ensures Alike(cl', h, cm', g)
  {
    hide AlikeSlices, AlikeSessions, AlikeWriter;
  }

  lemma AlikeMap(cl: Client, h: Heap, cm: Client, g: Heap, a: Act)
    requires a.MapChannel? && Enabled(cl, a, true) && Enabled(cm, a, true) && Alike(cl, h, cm, g)
    ensures Alike(ApplyReader(cl, a), h, ApplyReader(cm, a), g)
  {
    hide Content, AlikeSlices, AlikeRunner;
    if cl.sessions != [] {
      AlikeParts(cl, h, cm, g, Last(cl));
      var s, t := cl.sessions[Last(cl)], cm.sessions[Last(cl)];
      AlikeUpdate(cl, h, cm, g, Last(cl), s.(channels := s.channels[a.upstream := a.downstream]),
                  t.(channels := t.channels[a.upstream := a.downstream]));
    }
  }

  lemma AlikeRemove(cl: Client, h: Heap, cm: Client, g: Heap, a: Act)
    requires a.Remove? && Enabled(cl, a, true) && Enabled(cm, a, true) && Alike(cl, h, cm, g)
    ensures Alike(ApplyReader(cl, a), h, ApplyReader(cm, a), g)
  {
    hide Content, AlikeSlices, AlikeRunner, StopSession;
    if cl.sessions != [] {
      AlikeParts(cl, h, cm, g, Last(cl));
      AlikeStop(cl, h, cm, g, Last(cl));
    }
  }

  lemma AlikeAttach(cl: Client, h: Heap, cm: Client, g: Heap, a: Act)
    requires a.Attach? && Enabled(cl, a, true) && Enabled(cm, a, true) && Alike(cl, h, cm, g)
    ensures Alike(ApplyReader(cl, a), h, ApplyReader(cm, a), g)
  {
    hide Content, AlikeSession;
    AlikeNew(h, g);
  }

  /** Acts of the reader that leave the sessions alone. */
  lemma AlikeQuietReader(cl: Client, h: Heap, cm: Client, g: Heap, a: Act)
    requires ReaderAct(a) && Enabled(cl, a, true) && Enabled(cm, a, true) && Alike(cl, h, cm, g)
    requires !a.MapChannel? && !a.Remove? && !a.Attach?
    ensures Alike(ApplyReader(cl, a), h, ApplyReader(cm, a), g)
  {
    hide AlikeSlices, AlikeSessions, AlikeWriter;
    if a.Dismantle? {
      AlikeDismantle(cl, cm);
    } else {
      hide DestroyStation, StopSession;
    }
    AlikeFields(cl, h, cm, g, ApplyReader(cl, a), ApplyReader(cm, a));
  }

  lemma AlikeDismantle(cl: Client, cm: Client)
    requires cl.reader.Dismantling? && cm == cl.(sessions := cm.sessions, channel := cm.channel, writer := cm.writer)
    requires Enabled(cl, Dismantle, true) && Enabled(cm, Dismantle, true)
    ensures SameHold(cl, ApplyReader(cl, Dismantle)) && SameHold(cm, ApplyReader(cm, Dismantle))
    ensures ApplyReader(cm, Dismantle)
         == ApplyReader(cl, Dismantle).(sessions := cm.sessions, channel := cm.channel, writer := cm.writer)
  {
    hide DestroyStation;
    AlikeStation(cl, cm, cl.reader.at);
  }

  lemma AlikeReaderAct(cl: Client, h: Heap, cm: Client, g: Heap, a: Act)
    requires ReaderAct(a) && Enabled(cl, a, true) && Enabled(cm, a, true) && Alike(cl, h, cm, g)
    ensures Alike(ApplyReader(cl, a), h, ApplyReader(cm, a), g)
  {
    hide Alike, ApplyReader, Enabled;
    if a.MapChannel? {
      AlikeMap(cl, h, cm, g, a);
    } else if a.Remove? {
      AlikeRemove(cl, h, cm, g, a);
    } else if a.Attach? {
      AlikeAttach(cl, h, cm, g, a);
    } else {
      AlikeQuietReader(cl, h, cm, g, a);
    }
  }

  lemma AlikeNew(h: Heap, g: Heap)
    ensures AlikeSession(NEW_SESSION, h, NEW_SESSION, g) && Alike(NEW_CLIENT, h, NEW_CLIENT, g)
  {
  }

  /** Alike clients stay alike under alike acts; whether a queue takes a packet, what is passed on
      and what is written are the same on both sides. */
  lemma AlikeAct(cfg: Config, cl: Client, h: Heap, cm: Client, g: Heap, a: Act, b: Act)
    requires Alike(cl, h, cm, g) && AlikeActs(a, h, b, g) && Enabled(cl, a, true)
    ensures Enabled(cm, b, true) && Alike(Apply(cfg, cl, a, h).client, h, Apply(cfg, cm, b, g).client, g)
  {
    hide Content, Alike, ApplyReader, ApplyRunner, ApplyWriter, Push, StopSession;
    AlikeEnabled(cl, h, cm, g, a, b, true);
    if a.Accept? {
      AlikeParts(cl, h, cm, g, a.session);
      AlikePush(cfg, cl, h, cm, g, a.session, a.packet, b.packet);
    } else if WriterAct(a) {
      AlikeWriterAct(cfg, cl, h, cm, g, a);
    } else if RunnerAct(a) {
      AlikeRunnerAct(cfg, cl, h, cm, g, a);
    } else if ReaderAct(a) {
      AlikeReaderAct(cl, h, cm, g, a);
    } else if a.EvictStop? {
      AlikeParts(cl, h, cm, g, a.session);
      AlikeStop(cl, h, cm, g, a.session);
    } else {
      AlikeEvict(cl, h, cm, g);
    }
  }

  lemma AlikeEvict(cl: Client, h: Heap, cm: Client, g: Heap)
    requires Alike(cl, h, cm, g)
    ensures Alike(Evicted(cl), h, Evicted(cm), g)
  {
  }

  // ---------------------------------------------------------------- other buffers do not matter

  lemma {:induction false} CopiesPositive(ps: seq<Slice>, i: nat)
    requires i < |ps|
    ensures Copies(ps, ps[i].buf) > 0
  {
    if i == 0 {
    } else {
      CopiesPositive(ps[1..], i - 1);
    }
  }

  lemma {:induction false} SessionsPositive(ss: seq<Session>, k: nat, b: Buf)
    requires k < |ss| && SessionCopies(ss[k], b) > 0
    ensures SessionsCopies(ss, b) > 0
  {
    hide SessionCopies;
    if k == 0 {
    } else {
      SessionsPositive(ss[1..], k - 1, b);
    }
  }

  /** The heaps agree on every buffer the client holds. */
  ghost predicate AgreeOn(cl: Client, h: Heap, g: Heap) {
    forall b | Held(cl, b) > 0 :: b in h && b in g && g[b] == h[b]
  }

  lemma SlicesAgree(ps: seq<Slice>, h: Heap, g: Heap)
    requires forall b | Copies(ps, b) > 0 :: b in h && b in g && g[b] == h[b]
    ensures AlikeSlices(ps, h, ps, g)
  {
    hide Copies;
    forall i | 0 <= i < |ps| ensures Content(h, ps[i]) == Content(g, ps[i]) {
      CopiesPositive(ps, i);
    }
  }

  /** Writing to a buffer that a client does not hold leaves the client as it was. */
  lemma HeapFrame(cl: Client, h: Heap, g: Heap)
    requires AgreeOn(cl, h, g)
    ensures Alike(cl, h, cl, g)
  {
    hide Copies, Content, SessionsCopies;
    SlicesAgree(cl.channel, h, g);
    SlicesAgree(WriterHand(cl), h, g);
    assert cl.writer.Writing? ==> WriterHand(cl)[0] == cl.writer.data;
    forall k | 0 <= k < |cl.sessions| ensures AlikeSession(cl.sessions[k], h, cl.sessions[k], g) {
      var s := cl.sessions[k];
      forall b | SessionCopies(s, b) > 0 ensures b in h && b in g && g[b] == h[b] {
        SessionsPositive(cl.sessions, k, b);
      }
      SlicesAgree(s.queue, h, g);
      SlicesAgree(RunnerHand(s), h, g);
      assert s.runner.Holding? ==> RunnerHand(s)[0] == s.runner.packet;
    }
  }
}
