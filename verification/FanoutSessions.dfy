/** The queue and the channel map of every session over whole runs: when a packet is taken and when it
    is dropped, and which client channel an upstream channel goes to. */
module FanoutSessions {
  import opened Bytes
  import opened ClientPipe
  import opened ClientFlow
  import opened Fanout
  import opened FanoutSafety

  // ---------------------------------------------------------------- one act

  /** The act takes a packet out of the session's queue. */
  predicate TakesOut(a: Act, k: nat) { (a.Take? || a.DrainOne?) && a.session == k }

  /** What an act that is not the dispatcher's does to one session. */
  predicate SessionMoves(cl: Client, a: Act, k: nat, x: Session, y: Session) {
    && y.offers == x.offers
    && (if TakesOut(a, k) then x.queue != [] && y.queue == x.queue[1..] else y.queue == x.queue)
    && y.channels == (if a.MapChannel? && cl.attached && k + 1 == |cl.sessions|
                      then x.channels[a.upstream := a.downstream] else x.channels)
  }

  /** Sessions stay, and a new one is empty. */
  predicate Moves(cl: Client, a: Act, d: Client) {
    && |d.sessions| >= |cl.sessions|
    && (forall k | 0 <= k < |cl.sessions| :: SessionMoves(cl, a, k, cl.sessions[k], d.sessions[k]))
    && (forall k | |cl.sessions| <= k < |d.sessions| ::
          d.sessions[k].queue == [] && d.sessions[k].offers == [] && d.sessions[k].channels == map[])
    && (d.attached ==> cl.attached || d.sessions != [])
  }

  lemma SessionGoes(cl: Client, a: Act, heap: Heap)
    requires RunnerAct(a) && Enabled(cl, a, true)
    ensures SessionMoves(cl, a, a.session, cl.sessions[a.session], SessionAfter(cl, a, heap))
  {
    hide Content, DestroyStation;
  }

  lemma RunnerMoves(cfg: Config, cl: Client, a: Act, heap: Heap)
    requires RunnerAct(a) && Enabled(cl, a, true)
    ensures Moves(cl, a, ApplyRunner(cfg, cl, a, heap).client)
  {
    EnabledRunner(cl, a);
    SessionGoes(cl, a, heap);
    hide Enabled, SessionAfter, OutsideAfter, RunnerPuts;
  }

  lemma WriterMoves(cfg: Config, cl: Client, a: Act, heap: Heap)
    requires WriterAct(a) && Enabled(cl, a, true)
    ensures Moves(cl, a, ApplyWriter(cfg, cl, a, heap).client)
  {
    hide Enabled, ApplyWriter;
    WriterFrame(cfg, cl, a, heap);
  }

  lemma ReaderMoves(cl: Client, a: Act)
    requires ReaderAct(a) && Enabled(cl, a, true)
    ensures Moves(cl, a, ApplyReader(cl, a))
  {
    AttachKeeps(cl, a);
    hide ApplyReader, Enabled;
    ReaderHolds(cl, a);
  }

  lemma AttachKeeps(cl: Client, a: Act)
    requires ReaderAct(a) && Enabled(cl, a, true)
    ensures ApplyReader(cl, a).attached ==> cl.attached || ApplyReader(cl, a).sessions != []
  {
  }

  lemma ActMoves(cfg: Config, cl: Client, a: Act, heap: Heap)
    requires Enabled(cl, a, true) && !a.Accept?
    ensures Moves(cl, a, Apply(cfg, cl, a, heap).client)
  {
    hide ApplyRunner, ApplyReader, ApplyWriter;
    if WriterAct(a) {
      hide Moves, Enabled;
      WriterMoves(cfg, cl, a, heap);
    } else if RunnerAct(a) {
      hide Moves, Enabled;
      RunnerMoves(cfg, cl, a, heap);
    } else if ReaderAct(a) {
      hide Moves, Enabled;
      ReaderMoves(cl, a);
    }
  }

  /** What a push does to a client: the packet is offered to the session, and taken if and only if its
      queue has room; nothing else of any queue, offer or map changes. */
  predicate Offers(cfg: Config, cl: Client, k: nat, p: Slice, content: bytes, d: Client)
    requires IsSession(cl, k)
  {
    var room := |cl.sessions[k].queue| < cfg.queueSize;
    && |d.sessions| == |cl.sessions| && d.attached == cl.attached
    && d.sessions[k].offers == cl.sessions[k].offers + [Offer(content, room)]
    && d.sessions[k].queue == (if room then cl.sessions[k].queue + [p] else cl.sessions[k].queue)
    && d.sessions[k].channels == cl.sessions[k].channels
    && forall j | 0 <= j < |cl.sessions| && j != k :: d.sessions[j] == cl.sessions[j]
  }

  lemma PushOffers(cfg: Config, cl: Client, k: nat, p: Slice, heap: Heap)
    requires IsSession(cl, k) && Enabled(cl, Accept(k, p), true)
    ensures Offers(cfg, cl, k, p, Content(heap, p), Apply(cfg, cl, Accept(k, p), heap).client)
  {
    hide Content;
  }

  // ---------------------------------------------------------------- one event

  /** What an event does to the sessions of one client. */
  ghost predicate ClientGoes(cfg: Config, s: Sys, e: Event, c: Cid, t: Sys)
    requires Can(cfg, s, e)
  {
    && (c in s.clients ==> c in t.clients)
    && (c in s.clients && e.ClientAct? && e.client == c ==> Moves(s.clients[c], e.act, t.clients[c]))
    && (c in s.clients && e.PushNext? && s.disp.todo[0].client == c ==>
          Offers(cfg, s.clients[c], s.disp.todo[0].session, Slice(s.disp.hand.buf, |s.disp.packet|),
                 Content(s.heap, Slice(s.disp.hand.buf, |s.disp.packet|)), t.clients[c]))
    && (c in s.clients && !(e.ClientAct? && e.client == c) && !(e.PushNext? && s.disp.todo[0].client == c) ==>
          t.clients[c] == s.clients[c])
    && (c !in s.clients && c in t.clients ==> t.clients[c] == NEW_CLIENT)
  }

  lemma EventGoes(cfg: Config, s: Sys, e: Event, c: Cid)
    requires Can(cfg, s, e)
    ensures ClientGoes(cfg, s, e, c, Do(cfg, s, e))
  {
    hide Apply, Enabled, IsSnapshot, Filling, Moves, Offers, Content;
    if e.ClientAct? && e.client == c {
      DownEnables(s.clients[c], e.act, s.down);
      ActMoves(cfg, s.clients[c], e.act, s.heap);
    } else if e.PushNext? && s.disp.todo[0].client == c {
      var t := s.disp.todo[0];
      var p := Slice(s.disp.hand.buf, |s.disp.packet|);
      EnabledPush(s.clients[c], Accept(t.session, p));
      PushOffers(cfg, s.clients[c], t.session, p, s.heap);
    }
  }

  // ---------------------------------------------------------------- queues

  /** In every run: when the dispatcher serves a session, the packet, with byte 1 replaced, is offered to
      that session, and taken if and only if fewer than the configured number are queued just then. No
      other queue or record of any client changes. */
  lemma PushTakenIff(cfg: Config, es: seq<Event>)
    requires Possible(cfg, INIT, es) && Can(cfg, Exec(cfg, INIT, es), PushNext)
    ensures var s := Exec(cfg, INIT, es);
            var t, target := Do(cfg, s, PushNext), s.disp.todo[0];
            var x := s.clients[target.client].sessions[target.session];
            && target.client in t.clients && IsSession(t.clients[target.client], target.session)
            && |s.disp.packet| >= 4
            && var y := t.clients[target.client].sessions[target.session];
               && y.offers == x.offers + [Offer(Stamp(s.disp.packet, target.channel), |x.queue| < cfg.queueSize)]
               && |y.queue| == |x.queue| + (if |x.queue| < cfg.queueSize then 1 else 0)
               && x.queue <= y.queue && y.channels == x.channels
               && (forall c <- s.clients | c != target.client :: c in t.clients && t.clients[c] == s.clients[c])
               && (forall k | 0 <= k < |s.clients[target.client].sessions| && k != target.session ::
                     k < |t.clients[target.client].sessions|
                     && t.clients[target.client].sessions[k] == s.clients[target.client].sessions[k])
  {
    var s := Exec(cfg, INIT, es);
    RunInv(cfg, es);
    hide Exec, Exclusive, ClientOk, Accounted, NothingEarly, Apply, IsSnapshot, Filling, Stamp;
    assert DispOk(cfg, s);
    EventGoes(cfg, s, PushNext, s.disp.todo[0].client);
    forall c <- s.clients | c != s.disp.todo[0].client
      ensures c in Do(cfg, s, PushNext).clients && Do(cfg, s, PushNext).clients[c] == s.clients[c]
    {
      EventGoes(cfg, s, PushNext, c);
    }
  }

  predicate Bounded(cfg: Config, cl: Client) {
    forall k | 0 <= k < |cl.sessions| :: |cl.sessions[k].queue| <= cfg.queueSize
  }

  /** In every run no queue ever holds more than the configured number of packets. */
  lemma {:induction false} QueueBounded(cfg: Config, es: seq<Event>, c: Cid)
    requires Possible(cfg, INIT, es) && c in Exec(cfg, INIT, es).clients
    ensures Bounded(cfg, Exec(cfg, INIT, es).clients[c])
    decreases |es|
  {
    hide Can, Do;
    if es == [] {
    } else {
      var s := Exec(cfg, INIT, es[..|es| - 1]);
      if c in s.clients { QueueBounded(cfg, es[..|es| - 1], c); }
      EventGoes(cfg, s, es[|es| - 1], c);
      GoesBounded(cfg, s, es[|es| - 1], c, Do(cfg, s, es[|es| - 1]));
    }
  }

  lemma GoesBounded(cfg: Config, s: Sys, e: Event, c: Cid, t: Sys)
    requires Can(cfg, s, e) && ClientGoes(cfg, s, e, c, t) && c in t.clients
    requires c in s.clients ==> Bounded(cfg, s.clients[c])
    ensures Bounded(cfg, t.clients[c])
  {
    hide Enabled, IsSnapshot, Content;
  }

  /** Nothing is taken out of the session's queue. */
  ghost predicate StandsStill(fs: seq<Event>, c: Cid, k: nat) {
    forall i | 0 <= i < |fs| && fs[i].ClientAct? && fs[i].client == c :: !TakesOut(fs[i].act, k)
  }

  /** Of the packets offered since `x`, those are taken that had room. */
  predicate TookWhatFits(cfg: Config, x: Session, y: Session) {
    && x.offers <= y.offers
    && (forall i | |x.offers| <= i < |y.offers| ::
          y.offers[i].taken <==> |x.queue| + (i - |x.offers|) < cfg.queueSize)
    && var n := |x.queue| + |y.offers| - |x.offers|;
       |y.queue| == if n <= cfg.queueSize then n else cfg.queueSize
  }

  /** From any reachable state on, while the runner takes nothing out of a session's queue: of the packets
      offered to it exactly the first are taken, as many as there was room for, and all others dropped.
      An empty queue takes exactly the configured number in a row and refuses the next. */
  lemma {:induction false} FillsUp(cfg: Config, es: seq<Event>, c: Cid, k: nat, fs: seq<Event>)
    requires Possible(cfg, INIT, es) && c in Exec(cfg, INIT, es).clients && IsSession(Exec(cfg, INIT, es).clients[c], k)
    requires Possible(cfg, Exec(cfg, INIT, es), fs) && StandsStill(fs, c, k)
    ensures var s := Exec(cfg, INIT, es);
            var t := Exec(cfg, s, fs);
            && c in t.clients && IsSession(t.clients[c], k)
            && TookWhatFits(cfg, s.clients[c].sessions[k], t.clients[c].sessions[k])
    decreases |fs|
  {
    hide Can, Do;
    var s := Exec(cfg, INIT, es);
    if fs == [] {
      QueueBounded(cfg, es, c);
    } else {
      var n := |fs| - 1;
      FillsUp(cfg, es, c, k, fs[..n]);
      var u := Exec(cfg, s, fs[..n]);
      EventGoes(cfg, u, fs[n], c);
      FilledOn(cfg, s.clients[c].sessions[k], u, fs[n], c, k, Do(cfg, u, fs[n]));
    }
  }

  lemma FilledOn(cfg: Config, x: Session, u: Sys, e: Event, c: Cid, k: nat, t: Sys)
    requires Can(cfg, u, e) && ClientGoes(cfg, u, e, c, t) && c in u.clients && IsSession(u.clients[c], k)
    requires TookWhatFits(cfg, x, u.clients[c].sessions[k]) && !(e.ClientAct? && e.client == c && TakesOut(e.act, k))
    ensures IsSession(t.clients[c], k) && TookWhatFits(cfg, x, t.clients[c].sessions[k])
  {
    hide Enabled, IsSnapshot, Content;
  }

  // ---------------------------------------------------------------- channel maps

  lemma {:induction false} AttachedHasSession(cfg: Config, es: seq<Event>, c: Cid)
    requires Possible(cfg, INIT, es) && c in Exec(cfg, INIT, es).clients
    ensures Exec(cfg, INIT, es).clients[c].attached ==> Exec(cfg, INIT, es).clients[c].sessions != []
    decreases |es|
  {
    hide Can, Do, SessionMoves;
    if es == [] {
    } else {
      var s := Exec(cfg, INIT, es[..|es| - 1]);
      if c in s.clients { AttachedHasSession(cfg, es[..|es| - 1], c); }
      EventGoes(cfg, s, es[|es| - 1], c);
    }
  }

  /** The client does not map the upstream channel again. */
  ghost predicate LeavesAlone(fs: seq<Event>, c: Cid, upstream: int) {
    forall i | 0 <= i < |fs| && fs[i].ClientAct? && fs[i].client == c && fs[i].act.MapChannel? ::
      fs[i].act.upstream != upstream
  }

  predicate MapsTo(s: Sys, c: Cid, k: nat, u: int, d: int) {
    && c in s.clients && IsSession(s.clients[c], k)
    && u in s.clients[c].sessions[k].channels && s.clients[c].sessions[k].channels[u] == d
  }

  lemma {:induction false} MappingStays(cfg: Config, s: Sys, c: Cid, k: nat, u: int, d: int, fs: seq<Event>)
    requires MapsTo(s, c, k, u, d) && Possible(cfg, s, fs) && LeavesAlone(fs, c, u)
    ensures MapsTo(Exec(cfg, s, fs), c, k, u, d)
    decreases |fs|
  {
    hide Can, Do;
    if fs == [] {
    } else {
      MappingStays(cfg, s, c, k, u, d, fs[..|fs| - 1]);
      EventGoes(cfg, Exec(cfg, s, fs[..|fs| - 1]), fs[|fs| - 1], c);
    }
  }

  /** In every run: once a registered client maps an upstream channel, its session has that mapping until
      the client maps the channel again; every frame of the channel snapshot in between, while the session
      is registered, is to be pushed to that session with that client channel. */
  lemma MappingHolds(cfg: Config, es: seq<Event>, c: Cid, u: int, d: int, fs: seq<Event>)
    requires Possible(cfg, INIT, es) && Can(cfg, Exec(cfg, INIT, es), ClientAct(c, MapChannel(u, d)))
    requires Exec(cfg, INIT, es).clients[c].attached
    requires Possible(cfg, Do(cfg, Exec(cfg, INIT, es), ClientAct(c, MapChannel(u, d))), fs) && LeavesAlone(fs, c, u)
    ensures var s := Exec(cfg, INIT, es);
            var t := Exec(cfg, Do(cfg, s, ClientAct(c, MapChannel(u, d))), fs);
            && s.clients[c].sessions != [] && MapsTo(t, c, Last(s.clients[c]), u, d)
            && forall packet, targets | Can(cfg, t, Snapshot(packet, targets)) && packet[1] as int == u
                 && t.clients[c].attached && Last(t.clients[c]) == Last(s.clients[c]) ::
                 Target(c, Last(s.clients[c]), d) in targets
  {
    hide Exec, Possible;
    var s := Exec(cfg, INIT, es);
    AttachedHasSession(cfg, es, c);
    var e := ClientAct(c, MapChannel(u, d));
    EventGoes(cfg, s, e, c);
    hide Do, Enabled, Apply;
    MappingStays(cfg, Do(cfg, s, e), c, Last(s.clients[c]), u, d, fs);
    var t := Exec(cfg, Do(cfg, s, e), fs);
    forall packet, targets | Can(cfg, t, Snapshot(packet, targets)) && packet[1] as int == u
        && t.clients[c].attached && Last(t.clients[c]) == Last(s.clients[c])
      ensures Target(c, Last(s.clients[c]), d) in targets
    {
      assert Mapped(t, Target(c, Last(s.clients[c]), d), u);
    }
  }

  /** In every run a session maps nothing that its client did not ask for. */
  lemma {:induction false} OnlyMapped(cfg: Config, es: seq<Event>, c: Cid, k: nat, u: int) returns (i: nat)
    requires Possible(cfg, INIT, es) && c in Exec(cfg, INIT, es).clients && IsSession(Exec(cfg, INIT, es).clients[c], k)
    requires u in Exec(cfg, INIT, es).clients[c].sessions[k].channels
    ensures i < |es| && es[i] == ClientAct(c, MapChannel(u, Exec(cfg, INIT, es).clients[c].sessions[k].channels[u]))
    decreases |es|
  {
    hide Can, Do;
    assert es != [];
    var n := |es| - 1;
    var s := Exec(cfg, INIT, es[..n]);
    EventGoes(cfg, s, es[n], c);
    var d := Exec(cfg, INIT, es).clients[c].sessions[k].channels[u];
    if es[n] == ClientAct(c, MapChannel(u, d)) {
      i := n;
    } else {
      assert MapsTo(s, c, k, u, d);
      i := OnlyMapped(cfg, es[..n], c, k, u);
    }
  }
}
