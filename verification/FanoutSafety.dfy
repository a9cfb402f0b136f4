/** Every event of the fan-out keeps its invariant, so the invariant holds in every reachable state
    of every interleaving; and what it means for the clients. */
module FanoutSafety {
  import opened Bytes
  import opened ClientPipe
  import opened ClientFlow
  import opened ClientOrder
  import opened ClientIsolation
  import opened Fanout

  // ---------------------------------------------------------------- changing the heap

  lemma SlicesPoolable(cfg: Config, ps: seq<Slice>, h: Heap, g: Heap)
    requires AllPoolable(cfg, ps, h)
    requires forall b | Copies(ps, b) > 0 :: b in h && b in g && g[b] == h[b]
    ensures AllPoolable(cfg, ps, g)
  {
    hide Copies;
    forall i | 0 <= i < |ps| ensures Poolable(cfg, g, ps[i]) {
      CopiesPositive(ps, i);
      assert Poolable(cfg, h, ps[i]);
    }
  }

  lemma PoolableFrame(cfg: Config, cl: Client, h: Heap, g: Heap)
    requires ClientPoolable(cfg, cl, h) && AgreeOn(cl, h, g)
    ensures ClientPoolable(cfg, cl, g)
  {
    hide Copies, Poolable, SessionsCopies;
    SlicesPoolable(cfg, cl.channel, h, g);
    SlicesPoolable(cfg, WriterHand(cl), h, g);
    forall k | 0 <= k < |cl.sessions| ensures SessionPoolable(cfg, cl.sessions[k], g) {
      var s := cl.sessions[k];
      assert SessionPoolable(cfg, s, h);
      forall b | SessionCopies(s, b) > 0 ensures b in h && b in g && g[b] == h[b] {
        SessionsPositive(cl.sessions, k, b);
      }
      SlicesPoolable(cfg, s.queue, h, g);
      SlicesPoolable(cfg, RunnerHand(s), h, g);
    }
  }

  lemma FlowAlike(cl: Client, h: Heap, g: Heap)
    requires Flow(cl, h) && Alike(cl, h, cl, g)
    ensures Flow(cl, g)
  {
    hide Content, FromSession, Accepted, Payloads;
    assert Contents(g, WriterHand(cl) + cl.channel) == Contents(h, WriterHand(cl) + cl.channel);
    forall k | 0 <= k < |cl.sessions| ensures SessionFlow(cl.sessions[k], g) {
      var s := cl.sessions[k];
      assert SessionFlow(s, h) && AlikeSession(s, h, s, g);
      assert Contents(g, RunnerHand(s) + s.queue) == Contents(h, RunnerHand(s) + s.queue);
    }
  }

  /** The dispatcher writes only to the buffer in its own hand, so no client notices. */
  lemma ClientFrame(cfg: Config, s: Sys, s': Sys, c: Cid)
    requires c in s.clients && c in s'.clients && s'.clients[c] == s.clients[c] && ClientOk(cfg, s, c)
    requires AgreeOn(s.clients[c], s.heap, s'.heap)
    ensures ClientOk(cfg, s', c)
    ensures Alike(s.clients[c], s.heap, s'.clients[c], s'.heap)
  {
    hide ClientPoolable, Flow, Alike, AgreeOn;
    HeapFrame(s.clients[c], s.heap, s'.heap);
    PoolableFrame(cfg, s.clients[c], s.heap, s'.heap);
    FlowAlike(s.clients[c], s.heap, s'.heap);
  }

  /** Under exclusive ownership a client holds nothing the dispatcher or another stream holds, and
      nothing new. */
  lemma ElsewhereAgrees(s: Sys, c: Cid, b: Buf, x: bytes)
    requires Exclusive(s) && c in s.clients
    requires b !in s.heap || s.foreign[b] > 0 || (s.disp.Fanning? && !s.disp.hand.Empty? && s.disp.hand.buf == b)
    ensures AgreeOn(s.clients[c], s.heap, s.heap[b := x])
  {
    hide Held;
    assert b in s.heap ==> Holds(s, InDispatch, b) > 0 || Holds(s, Elsewhere, b) > 0;
    forall y | Held(s.clients[c], y) > 0 ensures y in s.heap && y != b {
      assert Holds(s, OfClient(c), y) > 0;
    }
  }

  // ---------------------------------------------------------------- ownership, event by event

  lemma ActKeepsExclusive(cfg: Config, s: Sys, c: Cid, a: Act)
    requires Exclusive(s) && c in s.clients && !a.Accept? && Enabled(s.clients[c], a, true)
    requires ClientPoolable(cfg, s.clients[c], s.heap)
    ensures Exclusive(OnClient(cfg, s, c, a))
  {
    hide Apply, Held, Exclusive, ClientPoolable, Enabled;
    var s' := OnClient(cfg, s, c, a);
    forall b ensures Holds(s', OfClient(c), b) + Holds(s', Pool, b) == Holds(s, OfClient(c), b) + Holds(s, Pool, b) {
      ActConservesBuffers(cfg, s.clients[c], a, s.heap, b);
    }
    MoveKeepsExclusive(s, s', OfClient(c), Pool);
  }

  lemma PushKeepsExclusive(cfg: Config, s: Sys)
    requires Exclusive(s) && DispOk(cfg, s) && Can(cfg, s, PushNext)
    requires ClientPoolable(cfg, s.clients[s.disp.todo[0].client], s.heap)
    ensures Exclusive(Do(cfg, s, PushNext))
  {
    hide Held, Exclusive, ClientPoolable, DispOk, PushSession;
    var t := s.disp.todo[0];
    var p := Slice(s.disp.hand.buf, |s.disp.packet|);
    var cl := s.clients[t.client];
    var s' := Do(cfg, s, PushNext);
    var to := if Takes(cfg, cl.sessions[t.session]) then OfClient(t.client) else Pool;
    var e := Push(cfg, cl, t.session, p, s.heap);
    forall b ensures Holds(s', InDispatch, b) + Holds(s', to, b) == Holds(s, InDispatch, b) + Holds(s, to, b) {
      PushConserves(cfg, cl, t.session, p, s.heap, b);
      PutOne(p.buf, b);
    }
    forall h, b | h != InDispatch && h != to ensures Holds(s', h, b) == Holds(s, h, b) {
      PushConserves(cfg, cl, t.session, p, s.heap, b);
      PutOne(p.buf, b);
    }
    MoveKeepsExclusive(s, s', InDispatch, to);
  }

  lemma GetKeepsExclusive(cfg: Config, s: Sys, e: Event)
    requires Exclusive(s) && Can(cfg, s, e) && (e.GetPooled? || e.Lend? || e.Return?)
    ensures Exclusive(Do(cfg, s, e))
  {
    hide Held, Exclusive, IsSnapshot;
    MoveKeepsExclusive(s, Do(cfg, s, e), Pool, if e.GetPooled? then InDispatch else Elsewhere);
  }

  lemma FreshKeepsExclusive(cfg: Config, s: Sys, e: Event)
    requires Exclusive(s) && Can(cfg, s, e) && (e.GetFresh? || e.LendFresh?)
    ensures Exclusive(Do(cfg, s, e))
  {
    hide Held;
    var s' := Do(cfg, s, e);
    var to := if e.GetFresh? then InDispatch else Elsewhere;
    forall h, b ensures Holds(s', h, b) == Holds(s, h, b) + (if h == to then One(b, e.buf) else 0) {
    }
    forall h, g, b | Holds(s', h, b) > 0 && Holds(s', g, b) > 0 ensures h == g {
      assert Holds(s, h, b) > 0 ==> b in s.heap;
      assert Holds(s, g, b) > 0 ==> b in s.heap;
    }
  }

  lemma QuietKeepsExclusive(cfg: Config, s: Sys, e: Event)
    requires Exclusive(s) && Can(cfg, s, e)
    requires e.Connect? || e.Snapshot? || e.Fill? || e.FanDone? || e.Forget? || e.Shutdown? || e.Scribble?
    ensures Exclusive(Do(cfg, s, e))
  {
    hide Exclusive, Filling;
    forall b ensures Held(NEW_CLIENT, b) == 0 { NewClientEmpty(b); }
    ShrinkKeepsExclusive(s, Do(cfg, s, e)) by {
      hide Held;
      forall b ensures Held(NEW_CLIENT, b) == 0 { NewClientEmpty(b); }
    }
  }

  lemma NewClientEmpty(b: Buf)
    ensures Held(NEW_CLIENT, b) == 0
  {
  }

  /** Exclusive ownership is kept by every event. */
  lemma EventKeepsExclusive(cfg: Config, s: Sys, e: Event)
    requires Inv(cfg, s) && Can(cfg, s, e)
    ensures Exclusive(Do(cfg, s, e))
  {
    hide Exclusive, Held, DispOk, ClientPoolable, Flow, Enabled;
    if e.ClientAct? {
      assert ClientOk(cfg, s, e.client);
      assert !e.act.Accept? && Enabled(s.clients[e.client], e.act, true) by {
        DownEnables(s.clients[e.client], e.act, s.down);
      }
      ActKeepsExclusive(cfg, s, e.client, e.act);
    } else if e.PushNext? {
      assert ClientOk(cfg, s, s.disp.todo[0].client);
      PushKeepsExclusive(cfg, s);
    } else if e.GetPooled? || e.Lend? || e.Return? {
      GetKeepsExclusive(cfg, s, e);
    } else if e.GetFresh? || e.LendFresh? {
      FreshKeepsExclusive(cfg, s, e);
    } else {
      QuietKeepsExclusive(cfg, s, e);
    }
  }

  // ---------------------------------------------------------------- clients, event by event

  lemma OnClientKeepsOk(cfg: Config, s: Sys, c: Cid, a: Act, down: bool)
    requires c in s.clients && Enabled(s.clients[c], a, down) && IncomingPoolable(cfg, a, s.heap)
    requires forall d | d in s.clients :: ClientOk(cfg, s, d)
    ensures Enabled(s.clients[c], a, true)
    ensures forall d | d in s.clients :: ClientOk(cfg, OnClient(cfg, s, c, a), d)
  {
    hide Apply, Enabled, ClientPoolable, Flow;
    DownEnables(s.clients[c], a, down);
    assert ClientOk(cfg, s, c);
    ActKeepsPoolable(cfg, s.clients[c], a, s.heap);
    ActKeepsFlow(cfg, s.clients[c], a, s.heap);
    forall d | d in s.clients ensures ClientOk(cfg, OnClient(cfg, s, c, a), d) {
      assert ClientOk(cfg, s, d);
    }
  }

  lemma NewClientOk(cfg: Config, heap: Heap)
    ensures ClientPoolable(cfg, NEW_CLIENT, heap) && Flow(NEW_CLIENT, heap)
  {
  }

  lemma FilledIsPoolable(cfg: Config, s: Sys)
    requires DispOk(cfg, s) && s.disp.Fanning? && s.disp.hand.Filled?
    ensures Poolable(cfg, s.heap, Slice(s.disp.hand.buf, |s.disp.packet|))
    ensures Content(s.heap, Slice(s.disp.hand.buf, |s.disp.packet|)) == Stamp(s.disp.packet, s.disp.todo[0].channel)
  {
    var x := s.heap[s.disp.hand.buf];
    assert x[..|s.disp.packet|][0] == x[0];
  }

  lemma EventKeepsClients(cfg: Config, s: Sys, e: Event)
    requires Inv(cfg, s) && Can(cfg, s, e)
    ensures forall c | c in Do(cfg, s, e).clients :: ClientOk(cfg, Do(cfg, s, e), c)
  {
    hide Exclusive, DispOk, ClientPoolable, Flow, Enabled, Apply, Filling;
    var s' := Do(cfg, s, e);
    if e.ClientAct? {
      OnClientKeepsOk(cfg, s, e.client, e.act, s.down);
    } else if e.PushNext? {
      var t := s.disp.todo[0];
      FilledIsPoolable(cfg, s);
      var a := Accept(t.session, Slice(s.disp.hand.buf, |s.disp.packet|));
      EnabledPush(s.clients[t.client], a);
      OnClientKeepsOk(cfg, s, t.client, a, true);
      forall c | c in s'.clients ensures ClientOk(cfg, s', c) {
        assert ClientOk(cfg, OnClient(cfg, s, t.client, a), c);
      }
    } else if e.GetFresh? || e.Fill? || e.LendFresh? || e.Scribble? {
      var b := if e.Fill? then s.disp.hand.buf else e.buf;
      forall c | c in s'.clients ensures ClientOk(cfg, s', c) {
        assert ClientOk(cfg, s, c);
        ElsewhereAgrees(s, c, b, s'.heap[b]);
        assert s'.heap == s.heap[b := s'.heap[b]];
        ClientFrame(cfg, s, s', c);
      }
    } else {
      NewClientOk(cfg, s.heap);
      forall c | c in s'.clients ensures ClientOk(cfg, s', c) {
        assert c in s.clients ==> ClientOk(cfg, s, c);
      }
    }
  }

  lemma EnabledPush(cl: Client, a: Act)
    requires a.Accept? && IsSession(cl, a.session)
    ensures Enabled(cl, a, true)
  {
  }

  // ---------------------------------------------------------------- sessions never go away

  predicate KeepsOffers(cl: Client, cl': Client) {
    && |cl'.sessions| >= |cl.sessions|
    && (forall k | 0 <= k < |cl.sessions| :: cl'.sessions[k].offers == cl.sessions[k].offers)
    && (forall k | |cl.sessions| <= k < |cl'.sessions| :: cl'.sessions[k].offers == [])
  }

  lemma RunnerKeepsOffers(cfg: Config, cl: Client, a: Act, heap: Heap)
    requires RunnerAct(a) && Enabled(cl, a, true)
    ensures KeepsOffers(cl, ApplyRunner(cfg, cl, a, heap).client)
  {
    hide Content, DestroyStation, PutBack;
  }

  lemma ReaderKeepsOffers(cl: Client, a: Act)
    requires ReaderAct(a) && Enabled(cl, a, true)
    ensures KeepsOffers(cl, ApplyReader(cl, a))
  {
    hide ApplyReader, Enabled;
    ReaderHolds(cl, a);
  }

  lemma ActKeepsOffers(cfg: Config, cl: Client, a: Act, heap: Heap)
    requires Enabled(cl, a, true) && !a.Accept?
    ensures KeepsOffers(cl, Apply(cfg, cl, a, heap).client)
  {
    hide ApplyRunner, ApplyReader, ApplyWriter, StopSession, Enabled, KeepsOffers;
    if WriterAct(a) {
      WriterKeepsOffers(cfg, cl, a, heap);
    } else if RunnerAct(a) {
      RunnerKeepsOffers(cfg, cl, a, heap);
    } else if ReaderAct(a) {
      ReaderKeepsOffers(cl, a);
    } else {
      EvictKeepsOffers(cl, a);
    }
  }

  lemma WriterKeepsOffers(cfg: Config, cl: Client, a: Act, heap: Heap)
    requires WriterAct(a) && Enabled(cl, a, true)
    ensures KeepsOffers(cl, ApplyWriter(cfg, cl, a, heap).client)
  {
    hide Content, PutBack;
  }

  lemma EvictKeepsOffers(cl: Client, a: Act)
    requires Enabled(cl, a, true) && (a.Evict? || a.EvictStop?)
    ensures KeepsOffers(cl, if a.Evict? then Evicted(cl) else StopSession(cl, a.session))
  {
  }

  // ---------------------------------------------------------------- the dispatcher, event by event

  lemma FillingFront(cfg: Config, was: bytes, packet: bytes, ch: int)
    requires |was| == cfg.bufferSize && IsPacket(cfg, packet)
    ensures |Filling(was, packet, ch)| == |was|
    ensures Filling(was, packet, ch)[..|packet|] == Stamp(packet, ch)
  {
  }

  lemma EventKeepsHeap(cfg: Config, s: Sys, e: Event)
    requires HeapOk(cfg, s) && DispOk(cfg, s) && Can(cfg, s, e)
    ensures HeapOk(cfg, Do(cfg, s, e))
  {
    hide Apply, Enabled, Filling;
    if e.Fill? {
      FillingFront(cfg, s.heap[s.disp.hand.buf], s.disp.packet, s.disp.todo[0].channel);
    }
  }

  lemma ActKeepsDisp(cfg: Config, s: Sys, c: Cid, a: Act)
    requires DispOk(cfg, s) && c in s.clients && Enabled(s.clients[c], a, true) && !a.Accept?
    ensures DispOk(cfg, OnClient(cfg, s, c, a))
  {
    hide Apply, Enabled;
    ActKeepsOffers(cfg, s.clients[c], a, s.heap);
  }

  lemma PushKeepsDisp(cfg: Config, s: Sys)
    requires DispOk(cfg, s) && Can(cfg, s, PushNext)
    ensures DispOk(cfg, Do(cfg, s, PushNext))
  {
    hide PushSession;
  }

  lemma FillKeepsDisp(cfg: Config, s: Sys)
    requires HeapOk(cfg, s) && DispOk(cfg, s) && Can(cfg, s, Fill)
    ensures DispOk(cfg, Do(cfg, s, Fill))
  {
    hide Filling;
    FillingFront(cfg, s.heap[s.disp.hand.buf], s.disp.packet, s.disp.todo[0].channel);
  }

  /** What another stream writes to is not what the dispatcher has in hand. */
  lemma ScribbledElsewhere(s: Sys, b: Buf)
    requires Exclusive(s) && s.foreign[b] > 0
    ensures s.disp.Fanning? && !s.disp.hand.Empty? ==> s.disp.hand.buf != b
  {
    assert Holds(s, Elsewhere, b) > 0;
    assert s.disp.Fanning? && !s.disp.hand.Empty? ==> Holds(s, InDispatch, s.disp.hand.buf) > 0;
  }

  lemma EventKeepsDisp(cfg: Config, s: Sys, e: Event)
    requires HeapOk(cfg, s) && DispOk(cfg, s) && Exclusive(s) && Can(cfg, s, e)
    ensures DispOk(cfg, Do(cfg, s, e))
  {
    hide Apply, Enabled, Filling, Push, Exclusive, DispOk, IsSnapshot, Unlocked;
    if e.ClientAct? {
      DownEnables(s.clients[e.client], e.act, s.down);
      ActKeepsDisp(cfg, s, e.client, e.act);
    } else if e.PushNext? {
      PushKeepsDisp(cfg, s);
    } else if e.Fill? {
      FillKeepsDisp(cfg, s);
    } else if e.Snapshot? {
      SnapshotKeepsDisp(cfg, s, e);
    } else {
      if e.Scribble? { ScribbledElsewhere(s, e.buf); }
      QuietKeepsDisp(cfg, s, Do(cfg, s, e));
    }
  }

  lemma SnapshotKeepsDisp(cfg: Config, s: Sys, e: Event)
    requires e.Snapshot? && Can(cfg, s, e)
    ensures DispOk(cfg, Do(cfg, s, e))
  {
    hide Stamp, Unlocked;
    forall i | 0 <= i < |e.targets|
      ensures e.targets[i].client in s.clients && IsSession(s.clients[e.targets[i].client], e.targets[i].session)
    {
      assert Mapped(s, e.targets[i], e.packet[1] as int);
    }
  }

  /** Steps that leave the clients and a filled buffer alone. */
  lemma QuietKeepsDisp(cfg: Config, s: Sys, s': Sys)
    requires DispOk(cfg, s) && (forall c | c in s.clients :: c in s'.clients && s'.clients[c] == s.clients[c])
    requires s'.disp.Fanning? ==>
               && s.disp.Fanning? && s'.disp.packet == s.disp.packet && s'.disp.todo == s.disp.todo
               && (s'.disp.hand == s.disp.hand || (!s'.disp.hand.Filled? && s.disp.todo != []))
    requires s.disp.Fanning? && s.disp.hand.Filled? && s.disp.hand.buf in s.heap ==>
               s.disp.hand.buf in s'.heap && s'.heap[s.disp.hand.buf] == s.heap[s.disp.hand.buf]
    ensures DispOk(cfg, s')
  {
    hide Stamp;
  }

  // ---------------------------------------------------------------- accounting, event by event

  lemma {:induction false} ForTargetsNone(packet: bytes, ts: seq<Target>, c: Cid, k: nat)
    requires |packet| >= 4 && forall i | 0 <= i < |ts| :: !(ts[i].client == c && ts[i].session == k)
    ensures ForTargets(packet, ts, c, k) == []
  {
    if ts == [] {
    } else {
      ForTargetsNone(packet, ts[1..], c, k);
    }
  }

  lemma TargetedSnoc(shots: seq<Shot>, x: Shot, c: Cid, k: nat)
    requires ShotsOk(shots) && |x.packet| >= 4
    ensures ShotsOk(shots + [x])
    ensures Targeted(shots + [x], c, k) == Targeted(shots, c, k) + ForTargets(x.packet, x.targets, c, k)
  {
    assert (shots + [x])[..|shots|] == shots;
  }

  ghost predicate Books(cfg: Config, s: Sys) {
    && ShotsOk(s.dispatched) && DispOk(cfg, s)
    && (forall c, k: nat | c in s.clients && IsSession(s.clients[c], k) :: Accounted(s, c, k))
    && NothingEarly(s)
  }

  lemma ActKeepsBooks(cfg: Config, s: Sys, c: Cid, a: Act)
    requires Books(cfg, s) && c in s.clients && Enabled(s.clients[c], a, true) && !a.Accept?
    ensures Books(cfg, OnClient(cfg, s, c, a))
  {
    hide Apply, Enabled, Targeted, ForTargets;
    var s' := OnClient(cfg, s, c, a);
    ActKeepsOffers(cfg, s.clients[c], a, s.heap);
    ActKeepsDisp(cfg, s, c, a);
    forall d, k: nat | d in s'.clients && IsSession(s'.clients[d], k) ensures Accounted(s', d, k) {
      if IsSession(s.clients[d], k) {
        assert Accounted(s, d, k);
      } else {
        if s.disp.Fanning? { ForTargetsNone(s.disp.packet, s.disp.todo, d, k); }
      }
    }
  }

  lemma SnapshotKeepsBooks(cfg: Config, s: Sys, e: Event)
    requires Books(cfg, s) && e.Snapshot? && Can(cfg, s, e)
    ensures Books(cfg, Do(cfg, s, e))
  {
    hide Targeted, ForTargets, Enabled, DispOk, Unlocked;
    var s' := Do(cfg, s, e);
    var x := Shot(e.packet, e.targets);
    SnapshotKeepsDisp(cfg, s, e);
    forall c, k: nat
      ensures Targeted(s'.dispatched, c, k) == Targeted(s.dispatched, c, k) + ForTargets(x.packet, x.targets, c, k)
    {
      TargetedSnoc(s.dispatched, x, c, k);
    }
    forall c, k: nat | c in s'.clients && IsSession(s'.clients[c], k) ensures Accounted(s', c, k) {
      assert Accounted(s, c, k);
      var o := Offered(s.clients[c].sessions[k].offers);
      assert o + [] == o;
    }
    forall c, k: nat | !(c in s'.clients && IsSession(s'.clients[c], k)) ensures Targeted(s'.dispatched, c, k) == [] {
      forall i | 0 <= i < |e.targets| ensures !(e.targets[i].client == c && e.targets[i].session == k) {
        assert Mapped(s, e.targets[i], e.packet[1] as int);
      }
      ForTargetsNone(e.packet, e.targets, c, k);
    }
  }

  /** The head of the list goes from what is owed to what was offered; nobody else is affected. */
  lemma PushAccounts(cfg: Config, s: Sys, c: Cid, k: nat)
    requires DispOk(cfg, s) && ShotsOk(s.dispatched) && Can(cfg, s, PushNext)
    requires c in s.clients && IsSession(s.clients[c], k) && Accounted(s, c, k)
    ensures c in Do(cfg, s, PushNext).clients && IsSession(Do(cfg, s, PushNext).clients[c], k)
    ensures Accounted(Do(cfg, s, PushNext), c, k)
  {
    hide Targeted, Content;
    var s' := Do(cfg, s, PushNext);
    var t := s.disp.todo[0];
    var o, o' := s.clients[c].sessions[k].offers, s'.clients[c].sessions[k].offers;
    FilledIsPoolable(cfg, s);
    var rest := ForTargets(s.disp.packet, s.disp.todo[1..], c, k);
    if t.client == c && t.session == k {
      var x := Stamp(s.disp.packet, t.channel);
      assert Offered(o') == Offered(o) + [x];
      assert Offered(o) + [x] + rest == Offered(o) + ([x] + rest);
    } else {
      assert o' == o;
      assert [] + rest == rest;
    }
  }

  lemma PushKeepsBooks(cfg: Config, s: Sys)
    requires Books(cfg, s) && Can(cfg, s, PushNext)
    ensures Books(cfg, Do(cfg, s, PushNext))
  {
    hide Targeted, ForTargets, PushSession;
    var s' := Do(cfg, s, PushNext);
    PushKeepsDisp(cfg, s);
    forall c, k: nat | c in s'.clients && IsSession(s'.clients[c], k) ensures Accounted(s', c, k) {
      PushAccounts(cfg, s, c, k);
    }
  }

  lemma EventKeepsBooks(cfg: Config, s: Sys, e: Event)
    requires HeapOk(cfg, s) && Books(cfg, s) && Exclusive(s) && Can(cfg, s, e)
    ensures Books(cfg, Do(cfg, s, e))
  {
    hide Targeted, Enabled, Apply, Filling, Offered, Push, ForTargets, Exclusive;
    var s' := Do(cfg, s, e);
    EventKeepsDisp(cfg, s, e);
    if e.ClientAct? {
      DownEnables(s.clients[e.client], e.act, s.down);
      ActKeepsBooks(cfg, s, e.client, e.act);
    } else if e.Snapshot? {
      SnapshotKeepsBooks(cfg, s, e);
    } else if e.PushNext? {
      PushKeepsBooks(cfg, s);
    } else {
      assert s.disp.Fanning? && s.disp.todo == [] ==> forall c, k: nat :: Pending(s.disp, c, k) == [] by {
        forall c, k: nat | s.disp.Fanning? && s.disp.todo == [] ensures Pending(s.disp, c, k) == [] {
          ForTargetsNone(s.disp.packet, [], c, k);
        }
      }
      forall c, k: nat | c in s'.clients && IsSession(s'.clients[c], k) ensures Accounted(s', c, k) {
        assert c in s.clients && Accounted(s, c, k);
      }
    }
  }

  // ---------------------------------------------------------------- every run

  lemma EventKeepsInv(cfg: Config, s: Sys, e: Event)
    requires Inv(cfg, s) && Can(cfg, s, e)
    ensures Inv(cfg, Do(cfg, s, e))
  {
    hide Exclusive, DispOk, ClientOk, NothingEarly, Can, Do, Accounted, HeapOk;
    EventKeepsHeap(cfg, s, e);
    EventKeepsExclusive(cfg, s, e);
    EventKeepsDisp(cfg, s, e);
    EventKeepsClients(cfg, s, e);
    EventKeepsBooks(cfg, s, e);
  }

  lemma InitInv(cfg: Config)
    ensures Inv(cfg, INIT)
  {
  }

  /** The invariant holds after every run, of any length, in any interleaving. */
  lemma {:induction false} RunInv(cfg: Config, es: seq<Event>)
    requires Possible(cfg, INIT, es)
    ensures Inv(cfg, Exec(cfg, INIT, es))
    decreases |es|
  {
    hide Inv, Can, Do;
    if es == [] {
      InitInv(cfg);
    } else {
      RunInv(cfg, es[..|es| - 1]);
      EventKeepsInv(cfg, Exec(cfg, INIT, es[..|es| - 1]), es[|es| - 1]);
    }
  }

  // ---------------------------------------------------------------- orderly runs

  /** No stream is destroyed while it has clients. */
  ghost predicate OrderlyRun(es: seq<Event>) { forall i | 0 <= i < |es| && es[i].ClientAct? :: Orderly(es[i].act) }

  ghost predicate AllSafe(s: Sys) { forall c | c in s.clients :: Safe(s.clients[c]) }

  lemma EventKeepsAllSafe(cfg: Config, s: Sys, e: Event)
    requires AllSafe(s) && Can(cfg, s, e) && (e.ClientAct? ==> Orderly(e.act))
    ensures AllSafe(Do(cfg, s, e))
  {
    hide Safe, Apply, Enabled, Filling;
    if e.ClientAct? {
      DownEnables(s.clients[e.client], e.act, s.down);
      ActKeepsSafe(cfg, s.clients[e.client], e.act, s.down, s.heap);
    } else if e.PushNext? {
      var a := Accept(s.disp.todo[0].session, Slice(s.disp.hand.buf, |s.disp.packet|));
      EnabledPush(s.clients[s.disp.todo[0].client], a);
      ActKeepsSafe(cfg, s.clients[s.disp.todo[0].client], a, true, s.heap);
    } else if e.Connect? {
      NewClientSafe();
    }
  }

  lemma NewClientSafe()
    ensures Safe(NEW_CLIENT)
  {
  }

  lemma {:induction false} OrderlyRunSafe(cfg: Config, es: seq<Event>)
    requires Possible(cfg, INIT, es) && OrderlyRun(es)
    ensures AllSafe(Exec(cfg, INIT, es))
    decreases |es|
  {
    hide Can, Do, Safe;
    if es == [] {
    } else {
      OrderlyRunSafe(cfg, es[..|es| - 1]);
      EventKeepsAllSafe(cfg, Exec(cfg, INIT, es[..|es| - 1]), es[|es| - 1]);
    }
  }
}
