/** Slow-client isolation: a client's fate depends on its own acts and on the frames from the camera,
    not on the other clients. */
module FanoutIsolation {
  import opened Bytes
  import opened ClientPipe
  import opened ClientFlow
  import opened ClientOrder
  import opened ClientIsolation
  import opened Fanout
  import opened FanoutSafety

  /** What one client can see: its own acts, every frame from the camera as it is dispatched, and the
      moments at which the dispatcher hands it something; not what it is handed. */
  datatype Observed = Own(act: Act) | Shown(packet: bytes) | Handed

  ghost function Sees(s: Sys, e: Event, c: Cid): seq<Observed> {
    if c !in s.clients then []
    else if e.ClientAct? && e.client == c then [Own(e.act)]
    else if e.Snapshot? then [Shown(e.packet)]
    else if e.PushNext? && s.disp.Fanning? && s.disp.todo != [] && s.disp.todo[0].client == c then [Handed]
    else []
  }

  ghost function Observe(cfg: Config, es: seq<Event>, c: Cid): seq<Observed>
    requires Possible(cfg, INIT, es)
    decreases |es|
  {
    if es == [] then []
    else
      var n := |es| - 1;
      Observe(cfg, es[..n], c) + Sees(Exec(cfg, INIT, es[..n]), es[n], c)
  }

  // ---------------------------------------------------------------- the client replayed alone

  datatype Due = Nothing | Due(session: nat, payload: bytes)

  /** The client alone, with a buffer of its own for each packet, and what the last frame owes it. */
  datatype View = View(client: Client, heap: Heap, due: Due)

  /** What a frame owes a client, by the client's own channel map. */
  function DueFor(cl: Client, packet: bytes): Due {
    if |packet| < 4 || !cl.attached || cl.sessions == [] then Nothing
    else
      var channels := cl.sessions[Last(cl)].channels;
      if packet[1] as int in channels then Due(Last(cl), Stamp(packet, channels[packet[1] as int])) else Nothing
  }

  function Padded(cfg: Config, payload: bytes): bytes {
    if |payload| <= cfg.bufferSize then payload + seq(cfg.bufferSize - |payload|, _ => 'a') else payload
  }

  function Given(cfg: Config, v: View, n: nat): View
    requires v.due.Due? && IsSession(v.client, v.due.session)
  {
    var heap := v.heap[n := Padded(cfg, v.due.payload)];
    View(Push(cfg, v.client, v.due.session, Slice(n, |v.due.payload|), heap).client, heap, Nothing)
  }

  function Next(cfg: Config, v: View, o: Observed, n: nat): View {
    match o
    case Own(a) =>
      if !a.Accept? && Enabled(v.client, a, true) then v.(client := Apply(cfg, v.client, a, v.heap).client) else v
    case Shown(packet) => v.(due := DueFor(v.client, packet))
    case Handed => if v.due.Due? && IsSession(v.client, v.due.session) then Given(cfg, v, n) else v
  }

  function Replay(cfg: Config, os: seq<Observed>): View {
    if os == [] then View(NEW_CLIENT, map[], Nothing)
    else Next(cfg, Replay(cfg, os[..|os| - 1]), os[|os| - 1], |os| - 1)
  }

  // ---------------------------------------------------------------- the replay keeps up

  /** What the dispatcher still owes a client. */
  function Owed(packet: bytes, ts: seq<Target>, c: Cid): Due
    requires |packet| >= 4
  {
    if ts == [] then Nothing
    else if ts[0].client == c then Due(ts[0].session, Stamp(packet, ts[0].channel))
    else Owed(packet, ts[1..], c)
  }

  function OwedBy(d: Dispatcher, c: Cid): Due
    requires d.Fanning? ==> |d.packet| >= 4
  {
    if d.Fanning? then Owed(d.packet, d.todo, c) else Nothing
  }

  predicate ViewOk(cfg: Config, v: View, n: nat) {
    && ClientPoolable(cfg, v.client, v.heap)
    && (forall b | b in v.heap :: b < n)
    && (v.due.Due? ==> 0 < |v.due.payload| <= cfg.bufferSize && v.due.payload[0] == '$')
  }

  ghost predicate InStep(cfg: Config, s: Sys, c: Cid, v: View, n: nat) {
    && (s.disp.Fanning? ==> |s.disp.packet| >= 4)
    && (if c in s.clients then
          && Alike(s.clients[c], s.heap, v.client, v.heap) && v.due == OwedBy(s.disp, c) && ViewOk(cfg, v, n)
        else v == View(NEW_CLIENT, map[], Nothing) && n == 0)
  }

  lemma {:induction false} OwedNone(packet: bytes, ts: seq<Target>, c: Cid)
    requires |packet| >= 4 && forall i | 0 <= i < |ts| :: ts[i].client != c
    ensures Owed(packet, ts, c) == Nothing
  {
    if ts == [] {
    } else {
      OwedNone(packet, ts[1..], c);
    }
  }

  lemma {:induction false} OwedOne(packet: bytes, ts: seq<Target>, c: Cid, k: nat)
    requires |packet| >= 4 && k < |ts| && ts[k].client == c
    requires forall i, j | 0 <= i < j < |ts| :: ts[i].client != ts[j].client
    ensures Owed(packet, ts, c) == Due(ts[k].session, Stamp(packet, ts[k].channel))
  {
    if k == 0 {
    } else {
      OwedOne(packet, ts[1..], c, k - 1);
    }
  }

  /** The snapshot owes a client what the client's own map says. */
  lemma SnapshotOwes(s: Sys, packet: bytes, targets: seq<Target>, c: Cid)
    requires c in s.clients && |packet| >= 4 && IsSnapshot(s, targets, packet[1] as int)
    ensures Owed(packet, targets, c) == DueFor(s.clients[c], packet)
  {
    hide Stamp, Owed;
    var cl := s.clients[c];
    var u := packet[1] as int;
    if cl.attached && cl.sessions != [] && u in cl.sessions[Last(cl)].channels {
      var t := Target(c, Last(cl), cl.sessions[Last(cl)].channels[u]);
      assert Mapped(s, t, u);
      var k :| 0 <= k < |targets| && targets[k] == t;
      OwedOne(packet, targets, c, k);
    } else {
      forall i | 0 <= i < |targets| ensures targets[i].client != c { assert Mapped(s, targets[i], u); }
      OwedNone(packet, targets, c);
    }
  }

  /** Clients that look alike are owed the same. */
  lemma AlikeDue(cl: Client, h: Heap, cm: Client, g: Heap, packet: bytes)
    requires Alike(cl, h, cm, g)
    ensures DueFor(cl, packet) == DueFor(cm, packet)
  {
    hide Stamp, AlikeSlices, AlikeRunner;
    if cl.sessions != [] { AlikeParts(cl, h, cm, g, Last(cl)); }
  }

  lemma {:induction false} CopiesInHeap(cfg: Config, ps: seq<Slice>, heap: Heap, b: Buf)
    requires AllPoolable(cfg, ps, heap) && Copies(ps, b) > 0
    ensures b in heap
  {
    if ps == [] {
    } else if ps[0].buf == b {
      assert Poolable(cfg, heap, ps[0]);
    } else {
      assert forall i | 0 <= i < |ps[1..]| :: Poolable(cfg, heap, ps[1..][i]);
      CopiesInHeap(cfg, ps[1..], heap, b);
    }
  }

  lemma {:induction false} SessionsInHeap(cfg: Config, ss: seq<Session>, heap: Heap, b: Buf)
    requires (forall k | 0 <= k < |ss| :: SessionPoolable(cfg, ss[k], heap)) && SessionsCopies(ss, b) > 0
    ensures b in heap
  {
    if ss == [] {
    } else if SessionCopies(ss[0], b) > 0 {
      assert SessionPoolable(cfg, ss[0], heap);
      if Copies(ss[0].queue, b) > 0 {
        CopiesInHeap(cfg, ss[0].queue, heap, b);
      } else {
        CopiesInHeap(cfg, RunnerHand(ss[0]), heap, b);
      }
    } else {
      SessionsInHeap(cfg, ss[1..], heap, b);
    }
  }

  lemma HeldInHeap(cfg: Config, cl: Client, heap: Heap, b: Buf)
    requires ClientPoolable(cfg, cl, heap) && Held(cl, b) > 0
    ensures b in heap
  {
    hide Copies, SessionsCopies, Poolable;
    if Copies(cl.channel, b) > 0 {
      CopiesInHeap(cfg, cl.channel, heap, b);
    } else if Copies(WriterHand(cl), b) > 0 {
      CopiesInHeap(cfg, WriterHand(cl), heap, b);
    } else {
      SessionsInHeap(cfg, cl.sessions, heap, b);
    }
  }

  /** A new buffer makes no difference to a client that does not hold it. */
  lemma NewBuffer(cfg: Config, cl: Client, heap: Heap, n: Buf, x: bytes)
    requires ClientPoolable(cfg, cl, heap) && n !in heap
    ensures ClientPoolable(cfg, cl, heap[n := x]) && Alike(cl, heap, cl, heap[n := x])
  {
    hide ClientPoolable, Held, Alike;
    forall b | Held(cl, b) > 0 ensures b in heap { HeldInHeap(cfg, cl, heap, b); }
    HeapFrame(cl, heap, heap[n := x]);
    PoolableFrame(cfg, cl, heap, heap[n := x]);
  }

  lemma AlikeChain(cl: Client, h: Heap, cm: Client, g: Heap, g': Heap)
    requires Alike(cl, h, cm, g) && Alike(cm, g, cm, g')
    ensures Alike(cl, h, cm, g')
  {
    hide Content;
    forall k | 0 <= k < |cl.sessions| ensures AlikeSession(cl.sessions[k], h, cm.sessions[k], g') {
      assert AlikeSession(cl.sessions[k], h, cm.sessions[k], g) && AlikeSession(cm.sessions[k], g, cm.sessions[k], g');
    }
  }

  lemma AlikeTransfer(cl: Client, h: Heap, h': Heap, cm: Client, g: Heap)
    requires Alike(cl, h, cm, g) && Alike(cl, h, cl, h')
    ensures Alike(cl, h', cm, g)
  {
    hide Content;
    forall k | 0 <= k < |cl.sessions| ensures AlikeSession(cl.sessions[k], h', cm.sessions[k], g) {
      assert AlikeSession(cl.sessions[k], h, cm.sessions[k], g) && AlikeSession(cl.sessions[k], h, cl.sessions[k], h');
    }
  }

  lemma PaddedContent(cfg: Config, payload: bytes, heap: Heap, n: Buf)
    requires 0 < |payload| <= cfg.bufferSize && payload[0] == '$'
    ensures var h := heap[n := Padded(cfg, payload)];
            Content(h, Slice(n, |payload|)) == payload && Poolable(cfg, h, Slice(n, |payload|))
  {
  }

  // ---------------------------------------------------------------- event by event

  lemma OwnKeepsStep(cfg: Config, s: Sys, c: Cid, a: Act, v: View, n: nat)
    requires InStep(cfg, s, c, v, n) && c in s.clients && !a.Accept? && Enabled(s.clients[c], a, true)
    ensures InStep(cfg, OnClient(cfg, s, c, a), c, Next(cfg, v, Own(a), n), n + 1)
  {
    hide Alike, Apply, Enabled, ClientPoolable, Owed;
    SameActs(a, s.heap, v.heap);
    AlikeAct(cfg, s.clients[c], s.heap, v.client, v.heap, a, a);
    ActKeepsPoolable(cfg, v.client, a, v.heap);
  }

  lemma SameActs(a: Act, h: Heap, g: Heap)
    requires !a.Accept?
    ensures AlikeActs(a, h, a, g)
  {
  }

  lemma HandedKeepsStep(cfg: Config, s: Sys, c: Cid, v: View, n: nat)
    requires InStep(cfg, s, c, v, n) && DispOk(cfg, s) && Can(cfg, s, PushNext) && s.disp.todo[0].client == c
    ensures InStep(cfg, Do(cfg, s, PushNext), c, Next(cfg, v, Handed, n), n + 1)
  {
    hide Alike, ClientPoolable, Push, Stamp, Padded, Content, Poolable;
    var t := s.disp.todo[0];
    FilledIsPoolable(cfg, s);
    var p := Slice(s.disp.hand.buf, |s.disp.packet|);
    var payload := Stamp(s.disp.packet, t.channel);
    assert v.due == Due(t.session, payload);
    var h := v.heap[n := Padded(cfg, payload)];
    var q := Slice(n, |payload|);
    PaddedContent(cfg, payload, v.heap, n);
    NewBuffer(cfg, v.client, v.heap, n, Padded(cfg, payload));
    AlikeChain(s.clients[c], s.heap, v.client, v.heap, h);
    AlikeParts(s.clients[c], s.heap, v.client, h, t.session);
    AlikePush(cfg, s.clients[c], s.heap, v.client, h, t.session, p, q);
    PushKeepsPoolable(cfg, v.client, t.session, q, h);
    OwedNone(s.disp.packet, s.disp.todo[1..], c);
  }

  lemma ShownKeepsStep(cfg: Config, s: Sys, c: Cid, e: Event, v: View, n: nat)
    requires InStep(cfg, s, c, v, n) && c in s.clients && e.Snapshot? && Can(cfg, s, e)
    ensures InStep(cfg, Do(cfg, s, e), c, Next(cfg, v, Shown(e.packet), n), n + 1)
  {
    hide Alike, ClientPoolable, Owed, Unlocked;
    SnapshotOwes(s, e.packet, e.targets, c);
    AlikeDue(s.clients[c], s.heap, v.client, v.heap, e.packet);
  }

  /** Events that neither concern the client nor change what it is owed. */
  lemma QuietKeepsStep(cfg: Config, s: Sys, s': Sys, c: Cid, v: View, n: nat)
    requires InStep(cfg, s, c, v, n) && c in s.clients && c in s'.clients && s'.clients[c] == s.clients[c]
    requires Alike(s.clients[c], s.heap, s.clients[c], s'.heap)
    requires (s'.disp.Fanning? ==> |s'.disp.packet| >= 4) && OwedBy(s'.disp, c) == OwedBy(s.disp, c)
    ensures InStep(cfg, s', c, v, n)
  {
    hide Alike, ClientPoolable, Owed;
    AlikeTransfer(s.clients[c], s.heap, s'.heap, v.client, v.heap);
  }

  lemma UnseenKeepsClient(cfg: Config, s: Sys, e: Event, c: Cid)
    requires Inv(cfg, s) && Can(cfg, s, e) && c in s.clients && Sees(s, e, c) == []
    ensures c in Do(cfg, s, e).clients && Do(cfg, s, e).clients[c] == s.clients[c]
    ensures Alike(s.clients[c], s.heap, s.clients[c], Do(cfg, s, e).heap)
  {
    hide Exclusive, ClientPoolable, Flow, Alike, Apply, Enabled, Filling, Accounted, NothingEarly, DispOk, IsSnapshot;
    var s' := Do(cfg, s, e);
    assert ClientOk(cfg, s, c);
    if e.GetFresh? || e.Fill? || e.LendFresh? || e.Scribble? {
      var b := if e.Fill? then s.disp.hand.buf else e.buf;
      ElsewhereAgrees(s, c, b, s'.heap[b]);
      assert s'.heap == s.heap[b := s'.heap[b]];
      ClientFrame(cfg, s, s', c);
    } else {
      SameHeap(s.clients[c], s.heap);
    }
  }

  lemma SameHeap(cl: Client, h: Heap)
    ensures Alike(cl, h, cl, h)
  {
  }

  lemma UnseenKeepsOwed(cfg: Config, s: Sys, e: Event, c: Cid)
    requires DispOk(cfg, s) && Can(cfg, s, e) && c in s.clients && Sees(s, e, c) == []
    ensures var d := Do(cfg, s, e).disp; (d.Fanning? ==> |d.packet| >= 4) && OwedBy(d, c) == OwedBy(s.disp, c)
  {
    hide Enabled, Apply, Filling, Stamp, Push, IsSnapshot;
  }

  lemma EventKeepsStep(cfg: Config, s: Sys, e: Event, c: Cid, v: View, n: nat)
    requires Inv(cfg, s) && Can(cfg, s, e) && InStep(cfg, s, c, v, n) && c in s.clients
    ensures Sees(s, e, c) == [] ==> InStep(cfg, Do(cfg, s, e), c, v, n)
    ensures Sees(s, e, c) != [] ==>
              |Sees(s, e, c)| == 1 && InStep(cfg, Do(cfg, s, e), c, Next(cfg, v, Sees(s, e, c)[0], n), n + 1)
  {
    hide Exclusive, ClientOk, InStep, Next, OnClient, Enabled, Accounted, NothingEarly, DispOk, IsSnapshot, OwedBy;
    if e.ClientAct? && e.client == c {
      assert !e.act.Accept? && Enabled(s.clients[c], e.act, true) by { DownEnables(s.clients[c], e.act, s.down); }
      OwnKeepsStep(cfg, s, c, e.act, v, n);
    } else if e.Snapshot? {
      ShownKeepsStep(cfg, s, c, e, v, n);
    } else if e.PushNext? && s.disp.todo[0].client == c {
      HandedKeepsStep(cfg, s, c, v, n);
    } else {
      UnseenKeepsClient(cfg, s, e, c);
      UnseenKeepsOwed(cfg, s, e, c);
      assert s.disp.Fanning? ==> |s.disp.packet| >= 4 by { PacketLong(cfg, s, c, v, n); }
      QuietKeepsStep(cfg, s, Do(cfg, s, e), c, v, n);
    }
  }

  lemma PacketLong(cfg: Config, s: Sys, c: Cid, v: View, n: nat)
    requires InStep(cfg, s, c, v, n)
    ensures s.disp.Fanning? ==> |s.disp.packet| >= 4
  {
  }

  lemma StaysUnknown(cfg: Config, s: Sys, e: Event, c: Cid)
    requires Can(cfg, s, e) && c !in s.clients && e != Connect(c)
    ensures c !in Do(cfg, s, e).clients
  {
    hide Enabled, Apply, Filling, IsSnapshot, Unlocked;
  }

  lemma ConnectInStep(cfg: Config, s: Sys, e: Event, c: Cid, v: View)
    requires Inv(cfg, s) && Can(cfg, s, e) && InStep(cfg, s, c, v, 0) && c !in s.clients
    ensures InStep(cfg, Do(cfg, s, e), c, v, 0)
  {
    hide Exclusive, ClientOk, Accounted, NothingEarly, Alike, Stamp;
    if e == Connect(c) {
      AlikeNew(s.heap, map[]);
      NewClientOk(cfg, map[]);
      if s.disp.Fanning? { OwedNone(s.disp.packet, s.disp.todo, c); }
    } else {
      hide Do, Can;
      StaysUnknown(cfg, s, e, c);
      EventKeepsDisp(cfg, s, e);
    }
  }

  /** Every client of every run stands where its replay stands. */
  lemma {:induction false} RunIsReplay(cfg: Config, es: seq<Event>, c: Cid)
    requires Possible(cfg, INIT, es)
    ensures InStep(cfg, Exec(cfg, INIT, es), c, Replay(cfg, Observe(cfg, es, c)), |Observe(cfg, es, c)|)
    decreases |es|
  {
    hide Inv, Can, Do, Sees, Next, Alike, ViewOk, OwedBy;
    if es == [] {
    } else {
      var m := |es| - 1;
      var s := Exec(cfg, INIT, es[..m]);
      var os := Observe(cfg, es[..m], c);
      RunIsReplay(cfg, es[..m], c);
      RunInv(cfg, es[..m]);
      hide InStep, Exec;
      if c in s.clients {
        EventKeepsStep(cfg, s, es[m], c, Replay(cfg, os), |os|);
        ReplaySnoc(cfg, os, Sees(s, es[m], c));
      } else {
        NotSeen(s, es[m], c);
        assert |os| == 0 by { NotThere(cfg, s, c, Replay(cfg, os), |os|); }
        ConnectInStep(cfg, s, es[m], c, Replay(cfg, os));
        assert os + [] == os;
      }
    }
  }

  lemma ReplaySnoc(cfg: Config, os: seq<Observed>, more: seq<Observed>)
    requires |more| <= 1
    ensures more == [] ==> os + more == os
    ensures more != [] ==> Replay(cfg, os + more) == Next(cfg, Replay(cfg, os), more[0], |os|)
  {
    hide Next;
    if more != [] { assert (os + more)[..|os|] == os; }
  }

  lemma NotSeen(s: Sys, e: Event, c: Cid)
    requires c !in s.clients
    ensures Sees(s, e, c) == []
  {
  }

  lemma NotThere(cfg: Config, s: Sys, c: Cid, v: View, n: nat)
    requires InStep(cfg, s, c, v, n) && c !in s.clients
    ensures n == 0
  {
  }

  // ---------------------------------------------------------------- theorems

  /** The dispatcher owes each client exactly what the client's own map makes of the frame shown last,
      until it has handed that over, and it does not finish a frame before: when it is idle nothing is
      owed to anybody, whatever other clients refused. */
  lemma NobodyIsSkipped(cfg: Config, es: seq<Event>, c: Cid)
    requires Possible(cfg, INIT, es) && c in Exec(cfg, INIT, es).clients
    ensures Exec(cfg, INIT, es).disp.Fanning? ==> |Exec(cfg, INIT, es).disp.packet| >= 4
    ensures Replay(cfg, Observe(cfg, es, c)).due == OwedBy(Exec(cfg, INIT, es).disp, c)
    ensures Exec(cfg, INIT, es).disp.Idle? ==> Replay(cfg, Observe(cfg, es, c)).due == Nothing
  {
    hide Exec, Observe, Replay, Alike, ViewOk;
    RunIsReplay(cfg, es, c);
  }

  /** Slow-client isolation: let a client act the same in two runs, see the same frames arrive from the
      camera, and be handed something at the same moments of its own life. Then its sessions were
      offered, took and refused the same packets and its socket got the same bytes, whatever the other
      clients, their queues, drops and disconnects, the pool and the order of events did. */
  lemma SlowClientIsolation(cfg: Config, es: seq<Event>, fs: seq<Event>, c: Cid)
    requires Possible(cfg, INIT, es) && Possible(cfg, INIT, fs)
    requires c in Exec(cfg, INIT, es).clients && c in Exec(cfg, INIT, fs).clients
    requires Observe(cfg, es, c) == Observe(cfg, fs, c)
    ensures var x, y := Exec(cfg, INIT, es).clients[c], Exec(cfg, INIT, fs).clients[c];
            && x.written == y.written && x.forwarded == y.forwarded && |x.sessions| == |y.sessions|
            && forall k | 0 <= k < |x.sessions| ::
                 x.sessions[k].offers == y.sessions[k].offers && x.sessions[k].passed == y.sessions[k].passed
  {
    hide Exec, Observe, Replay, AlikeSlices, AlikeRunner, AlikeWriter, ViewOk, OwedBy;
    RunIsReplay(cfg, es, c);
    RunIsReplay(cfg, fs, c);
    var x, y, v := Exec(cfg, INIT, es).clients[c], Exec(cfg, INIT, fs).clients[c], Replay(cfg, Observe(cfg, es, c));
    forall k | 0 <= k < |x.sessions|
      ensures x.sessions[k].offers == y.sessions[k].offers && x.sessions[k].passed == y.sessions[k].passed
    {
      assert AlikeSession(x.sessions[k], Exec(cfg, INIT, es).heap, v.client.sessions[k], v.heap);
      assert AlikeSession(y.sessions[k], Exec(cfg, INIT, fs).heap, v.client.sessions[k], v.heap);
    }
  }
}
