/** What happens to a client whose stream is destroyed while the client is still there: the stream
    forgets the session first and stops it later, so that the client can close its channel, or open a
    second session, under a runner nobody waits for. Everything is about runs of the whole fan-out. */
module Eviction {
  import opened Bytes
  import opened ClientPipe
  import opened ClientFlow
  import opened Fanout
  import opened FanoutSafety

  /** The client is not evicted in the run; others may be. */
  ghost predicate Spares(es: seq<Event>, c: Cid) {
    forall i | 0 <= i < |es| && es[i].ClientAct? && es[i].client == c :: Orderly(es[i].act)
  }

  /** Some continuation, in which the client is not evicted again, makes one of its goroutines panic. */
  ghost predicate MayPanic(cfg: Config, s: Sys, c: Cid) {
    exists fs: seq<Event> ::
      Possible(cfg, s, fs) && Spares(fs, c) && c in Exec(cfg, s, fs).clients && Exec(cfg, s, fs).clients[c].panicked
  }

  /** What an event does to one client. */
  ghost function ActOf(s: Sys, e: Event, c: Cid): seq<Act> {
    if e.ClientAct? && e.client == c then [e.act]
    else if e.PushNext? && s.disp.Fanning? && s.disp.todo != []
            && s.disp.todo[0].client == c && !s.disp.hand.Empty? then
      [Accept(s.disp.todo[0].session, Slice(s.disp.hand.buf, |s.disp.packet|))]
    else []
  }

  lemma EventActs(cfg: Config, s: Sys, e: Event, c: Cid)
    requires Can(cfg, s, e) && c in s.clients
    ensures c in Do(cfg, s, e).clients
    ensures ActOf(s, e, c) == [] ==> Do(cfg, s, e).clients[c] == s.clients[c]
    ensures ActOf(s, e, c) != [] ==>
              && |ActOf(s, e, c)| == 1 && Enabled(s.clients[c], ActOf(s, e, c)[0], true)
              && Do(cfg, s, e).clients[c] == Apply(cfg, s.clients[c], ActOf(s, e, c)[0], s.heap).client
  {
    hide Apply, Filling, IsSnapshot, Unlocked, Enabled;
    if e.ClientAct? {
      DownEnables(s.clients[e.client], e.act, s.down);
    } else if e.PushNext? {
      var t := s.disp.todo[0];
      EnabledPush(s.clients[t.client], Accept(t.session, Slice(s.disp.hand.buf, |s.disp.packet|)));
    }
  }

  lemma SparedAct(s: Sys, e: Event, c: Cid)
    requires e.ClientAct? && e.client == c ==> Orderly(e.act)
    ensures ActOf(s, e, c) != [] ==> Orderly(ActOf(s, e, c)[0])
  {
  }

  // ---------------------------------------------------------------- without an eviction

  lemma EventKeepsClientSafe(cfg: Config, s: Sys, e: Event, c: Cid)
    requires Can(cfg, s, e) && (e.ClientAct? && e.client == c ==> Orderly(e.act))
    requires c in s.clients ==> Safe(s.clients[c])
    ensures c in Do(cfg, s, e).clients ==> Safe(Do(cfg, s, e).clients[c])
  {
    hide Safe, Enabled, Apply, ActOf;
    if c in s.clients {
      EventActs(cfg, s, e, c);
      SparedAct(s, e, c);
      if ActOf(s, e, c) != [] { ActKeepsSafe(cfg, s.clients[c], ActOf(s, e, c)[0], true, s.heap); }
    } else if c in Do(cfg, s, e).clients {
      NewOnlyByConnect(cfg, s, e, c);
      NewClientSafe();
    }
  }

  lemma NewOnlyByConnect(cfg: Config, s: Sys, e: Event, c: Cid)
    requires Can(cfg, s, e) && c !in s.clients && c in Do(cfg, s, e).clients
    ensures Do(cfg, s, e).clients[c] == NEW_CLIENT
  {
    hide Enabled, Apply, Filling, IsSnapshot, Unlocked;
  }

  lemma {:induction false} SafeRun(cfg: Config, es: seq<Event>, c: Cid)
    requires Possible(cfg, INIT, es) && Spares(es, c)
    ensures c in Exec(cfg, INIT, es).clients ==> Safe(Exec(cfg, INIT, es).clients[c])
    decreases |es|
  {
    hide Can, Do, Safe;
    if es == [] {
    } else {
      SafeRun(cfg, es[..|es| - 1], c);
      EventKeepsClientSafe(cfg, Exec(cfg, INIT, es[..|es| - 1]), es[|es| - 1], c);
    }
  }

  /** A client's goroutines panic only if its stream was destroyed before the client left. */
  lemma PanicNeedsEviction(cfg: Config, es: seq<Event>, c: Cid)
    requires Possible(cfg, INIT, es) && Spares(es, c) && c in Exec(cfg, INIT, es).clients
    ensures !Exec(cfg, INIT, es).clients[c].panicked
  {
    hide Exec;
    SafeRun(cfg, es, c);
  }

  // ---------------------------------------------------------------- the condition

  function LastRunner(cl: Client): Runner
    requires cl.sessions != []
  {
    cl.sessions[Last(cl)].runner
  }

  /** The reader is in a SETUP request and about to register a session, or can still read one. */
  predicate MaySetUp(cl: Client) {
    || cl.reader == InSetup
    || ((cl.reader == Serving || cl.reader == Mapping || cl.reader == InTeardown) && !cl.connClosed)
  }

  /** The dispatcher has a packet for the session. */
  predicate Owes(d: Dispatcher, c: Cid, k: nat) {
    d.Fanning? && exists i | 0 <= i < |d.todo| :: d.todo[i].client == c && d.todo[i].session == k
  }

  /** The session's runner holds a packet, or one is queued for it or still to be pushed; or the client
      is being destroyed, or is, and a new session can still be set up. */
  predicate Risky(s: Sys, c: Cid)
    requires c in s.clients && s.clients[c].sessions != []
  {
    var cl := s.clients[c];
    || LastRunner(cl).Holding?
    || (LastRunner(cl) == Ready && (cl.sessions[Last(cl)].queue != [] || Owes(s.disp, c, Last(cl))))
    || ((LastRunner(cl).Destroys? || cl.destroyed) && MaySetUp(cl))
  }

  // ---------------------------------------------------------------- building continuations

  lemma {:induction false} ExecCons(cfg: Config, s: Sys, e: Event, es: seq<Event>)
    requires Can(cfg, s, e) && Possible(cfg, Do(cfg, s, e), es)
    ensures Possible(cfg, s, [e] + es) && Exec(cfg, s, [e] + es) == Exec(cfg, Do(cfg, s, e), es)
    decreases |es|
  {
    hide Do, Can;
    if es == [] {
      assert ([e] + es)[..0] == [] && ([e] + es)[0] == e;
      assert Possible(cfg, s, []) && Exec(cfg, s, []) == s;
    } else {
      assert ([e] + es)[..|es|] == [e] + es[..|es| - 1];
      ExecCons(cfg, s, e, es[..|es| - 1]);
    }
  }

  lemma Forward(cfg: Config, s: Sys, e: Event, c: Cid)
    requires Can(cfg, s, e) && (e.ClientAct? && e.client == c ==> Orderly(e.act)) && MayPanic(cfg, Do(cfg, s, e), c)
    ensures MayPanic(cfg, s, c)
  {
    hide Do, Can, Exec, Orderly;
    var t := Do(cfg, s, e);
    var fs: seq<Event> :|
      Possible(cfg, t, fs) && Spares(fs, c) && c in Exec(cfg, t, fs).clients && Exec(cfg, t, fs).clients[c].panicked;
    ExecCons(cfg, s, e, fs);
    var gs := [e] + fs;
    assert Spares(gs, c);
    assert Possible(cfg, s, gs) && Exec(cfg, s, gs) == Exec(cfg, t, fs);
  }

  lemma PanicsNow(cfg: Config, s: Sys, c: Cid)
    requires c in s.clients && s.clients[c].panicked
    ensures MayPanic(cfg, s, c)
  {
    assert Possible(cfg, s, []) && Exec(cfg, s, []) == s;
  }

  /** An act of the client that it may make now. */
  predicate MayAct(s: Sys, c: Cid, a: Act) {
    && c in s.clients && !a.Accept? && Orderly(a) && Enabled(s.clients[c], a, s.down)
    && (NeedsLock(a) ==> Unlocked(s))
  }

  ghost function After(cfg: Config, s: Sys, c: Cid, a: Act): Sys
    requires MayAct(s, c, a)
  {
    Do(cfg, s, ClientAct(c, a))
  }

  lemma ActOn(cfg: Config, s: Sys, c: Cid, a: Act)
    requires MayAct(s, c, a)
    ensures Enabled(s.clients[c], a, true)
    ensures var t := After(cfg, s, c, a);
            && t == s.(clients := t.clients, pool := t.pool) && t.clients.Keys == s.clients.Keys
            && t.clients[c] == Apply(cfg, s.clients[c], a, s.heap).client
            && (forall d <- s.clients | d != c :: t.clients[d] == s.clients[d])
            && (Unlocked(s) && !t.clients[c].reader.Stopping? ==> Unlocked(t))
            && (MayPanic(cfg, t, c) ==> MayPanic(cfg, s, c))
  {
    hide Enabled, Apply, MayPanic;
    DownEnables(s.clients[c], a, s.down);
    if MayPanic(cfg, After(cfg, s, c, a), c) { Forward(cfg, s, ClientAct(c, a), c); }
  }

  // ---------------------------------------------------------------- closing under a packet

  predicate HasPacket(cl: Client, k: nat) { IsSession(cl, k) && cl.sessions[k].runner.Holding? }

  lemma SendPanics(cfg: Config, s: Sys, c: Cid, k: nat)
    requires c in s.clients && HasPacket(s.clients[c], k) && s.clients[c].chanClosed
    ensures MayPanic(cfg, s, c)
  {
    hide MayPanic, Content, Poolable, Unlocked;
    ActOn(cfg, s, c, Send(k));
    PanicsNow(cfg, After(cfg, s, c, Send(k)), c);
  }

  function Rank(at: Destroying): nat {
    match at case Swapping => 3 case Unplugging => 2 case Closing => 1 case Awaiting => 0
  }

  /** The reader closes the channel under a runner that holds a packet. */
  lemma ReaderCloses(cfg: Config, s: Sys, c: Cid, k: nat)
    requires c in s.clients && HasPacket(s.clients[c], k)
    requires var r := s.clients[c].reader;
             r.Dismantling? && r.at != Awaiting && (r.at == Swapping ==> !s.clients[c].destroyed)
    ensures MayPanic(cfg, s, c)
    decreases Rank(s.clients[c].reader.at)
  {
    hide MayPanic, StopSession, Unlocked;
    ActOn(cfg, s, c, Dismantle);
    var t := After(cfg, s, c, Dismantle);
    if s.clients[c].reader.at == Closing {
      SendPanics(cfg, t, c, k);
    } else {
      ReaderCloses(cfg, t, c, k);
    }
  }

  predicate StillCloses(cl: Client, j: nat) {
    && IsSession(cl, j) && cl.sessions[j].runner.Destroys? && cl.sessions[j].runner.at != Awaiting
    && (cl.sessions[j].runner.at == Swapping ==> !cl.destroyed)
  }

  /** So does the runner of an older session. */
  lemma RunnerCloses(cfg: Config, s: Sys, c: Cid, j: nat, k: nat)
    requires c in s.clients && j != k && HasPacket(s.clients[c], k) && StillCloses(s.clients[c], j)
    ensures MayPanic(cfg, s, c)
    decreases Rank(s.clients[c].sessions[j].runner.at)
  {
    hide MayPanic, Content, Poolable, Unlocked;
    ActOn(cfg, s, c, RunnerDestroy(j));
    var t := After(cfg, s, c, RunnerDestroy(j));
    if s.clients[c].sessions[j].runner.at == Closing {
      SendPanics(cfg, t, c, k);
    } else {
      RunnerCloses(cfg, t, c, j, k);
    }
  }

  /** How far the reader is from leaving. */
  function ReaderRank(r: Reader): nat {
    match r case Leaving => 1 case Serving => 2 case InTeardown => 3 case InSetup => 3 case Mapping => 3 case _ => 0
  }

  function TowardsLeaving(r: Reader): Act {
    match r case Leaving => Remove case InTeardown => Remove case Serving => Leave case _ => Reply
  }

  predicate Attending(r: Reader) { r == Leaving || r == Serving || r == InTeardown || r == InSetup || r == Mapping }

  /** Where an unattached reader's next act takes it. */
  function Then(r: Reader, a: Act): Reader {
    if a.Leave? then Leaving else if a.Read? then InSetup else if r == Leaving then Dismantling(Swapping) else Serving
  }

  /** Without a registered session these acts move the reader and nothing else. */
  lemma ReaderMoves(cfg: Config, cl: Client, a: Act, heap: Heap, down: bool)
    requires !cl.attached && (a == Leave || a == Reply || a == Remove || a == Read(true)) && Enabled(cl, a, down)
    ensures Enabled(cl, a, true) && Apply(cfg, cl, a, heap).client == cl.(reader := Then(cl.reader, a))
  {
    hide StopSession, DestroyStation;
  }

  lemma MayLeave(cl: Client, down: bool)
    requires Attending(cl.reader)
    ensures Enabled(cl, TowardsLeaving(cl.reader), down)
  {
  }

  lemma ReaderLeaves(cfg: Config, s: Sys, c: Cid, k: nat)
    requires c in s.clients && HasPacket(s.clients[c], k) && Unlocked(s)
    requires Attending(s.clients[c].reader) && !s.clients[c].attached && !s.clients[c].destroyed
    ensures MayPanic(cfg, s, c)
    decreases ReaderRank(s.clients[c].reader)
  {
    hide MayPanic, Unlocked, Enabled, Apply;
    var a := TowardsLeaving(s.clients[c].reader);
    MayLeave(s.clients[c], s.down);
    ReaderMoves(cfg, s.clients[c], a, s.heap, s.down);
    ActOn(cfg, s, c, a);
    var t := After(cfg, s, c, a);
    if s.clients[c].reader == Leaving {
      ReaderCloses(cfg, t, c, k);
    } else {
      ReaderLeaves(cfg, t, c, k);
    }
  }

  /** The runner takes a packet from its queue. */
  lemma TakeOn(cfg: Config, s: Sys, c: Cid, k: nat) returns (t: Sys)
    requires c in s.clients && IsSession(s.clients[c], k)
    requires s.clients[c].sessions[k].runner == Ready && s.clients[c].sessions[k].queue != []
    ensures c in t.clients && HasPacket(t.clients[c], k)
    ensures var cl := s.clients[c];
            t.clients[c] == WithSession(cl, k,
              cl.sessions[k].(queue := cl.sessions[k].queue[1..], runner := t.clients[c].sessions[k].runner))
    ensures (Unlocked(s) ==> Unlocked(t)) && (MayPanic(cfg, t, c) ==> MayPanic(cfg, s, c))
  {
    hide MayPanic, Content, Poolable, Unlocked;
    ActOn(cfg, s, c, Take(k));
    t := After(cfg, s, c, Take(k));
    assert Unlocked(s) ==> !s.clients[c].reader.Stopping? by { ReaderUnlocked(s, c); }
  }

  lemma ReaderUnlocked(s: Sys, c: Cid)
    requires c in s.clients
    ensures Unlocked(s) ==> !s.clients[c].reader.Stopping?
  {
  }

  // ---------------------------------------------------------------- the dispatcher goes on

  lemma {:induction false} Above(keys: set<nat>) returns (b: nat)
    ensures forall k <- keys :: k < b
  {
    if k :| k in keys {
      b := Above(keys - {k});
      assert forall x <- keys :: x == k || x in keys - {k};
      b := if k < b then b else k + 1;
    } else {
      b := 0;
    }
  }

  function HandRank(h: Hand): nat { match h case Empty => 2 case Got(_) => 1 case Filled(_) => 0 }

  /** The dispatcher prepares the buffer for its next target. */
  lemma PrepareOn(cfg: Config, s: Sys, c: Cid) returns (t: Sys)
    requires Inv(cfg, s) && s.disp.Fanning? && s.disp.todo != [] && !s.disp.hand.Filled?
    ensures Inv(cfg, t) && t.clients == s.clients && t.disp.Fanning? && t.disp == s.disp.(hand := t.disp.hand)
    ensures HandRank(t.disp.hand) < HandRank(s.disp.hand)
    ensures MayPanic(cfg, t, c) ==> MayPanic(cfg, s, c)
  {
    hide MayPanic, Accounted, NothingEarly, ClientOk, Filling, Held;
    var b := Above(s.heap.Keys);
    assert s.disp.hand.Got? ==> Holds(s, InDispatch, s.disp.hand.buf) > 0;
    var e := if s.disp.hand.Empty? then GetFresh(b, seq(cfg.bufferSize, _ => 'a')) else Fill;
    EventKeepsInv(cfg, s, e);
    t := Do(cfg, s, e);
    if MayPanic(cfg, t, c) { Forward(cfg, s, e, c); }
  }

  /** Clients that differ in queues and offers only. */
  predicate SameButQueues(cl: Client, cm: Client) {
    && cm == cl.(sessions := cm.sessions) && |cm.sessions| == |cl.sessions|
    && forall k | 0 <= k < |cl.sessions| ::
         cm.sessions[k] == cl.sessions[k].(queue := cm.sessions[k].queue, offers := cm.sessions[k].offers)
  }

  /** It pushes the packet to its next target. */
  lemma PushOn(cfg: Config, s: Sys, c: Cid) returns (t: Sys)
    requires Inv(cfg, s) && s.disp.Fanning? && s.disp.todo != [] && s.disp.hand.Filled? && c in s.clients
    ensures Inv(cfg, t) && t.disp == s.disp.(todo := s.disp.todo[1..], hand := Empty)
    ensures t.clients.Keys == s.clients.Keys && SameButQueues(s.clients[c], t.clients[c])
    ensures s.disp.todo[0].client != c ==> t.clients[c] == s.clients[c]
    ensures s.disp.todo[0].client == c ==>
              var k := s.disp.todo[0].session;
              && IsSession(s.clients[c], k)
              && (cfg.queueSize > |s.clients[c].sessions[k].queue| ==> t.clients[c].sessions[k].queue != [])
              && (forall i | 0 <= i < |s.clients[c].sessions| && i != k ::
                    t.clients[c].sessions[i] == s.clients[c].sessions[i])
    ensures (Unlocked(s) ==> Unlocked(t)) && (MayPanic(cfg, t, c) ==> MayPanic(cfg, s, c))
  {
    hide MayPanic, Accounted, NothingEarly, ClientOk, Exclusive, Content;
    EventKeepsInv(cfg, s, PushNext);
    t := Do(cfg, s, PushNext);
    if MayPanic(cfg, t, c) { Forward(cfg, s, PushNext, c); }
  }

  /** It gets to a session it owes a packet to. */
  lemma {:induction false} Deliver(cfg: Config, s: Sys, c: Cid, k: nat, j: nat) returns (t: Sys)
    requires Inv(cfg, s) && c in s.clients && IsSession(s.clients[c], k) && s.clients[c].sessions[k].queue == []
    requires s.disp.Fanning? && j < |s.disp.todo| && s.disp.todo[j].client == c && s.disp.todo[j].session == k
    requires cfg.queueSize > 0
    ensures c in t.clients && SameButQueues(s.clients[c], t.clients[c]) && t.clients[c].sessions[k].queue != []
    ensures (Unlocked(s) ==> Unlocked(t)) && (MayPanic(cfg, t, c) ==> MayPanic(cfg, s, c))
    decreases j, HandRank(s.disp.hand)
  {
    hide MayPanic, Inv, Unlocked;
    if !s.disp.hand.Filled? {
      var u := PrepareOn(cfg, s, c);
      assert Unlocked(s) ==> Unlocked(u) by { SameClientsUnlocked(s, u); }
      t := Deliver(cfg, u, c, k, j);
    } else {
      OneEach(cfg, s, 0, j);
      var u := PushOn(cfg, s, c);
      if j == 0 { t := u; } else { t := Deliver(cfg, u, c, k, j - 1); }
    }
  }

  lemma SameClientsUnlocked(s: Sys, t: Sys)
    requires t.clients == s.clients
    ensures Unlocked(t) == Unlocked(s)
  {
  }

  lemma OneEach(cfg: Config, s: Sys, i: nat, j: nat)
    requires Inv(cfg, s) && s.disp.Fanning? && i <= j < |s.disp.todo|
    ensures i < j ==> s.disp.todo[i].client != s.disp.todo[j].client
  {
  }

  /** It finishes the frame. */
  lemma {:induction false} Finish(cfg: Config, s: Sys, c: Cid) returns (t: Sys)
    requires Inv(cfg, s) && c in s.clients
    ensures Inv(cfg, t) && t.disp.Idle? && c in t.clients && SameButQueues(s.clients[c], t.clients[c])
    ensures (Unlocked(s) ==> Unlocked(t)) && (MayPanic(cfg, t, c) ==> MayPanic(cfg, s, c))
    decreases if s.disp.Idle? then 0 else 1,
              if s.disp.Idle? then 0 else |s.disp.todo|,
              if s.disp.Idle? then 0 else HandRank(s.disp.hand)
  {
    hide MayPanic, Inv, Unlocked;
    if s.disp.Idle? {
      t := s;
    } else if s.disp.todo == [] {
      t := DoneOn(cfg, s, c);
    } else if !s.disp.hand.Filled? {
      var u := PrepareOn(cfg, s, c);
      assert Unlocked(s) ==> Unlocked(u) by { SameClientsUnlocked(s, u); }
      t := Finish(cfg, u, c);
    } else {
      var u := PushOn(cfg, s, c);
      t := Finish(cfg, u, c);
    }
  }

  lemma DoneOn(cfg: Config, s: Sys, c: Cid) returns (t: Sys)
    requires Inv(cfg, s) && s.disp.Fanning? && s.disp.todo == []
    ensures Inv(cfg, t) && t.disp.Idle? && t.clients == s.clients
    ensures (Unlocked(s) ==> Unlocked(t)) && (MayPanic(cfg, t, c) ==> MayPanic(cfg, s, c))
  {
    hide MayPanic, Accounted, NothingEarly, ClientOk, Exclusive;
    EventKeepsInv(cfg, s, FanDone);
    t := Do(cfg, s, FanDone);
    if MayPanic(cfg, t, c) { Forward(cfg, s, FanDone, c); }
  }

  // ---------------------------------------------------------------- a new frame

  predicate IsMapped(s: Sys, c: Cid, upstream: int) {
    && c in s.clients && s.clients[c].attached && s.clients[c].sessions != []
    && upstream in s.clients[c].sessions[Last(s.clients[c])].channels
  }

  function TargetOf(s: Sys, c: Cid, upstream: int): Target
    requires IsMapped(s, c, upstream)
  {
    Target(c, Last(s.clients[c]), s.clients[c].sessions[Last(s.clients[c])].channels[upstream])
  }

  /** The snapshot of some of the clients. */
  lemma {:induction false} Listed(s: Sys, cs: set<Cid>, upstream: int) returns (ts: seq<Target>)
    ensures forall i | 0 <= i < |ts| ::
              IsMapped(s, ts[i].client, upstream) && ts[i] == TargetOf(s, ts[i].client, upstream)
    ensures forall i | 0 <= i < |ts| :: ts[i].client in cs
    ensures forall i, j | 0 <= i < j < |ts| :: ts[i].client != ts[j].client
    ensures forall d <- cs | IsMapped(s, d, upstream) :: TargetOf(s, d, upstream) in ts
  {
    hide IsMapped, TargetOf;
    if d :| d in cs {
      ts := Listed(s, cs - {d}, upstream);
      if IsMapped(s, d, upstream) {
        assert TargetOf(s, d, upstream).client == d by { TargetClient(s, d, upstream); }
        ts := [TargetOf(s, d, upstream)] + ts;
      }
    } else {
      ts := [];
    }
  }

  lemma TargetClient(s: Sys, d: Cid, upstream: int)
    requires IsMapped(s, d, upstream)
    ensures TargetOf(s, d, upstream).client == d
  {
  }

  lemma SnapshotExists(s: Sys, upstream: int) returns (ts: seq<Target>)
    ensures IsSnapshot(s, ts, upstream)
  {
    ts := Listed(s, s.clients.Keys, upstream);
    forall t: Target | Mapped(s, t, upstream) ensures t in ts { assert t == TargetOf(s, t.client, upstream); }
  }

  const FRAME: bytes := ['$', 0 as char, 0 as char, 0 as char]

  /** A frame on channel 0 arrives from the camera. */
  lemma FrameArrives(cfg: Config, s: Sys, c: Cid) returns (t: Sys, j: nat)
    requires Inv(cfg, s) && s.disp.Idle? && Unlocked(s) && cfg.bufferSize >= 4 && IsMapped(s, c, 0)
    ensures Inv(cfg, t) && t.clients == s.clients && Unlocked(t) && t.disp.Fanning? && j < |t.disp.todo|
    ensures t.disp.todo[j].client == c && t.disp.todo[j].session == Last(s.clients[c])
    ensures MayPanic(cfg, t, c) ==> MayPanic(cfg, s, c)
  {
    hide MayPanic, Inv;
    var ts := SnapshotExists(s, 0);
    var e := Snapshot(FRAME, ts);
    EventKeepsInv(cfg, s, e);
    t := Do(cfg, s, e);
    if MayPanic(cfg, t, c) { Forward(cfg, s, e, c); }
    assert Mapped(s, TargetOf(s, c, 0), 0);
    j :| 0 <= j < |ts| && ts[j] == TargetOf(s, c, 0);
  }

  // ---------------------------------------------------------------- a risky eviction can panic

  lemma ReadyPanics(cfg: Config, s: Sys, c: Cid, k: nat)
    requires c in s.clients && IsSession(s.clients[c], k) && Unlocked(s)
    requires s.clients[c].sessions[k].runner == Ready && s.clients[c].sessions[k].queue != []
    requires Attending(s.clients[c].reader) && !s.clients[c].attached && !s.clients[c].destroyed
    ensures MayPanic(cfg, s, c)
  {
    hide MayPanic, Unlocked;
    var t := TakeOn(cfg, s, c, k);
    ReaderLeaves(cfg, t, c, k);
  }

  /** The client's channel is closed, or its older runner is going to close it. */
  predicate Closes(cl: Client, j: nat) { cl.chanClosed || StillCloses(cl, j) }

  /** The new session gets a frame, on a channel that is or will be closed. */
  lemma NewSessionPanics(cfg: Config, s: Sys, c: Cid, j: nat)
    requires Inv(cfg, s) && s.disp.Idle? && Unlocked(s) && cfg.bufferSize >= 4 && cfg.queueSize > 0
    requires IsMapped(s, c, 0) && j < Last(s.clients[c]) && Closes(s.clients[c], j)
    requires var x := s.clients[c].sessions[Last(s.clients[c])]; x.runner == Ready && x.queue == []
    ensures MayPanic(cfg, s, c)
  {
    hide MayPanic, Unlocked, Inv;
    var k := Last(s.clients[c]);
    var t, i := FrameArrives(cfg, s, c);
    var u := Deliver(cfg, t, c, k, i);
    var v := TakeOn(cfg, u, c, k);
    if v.clients[c].chanClosed { SendPanics(cfg, v, c, k); } else { RunnerCloses(cfg, v, c, j, k); }
  }

  function TowardsSetup(r: Reader): Act { match r case Serving => Read(true) case InTeardown => Remove case _ => Reply }

  function SetupRank(r: Reader): nat { match r case InSetup => 0 case Serving => 1 case _ => 2 }

  lemma MayGoToSetup(cl: Client, down: bool)
    requires MaySetUp(cl) && cl.reader != InSetup
    ensures Enabled(cl, TowardsSetup(cl.reader), down)
  {
  }

  lemma AttachGoes(cfg: Config, cl: Client, heap: Heap, down: bool)
    requires cl.reader == InSetup && !cl.attached
    ensures Enabled(cl, Attach, down) && Enabled(cl, Attach, true)
    ensures Apply(cfg, cl, Attach, heap).client ==
            cl.(reader := Mapping, attached := true, sessions := cl.sessions + [NEW_SESSION])
  {
  }

  lemma {:induction false} SetupPanics(cfg: Config, s: Sys, c: Cid, j: nat)
    requires Inv(cfg, s) && s.disp.Idle? && Unlocked(s) && cfg.bufferSize >= 4 && cfg.queueSize > 0
    requires c in s.clients && MaySetUp(s.clients[c]) && !s.clients[c].attached
    requires IsSession(s.clients[c], j) && Closes(s.clients[c], j)
    ensures MayPanic(cfg, s, c)
    decreases SetupRank(s.clients[c].reader)
  {
    hide MayPanic, Unlocked, Inv, Enabled, Apply;
    if s.clients[c].reader == InSetup {
      AttachGoes(cfg, s.clients[c], s.heap, s.down);
      ActOn(cfg, s, c, Attach);
      EventKeepsInv(cfg, s, ClientAct(c, Attach));
      MappingPanics(cfg, After(cfg, s, c, Attach), c, j);
    } else {
      var a := TowardsSetup(s.clients[c].reader);
      MayGoToSetup(s.clients[c], s.down);
      ReaderMoves(cfg, s.clients[c], a, s.heap, s.down);
      ActOn(cfg, s, c, a);
      EventKeepsInv(cfg, s, ClientAct(c, a));
      SetupPanics(cfg, After(cfg, s, c, a), c, j);
    }
  }

  lemma MapGoes(cfg: Config, cl: Client, heap: Heap, down: bool)
    requires cl.reader == Mapping && cl.attached && cl.sessions != [] && cl.sessions[Last(cl)] == NEW_SESSION
    ensures Enabled(cl, MapChannel(0, 0), down) && Enabled(cl, MapChannel(0, 0), true)
    ensures Apply(cfg, cl, MapChannel(0, 0), heap).client ==
            WithSession(cl, Last(cl), NEW_SESSION.(channels := map[0 := 0]))
  {
  }

  lemma MappingPanics(cfg: Config, s: Sys, c: Cid, j: nat)
    requires Inv(cfg, s) && s.disp.Idle? && Unlocked(s) && cfg.bufferSize >= 4 && cfg.queueSize > 0
    requires c in s.clients && s.clients[c].reader == Mapping && s.clients[c].attached && s.clients[c].sessions != []
    requires s.clients[c].sessions[Last(s.clients[c])] == NEW_SESSION
    requires j < Last(s.clients[c]) && Closes(s.clients[c], j)
    ensures MayPanic(cfg, s, c)
  {
    hide MayPanic, Unlocked, Inv, Enabled, Apply;
    MapGoes(cfg, s.clients[c], s.heap, s.down);
    ActOn(cfg, s, c, MapChannel(0, 0));
    EventKeepsInv(cfg, s, ClientAct(c, MapChannel(0, 0)));
    NewSessionPanics(cfg, After(cfg, s, c, MapChannel(0, 0)), c, j);
  }

  /** The state after the stream has forgotten the client's session. */
  ghost function Forgotten(cfg: Config, s: Sys, c: Cid): Sys
    requires Can(cfg, s, ClientAct(c, Evict))
  {
    Do(cfg, s, ClientAct(c, Evict))
  }

  lemma EvictOn(cfg: Config, s: Sys, c: Cid)
    requires Can(cfg, s, ClientAct(c, Evict))
    ensures c in s.clients && s.clients[c].attached && Unlocked(s)
    ensures var t := Forgotten(cfg, s, c);
            t == s.(clients := t.clients, pool := t.pool) && c in t.clients
            && t.clients[c] == Evicted(s.clients[c]) && Unlocked(t)
  {
  }

  lemma SafeFacts(cl: Client)
    requires Safe(cl) && cl.attached && !cl.reader.Stopping?
    ensures cl.sessions != [] && Attending(cl.reader)
    ensures Live(LastRunner(cl)) ==> !cl.destroyed
    ensures LastRunner(cl).Destroys? || cl.destroyed ==> Closes(cl, Last(cl))
  {
  }

  lemma RiskyPanics(cfg: Config, s: Sys, c: Cid)
    requires Inv(cfg, s) && Can(cfg, s, ClientAct(c, Evict)) && Safe(s.clients[c]) && s.clients[c].sessions != []
    requires Risky(s, c) && cfg.bufferSize >= 4 && cfg.queueSize > 0
    ensures MayPanic(cfg, Forgotten(cfg, s, c), c)
  {
    hide MayPanic, Inv, Unlocked, Safe;
    EvictOn(cfg, s, c);
    ReaderUnlocked(s, c);
    var cl := s.clients[c];
    SafeFacts(cl);
    EventKeepsInv(cfg, s, ClientAct(c, Evict));
    var t, k := Forgotten(cfg, s, c), Last(cl);
    if cl.sessions[k].runner.Holding? {
      ReaderLeaves(cfg, t, c, k);
    } else if cl.sessions[k].runner == Ready {
      if cl.sessions[k].queue != [] {
        ReadyPanics(cfg, t, c, k);
      } else {
        var j :| 0 <= j < |s.disp.todo| && s.disp.todo[j].client == c && s.disp.todo[j].session == k;
        var u := Deliver(cfg, t, c, k, j);
        ReadyPanics(cfg, u, c, k);
      }
    } else {
      var u := Finish(cfg, t, c);
      SetupPanics(cfg, u, c, k);
    }
  }

  // ---------------------------------------------------------------- a client on its way out

  /** No live runner, no way to a new session. */
  predicate WindingUp(cl: Client) {
    && !cl.panicked && !cl.attached && cl.sessions != [] && !Live(LastRunner(cl))
    && (forall k | 0 <= k < |cl.sessions| :: cl.sessions[k].quitClosed == !cl.sessions[k].active)
    && (forall k | 0 <= k < |cl.sessions| - 1 :: Harmless(cl.sessions[k].runner))
    && ClosesOnce(cl)
    && cl.reader != InSetup && !cl.reader.Stopping? && !MaySetUp(cl)
  }

  lemma ReaderWindsUp(cl: Client, a: Act)
    requires WindingUp(cl) && ReaderAct(a) && Enabled(cl, a, true)
    ensures WindingUp(ApplyReader(cl, a))
  {
    hide StopSession;
  }

  lemma DrainWindsUp(cfg: Config, cl: Client, a: Act, heap: Heap)
    requires WindingUp(cl) && (a.DrainOne? || a.DrainEnd?) && Enabled(cl, a, true)
    ensures WindingUp(ApplyRunner(cfg, cl, a, heap).client)
  {
    hide Content, Poolable;
  }

  lemma DestroyWindsUp(cfg: Config, cl: Client, a: Act, heap: Heap)
    requires WindingUp(cl) && a.RunnerDestroy? && Enabled(cl, a, true)
    ensures WindingUp(ApplyRunner(cfg, cl, a, heap).client)
  {
    hide Content, Poolable;
    assert Harmless(cl.sessions[a.session].runner) || a.session == Last(cl);
  }

  /** Only the acts of a runner on its way out are left. */
  lemma RunnerIsLeaving(cl: Client, a: Act)
    requires WindingUp(cl) && RunnerAct(a) && Enabled(cl, a, true)
    ensures a.DrainOne? || a.DrainEnd? || a.RunnerDestroy?
  {
    assert Harmless(cl.sessions[a.session].runner) || a.session == Last(cl);
  }

  lemma WindingUpFrame(cl: Client, cl': Client)
    requires WindingUp(cl) && cl' == cl.(writer := cl'.writer, channel := cl'.channel, written := cl'.written)
    ensures WindingUp(cl')
  {
    assert RunnerStation(cl') == RunnerStation(cl) && ReaderStation(cl') == ReaderStation(cl);
  }

  lemma PushWindsUp(cfg: Config, cl: Client, k: nat, p: Slice, heap: Heap)
    requires WindingUp(cl) && IsSession(cl, k)
    ensures WindingUp(Push(cfg, cl, k, p, heap).client)
  {
    hide Content;
  }

  lemma StopWindsUp(cl: Client, k: nat)
    requires WindingUp(cl) && IsSession(cl, k)
    ensures WindingUp(StopSession(cl, k))
  {
  }

  lemma ActWindsUp(cfg: Config, heap: Heap, cl: Client, a: Act)
    requires WindingUp(cl) && Enabled(cl, a, true) && Orderly(a)
    ensures WindingUp(Apply(cfg, cl, a, heap).client)
  {
    hide WindingUp, ApplyReader, ApplyRunner, ApplyWriter, Push, StopSession, Enabled;
    if a.Accept? || a.EvictStop? {
      EnabledAccept(cl, a, true);
      if a.Accept? { PushWindsUp(cfg, cl, a.session, a.packet, heap); } else { StopWindsUp(cl, a.session); }
    } else if WriterAct(a) {
      WriterFrame(cfg, cl, a, heap);
      WindingUpFrame(cl, ApplyWriter(cfg, cl, a, heap).client);
    } else if RunnerAct(a) {
      RunnerIsLeaving(cl, a);
      if a.RunnerDestroy? { DestroyWindsUp(cfg, cl, a, heap); } else { DrainWindsUp(cfg, cl, a, heap); }
    } else {
      ReaderWindsUp(cl, a);
    }
  }

  // ---------------------------------------------------------------- a session nobody feeds

  /** The client as if the runner of session `k` had ended. */
  function Muted(cl: Client, k: nat): Client
    requires IsSession(cl, k)
  {
    WithSession(cl, k, cl.sessions[k].(runner := Ended))
  }

  /** An evicted session with nothing to do. */
  predicate Unfed(cl: Client, k: nat) {
    && IsSession(cl, k) && cl.sessions[k].queue == [] && !(cl.attached && k == Last(cl))
    && (cl.sessions[k].runner == Ready || Harmless(cl.sessions[k].runner))
  }

  /** An act does the same with the runner muted: `d` is the client after the act and `m` the muted one
      after it. */
  predicate Commutes(d: Client, m: Client, k: nat) { Unfed(d, k) && m == Muted(d, k) }

  lemma UnfedFrame(cl: Client, cl': Client, k: nat)
    requires Unfed(cl, k) && cl'.sessions == cl.sessions && (cl'.attached ==> cl.attached)
    ensures Unfed(cl', k)
  {
  }

  lemma UnfedFacts(cl: Client, k: nat)
    requires Unfed(cl, k)
    ensures IsSession(cl, k) && !(cl.attached && k == Last(cl))
  {
  }

  /** Acts that neither look at the sessions nor touch them. */
  lemma SessionsAside(cl: Client, d: Client, m: Client, k: nat)
    requires Unfed(cl, k) && d.sessions == cl.sessions && (d.attached ==> cl.attached)
    requires m == d.(sessions := Muted(cl, k).sessions)
    ensures Commutes(d, m, k)
  {
    UnfedFrame(cl, d, k);
  }

  lemma OwnRunnerCommutes(cfg: Config, cl: Client, k: nat, a: Act, heap: Heap)
    requires Unfed(cl, k) && RunnerAct(a) && a.session == k && Enabled(cl, a, true)
    ensures Commutes(ApplyRunner(cfg, cl, a, heap).client, Muted(cl, k), k)
  {
    hide Content, Poolable, DestroyStation;
    assert Muted(ApplyRunner(cfg, cl, a, heap).client, k).sessions == Muted(cl, k).sessions;
  }

  /** A runner looks at its own session and at the rest of the client, not at other sessions. */
  predicate SameFor(cl: Client, m: Client, k: nat) {
    m == cl.(sessions := m.sessions) && IsSession(cl, k) && IsSession(m, k) && m.sessions[k] == cl.sessions[k]
  }

  lemma EnabledAside(cl: Client, m: Client, a: Act)
    requires RunnerAct(a) && Enabled(cl, a, true) && SameFor(cl, m, a.session)
    ensures Enabled(m, a, true)
  {
  }

  lemma SessionAside(cl: Client, m: Client, a: Act, heap: Heap)
    requires RunnerAct(a) && Enabled(cl, a, true) && Enabled(m, a, true) && SameFor(cl, m, a.session)
    ensures SessionAfter(m, a, heap) == SessionAfter(cl, a, heap)
  {
    hide Content, DestroyStation;
    if a.RunnerDestroy? { StationAside(cl, m, cl.sessions[a.session].runner.at); }
  }

  lemma OutsideAside(cl: Client, m: Client, a: Act, heap: Heap)
    requires RunnerAct(a) && Enabled(cl, a, true) && Enabled(m, a, true) && SameFor(cl, m, a.session)
    ensures OutsideAfter(m, a, heap) == OutsideAfter(cl, a, heap).(sessions := m.sessions)
  {
    hide Content, DestroyStation;
    if a.RunnerDestroy? { StationAside(cl, m, cl.sessions[a.session].runner.at); }
  }

  lemma RunnerCommutes(cfg: Config, cl: Client, k: nat, a: Act, heap: Heap)
    requires Unfed(cl, k) && RunnerAct(a) && a.session != k && Enabled(cl, a, true)
    ensures Enabled(Muted(cl, k), a, true)
    ensures Commutes(ApplyRunner(cfg, cl, a, heap).client, ApplyRunner(cfg, Muted(cl, k), a, heap).client, k)
  {
    hide Content, RunnerPuts, SessionAfter, OutsideAfter, Enabled;
    assert IsSession(cl, a.session) by { EnabledRunner(cl, a); }
    EnabledAside(cl, Muted(cl, k), a);
    SessionAside(cl, Muted(cl, k), a, heap);
    OutsideAside(cl, Muted(cl, k), a, heap);
    SwapUpdates(cl.sessions, k, cl.sessions[k].(runner := Ended), a.session, SessionAfter(cl, a, heap));
  }

  lemma SwapUpdates(ss: seq<Session>, k: nat, x: Session, j: nat, y: Session)
    requires k < |ss| && j < |ss| && j != k
    ensures ss[k := x][j := y] == ss[j := y][k := x]
  {
  }

  lemma WriterEnabledAside(cl: Client, m: Client, a: Act)
    requires WriterAct(a) && Enabled(cl, a, true)
    requires m.writer == cl.writer && m.channel == cl.channel && m.chanClosed == cl.chanClosed
    ensures Enabled(m, a, true)
  {
  }

  lemma WriterAside(cfg: Config, cl: Client, m: Client, a: Act, heap: Heap)
    requires WriterAct(a) && Enabled(cl, a, true) && Enabled(m, a, true)
    requires m.writer == cl.writer && m.channel == cl.channel && m.written == cl.written
    ensures var c, d := ApplyWriter(cfg, cl, a, heap).client, ApplyWriter(cfg, m, a, heap).client;
            d.writer == c.writer && d.channel == c.channel && d.written == c.written
  {
    hide Content, PutBack;
    match a
    case WriterTake =>
    case WriteOk =>
    case WriteFail =>
    case WriterStop =>
    case WriterDrain =>
    case WriterEnd =>
  }

  lemma WriterCommutes(cfg: Config, cl: Client, k: nat, a: Act, heap: Heap)
    requires Unfed(cl, k) && WriterAct(a) && Enabled(cl, a, true)
    ensures Enabled(Muted(cl, k), a, true)
    ensures Commutes(ApplyWriter(cfg, cl, a, heap).client, ApplyWriter(cfg, Muted(cl, k), a, heap).client, k)
  {
    hide ApplyWriter, Enabled, Commutes, Unfed;
    UnfedFacts(cl, k);
    WriterEnabledAside(cl, Muted(cl, k), a);
    WriterAside(cfg, cl, Muted(cl, k), a, heap);
    WriterFrame(cfg, cl, a, heap);
    WriterFrame(cfg, Muted(cl, k), a, heap);
    SessionsAside(cl, ApplyWriter(cfg, cl, a, heap).client, ApplyWriter(cfg, Muted(cl, k), a, heap).client, k);
  }

  lemma PushCommutes(cfg: Config, cl: Client, k: nat, j: nat, p: Slice, heap: Heap)
    requires Unfed(cl, k) && j != k && IsSession(cl, j)
    ensures Commutes(Push(cfg, cl, j, p, heap).client, Push(cfg, Muted(cl, k), j, p, heap).client, k)
  {
    hide Content;
    SwapUpdates(cl.sessions, k, cl.sessions[k].(runner := Ended), j, PushSession(cfg, cl.sessions[j], p, heap));
  }

  lemma OwnStopCommutes(cl: Client, k: nat)
    requires Unfed(cl, k)
    ensures Commutes(StopSession(cl, k), StopSession(Muted(cl, k), k), k)
  {
    if cl.sessions[k].active {
      var x := cl.sessions[k].(active := false, quitClosed := true);
      var y := cl.sessions[k].(runner := Ended);
      UpdateTwice(cl.sessions, k, x, x.(runner := Ended));
      UpdateTwice(cl.sessions, k, y, x.(runner := Ended));
    }
  }

  lemma UpdateTwice(ss: seq<Session>, k: nat, x: Session, y: Session)
    requires k < |ss|
    ensures ss[k := x][k := y] == ss[k := y]
  {
  }

  lemma StopCommutes(cl: Client, k: nat, j: nat)
    requires Unfed(cl, k) && IsSession(cl, j)
    ensures Commutes(StopSession(cl, j), StopSession(Muted(cl, k), j), k)
  {
    if j == k {
      hide Commutes, StopSession, Unfed;
      OwnStopCommutes(cl, k);
    } else {
      SwapUpdates(cl.sessions, k, cl.sessions[k].(runner := Ended), j,
                  cl.sessions[j].(active := false, quitClosed := true));
    }
  }

  lemma RemoveCommutes(cl: Client, k: nat)
    requires Unfed(cl, k) && Enabled(cl, Remove, true)
    ensures Enabled(Muted(cl, k), Remove, true)
    ensures Commutes(ApplyReader(cl, Remove), ApplyReader(Muted(cl, k), Remove), k)
  {
    hide StopSession, Unfed, Commutes;
    UnfedFacts(cl, k);
    var d := ApplyReader(cl, Remove);
    var m := ApplyReader(Muted(cl, k), Remove);
    if cl.attached && cl.sessions != [] && cl.sessions[Last(cl)].active {
      StopCommutes(cl, k, Last(cl));
      CommutesFrame(StopSession(cl, Last(cl)), StopSession(Muted(cl, k), Last(cl)), d.reader, k);
    } else {
      SessionsAside(cl, d, m, k);
    }
  }

  lemma CommutesFrame(d: Client, m: Client, r: Reader, k: nat)
    requires Commutes(d, m, k)
    ensures Commutes(d.(reader := r), m.(reader := r), k)
  {
  }

  lemma AttachCommutes(cl: Client, k: nat)
    requires Unfed(cl, k) && Enabled(cl, Attach, true)
    ensures Enabled(Muted(cl, k), Attach, true)
    ensures Commutes(ApplyReader(cl, Attach), ApplyReader(Muted(cl, k), Attach), k)
  {
    var x := cl.sessions[k].(runner := Ended);
    assert (cl.sessions + [NEW_SESSION])[k := x] == cl.sessions[k := x] + [NEW_SESSION];
  }

  lemma MapCommutes(cl: Client, k: nat, a: Act)
    requires Unfed(cl, k) && a.MapChannel? && Enabled(cl, a, true)
    ensures Enabled(Muted(cl, k), a, true)
    ensures Commutes(ApplyReader(cl, a), ApplyReader(Muted(cl, k), a), k)
  {
    if cl.attached && cl.sessions != [] {
      var s := cl.sessions[Last(cl)];
      SwapUpdates(cl.sessions, k, cl.sessions[k].(runner := Ended), Last(cl),
                  s.(channels := s.channels[a.upstream := a.downstream]));
    }
  }

  lemma QuietCommutes(cl: Client, k: nat, a: Act)
    requires Unfed(cl, k) && Enabled(cl, a, true)
    requires a.Read? || a.Reply? || a.Leave? || a.Removed?
    ensures Enabled(Muted(cl, k), a, true)
    ensures Commutes(ApplyReader(cl, a), ApplyReader(Muted(cl, k), a), k)
  {
    hide Unfed, Commutes, StopSession, DestroyStation;
    UnfedFacts(cl, k);
    assert a.Removed? ==> Muted(cl, k).sessions[Last(cl)].runner == Ended;
    SessionsAside(cl, ApplyReader(cl, a), ApplyReader(Muted(cl, k), a), k);
  }

  /** Destroying the client does not look at the sessions. */
  lemma StationAside(cl: Client, m: Client, at: Destroying)
    requires m == cl.(sessions := m.sessions)
    ensures DestroyStation(m, at).1 == DestroyStation(cl, at).1
    ensures DestroyStation(m, at).0 == DestroyStation(cl, at).0.(sessions := m.sessions)
  {
  }

  lemma DismantleCommutes(cl: Client, k: nat)
    requires Unfed(cl, k) && Enabled(cl, Dismantle, true)
    ensures Enabled(Muted(cl, k), Dismantle, true)
    ensures Commutes(ApplyReader(cl, Dismantle), ApplyReader(Muted(cl, k), Dismantle), k)
  {
    hide Unfed, Commutes, DestroyStation;
    UnfedFacts(cl, k);
    StationAside(cl, Muted(cl, k), cl.reader.at);
    SessionsAside(cl, ApplyReader(cl, Dismantle), ApplyReader(Muted(cl, k), Dismantle), k);
  }

  lemma ReaderCommutes(cl: Client, k: nat, a: Act)
    requires Unfed(cl, k) && ReaderAct(a) && Enabled(cl, a, true)
    ensures IsSession(cl, k) && Enabled(Muted(cl, k), a, true)
    ensures Commutes(ApplyReader(cl, a), ApplyReader(Muted(cl, k), a), k)
  {
    hide Unfed, Commutes, ApplyReader, Enabled, Muted;
    UnfedFacts(cl, k);
    if a.Remove? {
      RemoveCommutes(cl, k);
    } else if a.Attach? {
      AttachCommutes(cl, k);
    } else if a.MapChannel? {
      MapCommutes(cl, k, a);
    } else if a.Dismantle? {
      DismantleCommutes(cl, k);
    } else {
      QuietCommutes(cl, k, a);
    }
  }

  lemma ActCommutes(cfg: Config, cl: Client, k: nat, a: Act, heap: Heap)
    requires Unfed(cl, k) && Enabled(cl, a, true) && Orderly(a) && !(a.Accept? && a.session == k)
    ensures var d := Apply(cfg, cl, a, heap).client;
            && IsSession(cl, k)
            && (Commutes(d, Muted(cl, k), k) ||
                (Enabled(Muted(cl, k), a, true) && Commutes(d, Apply(cfg, Muted(cl, k), a, heap).client, k)))
  {
    hide Unfed, Commutes, ApplyReader, ApplyRunner, ApplyWriter, Push, StopSession, Enabled, Muted;
    UnfedFacts(cl, k);
    if a.Accept? || a.EvictStop? {
      EnabledAccept(cl, a, true);
      EnabledMuted(cl, k, a);
      if a.Accept? { PushCommutes(cfg, cl, k, a.session, a.packet, heap); } else { StopCommutes(cl, k, a.session); }
    } else if WriterAct(a) {
      WriterCommutes(cfg, cl, k, a, heap);
    } else if RunnerAct(a) {
      if a.session == k { OwnRunnerCommutes(cfg, cl, k, a, heap); } else { RunnerCommutes(cfg, cl, k, a, heap); }
    } else {
      ReaderCommutes(cl, k, a);
    }
  }

  lemma EnabledMuted(cl: Client, k: nat, a: Act)
    requires IsSession(cl, k) && Enabled(cl, a, true) && (a.Accept? || a.EvictStop?)
    ensures Enabled(Muted(cl, k), a, true) && IsSession(Muted(cl, k), a.session)
  {
  }

  /** The session is not fed, nothing is on its way to it, and with its runner muted the client is
      safe. */
  ghost predicate Idling(s: Sys, c: Cid, k: nat) {
    && c in s.clients && Unfed(s.clients[c], k) && !Owes(s.disp, c, k) && Safe(Muted(s.clients[c], k))
  }

  lemma NothingNewOwed(cfg: Config, s: Sys, e: Event, c: Cid, k: nat)
    requires Can(cfg, s, e) && c in s.clients && Unfed(s.clients[c], k) && !Owes(s.disp, c, k)
    ensures !Owes(Do(cfg, s, e).disp, c, k)
  {
    hide Enabled, Apply, Filling, Unlocked;
    var d := Do(cfg, s, e).disp;
    if e.Snapshot? {
      forall i | 0 <= i < |e.targets| ensures !(e.targets[i].client == c && e.targets[i].session == k) {
        assert Mapped(s, e.targets[i], e.packet[1] as int);
      }
    } else if e.PushNext? {
      forall i | 0 <= i < |d.todo| ensures !(d.todo[i].client == c && d.todo[i].session == k) {
        assert d.todo[i] == s.disp.todo[i + 1];
      }
    }
  }

  lemma NotFedNow(s: Sys, e: Event, c: Cid, k: nat)
    requires !Owes(s.disp, c, k) && !(e.ClientAct? && e.act.Accept?)
    ensures ActOf(s, e, c) != [] && ActOf(s, e, c)[0].Accept? ==> ActOf(s, e, c)[0].session != k
  {
  }

  lemma EventKeepsIdling(cfg: Config, s: Sys, e: Event, c: Cid, k: nat)
    requires Can(cfg, s, e) && Idling(s, c, k) && (e.ClientAct? && e.client == c ==> Orderly(e.act))
    ensures Idling(Do(cfg, s, e), c, k)
  {
    NothingNewOwed(cfg, s, e, c, k);
    EventActs(cfg, s, e, c);
    SparedAct(s, e, c);
    NotFedNow(s, e, c, k);
    hide Can, Do, ActOf, Enabled, Apply, Safe, Unfed, Muted;
    if ActOf(s, e, c) != [] {
      var a := ActOf(s, e, c)[0];
      ActCommutes(cfg, s.clients[c], k, a, s.heap);
      if Enabled(Muted(s.clients[c], k), a, true) { ActKeepsSafe(cfg, Muted(s.clients[c], k), a, true, s.heap); }
    }
  }

  // ---------------------------------------------------------------- any other eviction cannot

  /** The client cannot panic: it is safe, or on its way out, or its evicted session idles. */
  ghost predicate Harmed(s: Sys, c: Cid, k: nat) {
    c in s.clients && !Safe(s.clients[c]) && !WindingUp(s.clients[c]) && !Idling(s, c, k)
  }

  lemma EventHarmsNot(cfg: Config, s: Sys, e: Event, c: Cid, k: nat)
    requires Can(cfg, s, e) && c in s.clients && !Harmed(s, c, k) && (e.ClientAct? && e.client == c ==> Orderly(e.act))
    ensures c in Do(cfg, s, e).clients && !Harmed(Do(cfg, s, e), c, k)
  {
    hide Can, Do, ActOf, Enabled, Apply, Safe, WindingUp, Idling;
    EventActs(cfg, s, e, c);
    SparedAct(s, e, c);
    if Safe(s.clients[c]) {
      EventKeepsClientSafe(cfg, s, e, c);
    } else if WindingUp(s.clients[c]) {
      if ActOf(s, e, c) != [] { ActWindsUp(cfg, s.heap, s.clients[c], ActOf(s, e, c)[0]); }
    } else {
      EventKeepsIdling(cfg, s, e, c, k);
    }
  }

  lemma UnharmedIsWell(s: Sys, c: Cid, k: nat)
    requires c in s.clients && !Harmed(s, c, k)
    ensures !s.clients[c].panicked
  {
  }

  lemma {:induction false} RunHarmsNot(cfg: Config, s: Sys, fs: seq<Event>, c: Cid, k: nat)
    requires Possible(cfg, s, fs) && Spares(fs, c) && c in s.clients && !Harmed(s, c, k)
    ensures c in Exec(cfg, s, fs).clients && !Harmed(Exec(cfg, s, fs), c, k)
    decreases |fs|
  {
    hide Can, Do, Harmed;
    if fs == [] {
    } else {
      RunHarmsNot(cfg, s, fs[..|fs| - 1], c, k);
      EventHarmsNot(cfg, Exec(cfg, s, fs[..|fs| - 1]), fs[|fs| - 1], c, k);
    }
  }

  lemma HarmlessEviction(cfg: Config, s: Sys, c: Cid)
    requires Can(cfg, s, ClientAct(c, Evict)) && Safe(s.clients[c]) && s.clients[c].sessions != [] && !Risky(s, c)
    ensures c in Forgotten(cfg, s, c).clients && !Harmed(Forgotten(cfg, s, c), c, Last(s.clients[c]))
  {
    EvictOn(cfg, s, c);
    var cl := s.clients[c];
    var t, k := Forgotten(cfg, s, c), Last(cl);
    hide Can, Do, Forgotten;
    if LastRunner(cl) == Ready {
      IdleSessionEvicted(cl);
      assert Idling(t, c, k);
    } else {
      DeadSessionEvicted(cl);
    }
  }

  lemma IdleSessionEvicted(cl: Client)
    requires Safe(cl) && cl.attached && !cl.reader.Stopping? && cl.sessions != []
    requires LastRunner(cl) == Ready && cl.sessions[Last(cl)].queue == []
    ensures Unfed(Evicted(cl), Last(cl)) && Safe(Muted(Evicted(cl), Last(cl)))
  {
  }

  lemma DeadSessionEvicted(cl: Client)
    requires Safe(cl) && cl.attached && !cl.reader.Stopping? && cl.sessions != [] && !Live(LastRunner(cl))
    requires LastRunner(cl).Destroys? || cl.destroyed ==> !MaySetUp(cl)
    ensures Safe(Evicted(cl)) || WindingUp(Evicted(cl))
  {
    assert LastRunner(Evicted(cl)) == LastRunner(cl);
  }

  /** Exactly when destroying a stream endangers a client. After any run in which the client was not
      evicted, let the stream forget the client's session. Some continuation of the whole fan-out, in
      which the client is not evicted again, makes a goroutine of the client panic if and only if a
      packet for the session is in its runner's hand, in its queue or still to be pushed, or the client
      is being or has been destroyed while its reader can still set up another session. */
  lemma EvictionIff(cfg: Config, es: seq<Event>, c: Cid)
    requires cfg.queueSize > 0 && cfg.bufferSize >= 4
    requires Possible(cfg, INIT, es) && Spares(es, c) && Can(cfg, Exec(cfg, INIT, es), ClientAct(c, Evict))
    ensures Exec(cfg, INIT, es).clients[c].sessions != []
    ensures MayPanic(cfg, Forgotten(cfg, Exec(cfg, INIT, es), c), c) <==> Risky(Exec(cfg, INIT, es), c)
  {
    hide Exec;
    SafeRun(cfg, es, c);
    RunInv(cfg, es);
    var s := Exec(cfg, INIT, es);
    EvictOn(cfg, s, c);
    ReaderUnlocked(s, c);
    SafeFacts(s.clients[c]);
    hide Can, Do, Safe, Inv, Risky;
    if Risky(s, c) {
      RiskyPanics(cfg, s, c);
    } else {
      HarmlessEviction(cfg, s, c);
      var t, k := Forgotten(cfg, s, c), Last(s.clients[c]);
      forall fs: seq<Event> | Possible(cfg, t, fs) && Spares(fs, c)
        ensures c in Exec(cfg, t, fs).clients && !Exec(cfg, t, fs).clients[c].panicked
      {
        RunHarmsNot(cfg, t, fs, c, k);
        UnharmedIsWell(Exec(cfg, t, fs), c, k);
      }
    }
  }

  // ---------------------------------------------------------------- it happens

  lemma {:induction false} ExecSnoc(cfg: Config, es: seq<Event>, u: Sys, e: Event)
    requires Possible(cfg, INIT, es) && Exec(cfg, INIT, es) == u && Can(cfg, u, e)
    ensures Possible(cfg, INIT, es + [e]) && Exec(cfg, INIT, es + [e]) == Do(cfg, u, e)
  {
    hide Can, Do;
    assert (es + [e])[..|es|] == es;
  }

  /** A system with client 0 only. */
  function Solo(cl: Client, d: Dispatcher, shots: seq<Shot>): Sys {
    Sys(map[], multiset{}, multiset{}, map[0 := cl], d, false, shots)
  }

  const SETTING_UP := NEW_CLIENT.(reader := InSetup)
  const SET_UP := NEW_CLIENT.(reader := Mapping, attached := true, sessions := [NEW_SESSION])
  const MAPPED := SET_UP.(sessions := [NEW_SESSION.(channels := map[0 := 0])])
  const TARGETS := [Target(0, 0, 0)]

  ghost predicate Goes(cfg: Config, s: Sys, e: Event, t: Sys) { Can(cfg, s, e) && Do(cfg, s, e) == t }

  lemma ActGoes(cfg: Config, cl: Client, a: Act, cm: Client)
    requires !a.Accept? && Enabled(cl, a, false) && !cl.reader.Stopping?
    requires Enabled(cl, a, true) && Apply(cfg, cl, a, map[]) == Effect(cm, [])
    ensures Goes(cfg, Solo(cl, Idle, []), ClientAct(0, a), Solo(cm, Idle, []))
  {
    hide Enabled, Apply;
    assert map[0 := cl][0 := cm] == map[0 := cm];
  }

  lemma SetUpActs(cfg: Config)
    ensures Enabled(NEW_CLIENT, Read(true), false) && Enabled(NEW_CLIENT, Read(true), true)
    ensures Apply(cfg, NEW_CLIENT, Read(true), map[]) == Effect(SETTING_UP, [])
    ensures Enabled(SETTING_UP, Attach, false) && Enabled(SETTING_UP, Attach, true)
    ensures Apply(cfg, SETTING_UP, Attach, map[]) == Effect(SET_UP, [])
  {
    assert [] + [NEW_SESSION] == [NEW_SESSION];
  }

  lemma MapActs(cfg: Config)
    ensures Enabled(SET_UP, MapChannel(0, 0), false) && Enabled(SET_UP, MapChannel(0, 0), true)
    ensures Apply(cfg, SET_UP, MapChannel(0, 0), map[]) == Effect(MAPPED, [])
    ensures Enabled(MAPPED, Evict, false)
  {
    assert [NEW_SESSION][0 := NEW_SESSION.(channels := map[0 := 0])] == [NEW_SESSION.(channels := map[0 := 0])];
  }

  lemma SnapshotGoes(cfg: Config)
    requires cfg.bufferSize >= 4
    ensures Goes(cfg, Solo(MAPPED, Idle, []), Snapshot(FRAME, TARGETS),
                 Solo(MAPPED, Fanning(FRAME, TARGETS, Empty), [Shot(FRAME, TARGETS)]))
  {
    var s := Solo(MAPPED, Idle, []);
    forall t: Target | Mapped(s, t, 0) ensures t in TARGETS { assert t == TARGETS[0]; }
    assert Mapped(s, TARGETS[0], 0);
    assert [] + [Shot(FRAME, TARGETS)] == [Shot(FRAME, TARGETS)];
  }

  /** A client sets up a session and maps a channel, a frame on that channel arrives, and before the
      dispatcher has pushed it the stream is destroyed. */
  lemma EvictionPanics(cfg: Config) returns (es: seq<Event>)
    requires cfg.queueSize > 0 && cfg.bufferSize >= 4
    ensures Possible(cfg, INIT, es) && Spares(es, 0) && Can(cfg, Exec(cfg, INIT, es), ClientAct(0, Evict))
    ensures MayPanic(cfg, Forgotten(cfg, Exec(cfg, INIT, es), 0), 0)
  {
    es := ReachOwed(cfg);
    var s := Solo(MAPPED, Fanning(FRAME, TARGETS, Empty), [Shot(FRAME, TARGETS)]);
    OwedIsRisky(cfg);
    hide Exec, MayPanic, Solo, Can, Risky, Spares;
    EvictionIff(cfg, es, 0);
  }

  lemma OwedIsRisky(cfg: Config)
    ensures var s := Solo(MAPPED, Fanning(FRAME, TARGETS, Empty), [Shot(FRAME, TARGETS)]);
            Can(cfg, s, ClientAct(0, Evict)) && Risky(s, 0)
  {
    MapActs(cfg);
    assert TARGETS[0].client == 0 && TARGETS[0].session == 0;
  }

  lemma ReachOwed(cfg: Config) returns (es: seq<Event>)
    requires cfg.bufferSize >= 4
    ensures Possible(cfg, INIT, es) && Spares(es, 0)
    ensures Exec(cfg, INIT, es) == Solo(MAPPED, Fanning(FRAME, TARGETS, Empty), [Shot(FRAME, TARGETS)])
  {
    hide Can, Do, Exec, Possible, Solo, Enabled, Apply;
    ConnectGoes(cfg);
    SetUpActs(cfg);
    MapActs(cfg);
    ActGoes(cfg, NEW_CLIENT, Read(true), SETTING_UP);
    ActGoes(cfg, SETTING_UP, Attach, SET_UP);
    ActGoes(cfg, SET_UP, MapChannel(0, 0), MAPPED);
    SnapshotGoes(cfg);
    es := [] + [Connect(0)];
    ExecSnoc(cfg, es, Solo(NEW_CLIENT, Idle, []), ClientAct(0, Read(true)));
    es := es + [ClientAct(0, Read(true))];
    ExecSnoc(cfg, es, Solo(SETTING_UP, Idle, []), ClientAct(0, Attach));
    es := es + [ClientAct(0, Attach)];
    ExecSnoc(cfg, es, Solo(SET_UP, Idle, []), ClientAct(0, MapChannel(0, 0)));
    es := es + [ClientAct(0, MapChannel(0, 0))];
    ExecSnoc(cfg, es, Solo(MAPPED, Idle, []), Snapshot(FRAME, TARGETS));
    es := es + [Snapshot(FRAME, TARGETS)];
  }

  lemma ConnectGoes(cfg: Config)
    ensures Possible(cfg, INIT, [] + [Connect(0)])
    ensures Exec(cfg, INIT, [] + [Connect(0)]) == Solo(NEW_CLIENT, Idle, [])
  {
    assert Possible(cfg, INIT, []) && Exec(cfg, INIT, []) == INIT;
    ExecSnoc(cfg, [], INIT, Connect(0));
  }
}
