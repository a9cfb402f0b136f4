/** What becomes of a client that does not read: its write channel fills up, its runner gives up and
    destroys it. And what the stream's lock keeps out meanwhile. */
module FanoutSlow {
  import opened ClientPipe
  import opened Fanout
  import opened FanoutSafety

  // ---------------------------------------------------------------- the write channel

  predicate Flows(cl: Client) { |cl.channel| <= 200 }

  lemma RunnerFlows(cfg: Config, cl: Client, a: Act, heap: Heap)
    requires RunnerAct(a) && Enabled(cl, a, true) && Flows(cl)
    ensures Flows(ApplyRunner(cfg, cl, a, heap).client)
  {
    hide Content, SessionAfter, RunnerPuts, DestroyStation;
  }

  lemma WriterFlows(cfg: Config, cl: Client, a: Act, heap: Heap)
    requires WriterAct(a) && Enabled(cl, a, true) && Flows(cl)
    ensures Flows(ApplyWriter(cfg, cl, a, heap).client)
  {
    hide Content, PutBack;
  }

  lemma ReaderFlows(cl: Client, a: Act)
    requires ReaderAct(a) && Enabled(cl, a, true)
    ensures ApplyReader(cl, a).channel == cl.channel
  {
  }

  lemma ActFlows(cfg: Config, cl: Client, a: Act, heap: Heap)
    requires Enabled(cl, a, true) && Flows(cl)
    ensures Flows(Apply(cfg, cl, a, heap).client)
  {
    hide ApplyRunner, ApplyWriter, ApplyReader, PushSession;
    if WriterAct(a) {
      hide Enabled;
      WriterFlows(cfg, cl, a, heap);
    } else if RunnerAct(a) {
      hide Enabled;
      RunnerFlows(cfg, cl, a, heap);
    } else if ReaderAct(a) {
      hide Enabled;
      ReaderFlows(cl, a);
    }
  }

  /** The client after an event is new, or has done one act, or is the same. */
  lemma ClientStep(cfg: Config, s: Sys, e: Event, c: Cid) returns (acts: seq<Act>)
    requires Can(cfg, s, e) && c in s.clients
    ensures c in Do(cfg, s, e).clients && |acts| <= 1
    ensures if acts == [] then Do(cfg, s, e).clients[c] == s.clients[c]
            else Enabled(s.clients[c], acts[0], true)
                 && Do(cfg, s, e).clients[c] == Apply(cfg, s.clients[c], acts[0], s.heap).client
  {
    hide Apply, Enabled, IsSnapshot, Filling;
    acts := [];
    if e.ClientAct? && e.client == c {
      DownEnables(s.clients[c], e.act, s.down);
      acts := [e.act];
    } else if e.PushNext? && s.disp.todo[0].client == c {
      var t := s.disp.todo[0];
      acts := [Accept(t.session, Slice(s.disp.hand.buf, |s.disp.packet|))];
      EnabledPush(s.clients[c], acts[0]);
    }
  }

  lemma NewOnlyConnects(cfg: Config, s: Sys, e: Event, c: Cid)
    requires Can(cfg, s, e) && c !in s.clients && c in Do(cfg, s, e).clients
    ensures Do(cfg, s, e).clients[c] == NEW_CLIENT
  {
    hide Apply, Enabled, IsSnapshot, Filling;
  }

  /** In every run a client's write channel holds at most 200 packets. A runner can pass its packet on if
      and only if there are fewer, or the channel is closed; otherwise it can only wait or time out. */
  lemma {:induction false} WriteChannelBounded(cfg: Config, es: seq<Event>, c: Cid, k: nat)
    requires Possible(cfg, INIT, es) && c in Exec(cfg, INIT, es).clients
    ensures |Exec(cfg, INIT, es).clients[c].channel| <= 200
    ensures IsSession(Exec(cfg, INIT, es).clients[c], k)
            && Exec(cfg, INIT, es).clients[c].sessions[k].runner.Holding? ==>
              (Can(cfg, Exec(cfg, INIT, es), ClientAct(c, Send(k))) <==>
                 Exec(cfg, INIT, es).clients[c].chanClosed || |Exec(cfg, INIT, es).clients[c].channel| < 200)
              && Can(cfg, Exec(cfg, INIT, es), ClientAct(c, Timeout(k)))
    decreases |es|
  {
    hide Do;
    if es == [] {
    } else {
      hide Can, Apply;
      var s, e := Exec(cfg, INIT, es[..|es| - 1]), es[|es| - 1];
      if c in s.clients {
        WriteChannelBounded(cfg, es[..|es| - 1], c, k);
        var acts := ClientStep(cfg, s, e, c);
        if acts != [] { ActFlows(cfg, s.clients[c], acts[0], s.heap); }
      } else {
        NewOnlyConnects(cfg, s, e, c);
      }
      SendPossible(cfg, Exec(cfg, INIT, es), c, k);
    }
  }

  lemma SendPossible(cfg: Config, s: Sys, c: Cid, k: nat)
    ensures c in s.clients && IsSession(s.clients[c], k) && s.clients[c].sessions[k].runner.Holding? ==>
              (Can(cfg, s, ClientAct(c, Send(k))) <==> s.clients[c].chanClosed || |s.clients[c].channel| < 200)
              && Can(cfg, s, ClientAct(c, Timeout(k)))
  {
  }

  // ---------------------------------------------------------------- giving up

  /** A runner that gave up: it is destroying the client, or has. */
  predicate GaveUp(cl: Client, k: nat) {
    && IsSession(cl, k)
    && (cl.sessions[k].runner.Destroys? || Harmless(cl.sessions[k].runner))
    && (cl.sessions[k].runner == Destroys(Swapping) || cl.destroyed)
  }

  lemma RunnerGivesUp(cfg: Config, cl: Client, a: Act, heap: Heap, k: nat)
    requires RunnerAct(a) && Enabled(cl, a, true) && GaveUp(cl, k)
    ensures GaveUp(ApplyRunner(cfg, cl, a, heap).client, k)
  {
    hide Content, RunnerPuts;
  }

  lemma WriterLets(cfg: Config, cl: Client, a: Act, heap: Heap, k: nat)
    requires WriterAct(a) && Enabled(cl, a, true) && GaveUp(cl, k)
    ensures GaveUp(ApplyWriter(cfg, cl, a, heap).client, k)
  {
    hide ApplyWriter, Enabled;
    WriterFrame(cfg, cl, a, heap);
  }

  lemma ReaderLets(cl: Client, a: Act, k: nat)
    requires ReaderAct(a) && Enabled(cl, a, true) && GaveUp(cl, k)
    ensures GaveUp(ApplyReader(cl, a), k)
  {
  }

  lemma ActLets(cfg: Config, cl: Client, a: Act, heap: Heap, k: nat)
    requires Enabled(cl, a, true) && GaveUp(cl, k)
    ensures GaveUp(Apply(cfg, cl, a, heap).client, k)
  {
    hide ApplyRunner, ApplyWriter, ApplyReader, Content;
    if WriterAct(a) {
      hide Enabled, GaveUp;
      WriterLets(cfg, cl, a, heap, k);
    } else if RunnerAct(a) {
      hide Enabled, GaveUp;
      RunnerGivesUp(cfg, cl, a, heap, k);
    } else if ReaderAct(a) {
      hide Enabled, GaveUp;
      ReaderLets(cl, a, k);
    }
  }

  lemma {:induction false} GivenUpStays(cfg: Config, s: Sys, c: Cid, k: nat, fs: seq<Event>)
    requires c in s.clients && GaveUp(s.clients[c], k) && Possible(cfg, s, fs)
    ensures c in Exec(cfg, s, fs).clients && GaveUp(Exec(cfg, s, fs).clients[c], k)
    decreases |fs|
  {
    hide Can, Do, Apply, GaveUp;
    if fs == [] {
    } else {
      GivenUpStays(cfg, s, c, k, fs[..|fs| - 1]);
      var t := Exec(cfg, s, fs[..|fs| - 1]);
      var acts := ClientStep(cfg, t, fs[|fs| - 1], c);
      if acts != [] { ActLets(cfg, t.clients[c], acts[0], t.heap, k); }
    }
  }

  lemma TimeoutGivesUp(cfg: Config, s: Sys, c: Cid, k: nat)
    requires Can(cfg, s, ClientAct(c, Timeout(k)))
    ensures var t := Do(cfg, s, ClientAct(c, Timeout(k))); c in t.clients && GaveUp(t.clients[c], k)
  {
    hide Content, IsSnapshot;
  }

  /** In every run: when a runner times out on the full write channel it passes on nothing more, ever, and
      destroys the client: once it has taken its first step on the way out, the client is marked. */
  lemma SlowClientIsDestroyed(cfg: Config, es: seq<Event>, c: Cid, k: nat, fs: seq<Event>)
    requires Possible(cfg, INIT, es) && Can(cfg, Exec(cfg, INIT, es), ClientAct(c, Timeout(k)))
    requires Possible(cfg, Do(cfg, Exec(cfg, INIT, es), ClientAct(c, Timeout(k))), fs)
    ensures var t := Exec(cfg, Do(cfg, Exec(cfg, INIT, es), ClientAct(c, Timeout(k))), fs);
            && c in t.clients && IsSession(t.clients[c], k)
            && (t.clients[c].sessions[k].runner == Destroys(Swapping) || t.clients[c].destroyed)
            && (forall a | Can(cfg, t, ClientAct(c, a)) :: a != Send(k) && a != Take(k))
  {
    hide Exec, Possible;
    var s := Exec(cfg, INIT, es);
    TimeoutGivesUp(cfg, s, c, k);
    hide Do;
    GivenUpStays(cfg, Do(cfg, s, ClientAct(c, Timeout(k))), c, k, fs);
  }

  // ---------------------------------------------------------------- the lock

  /** While a removal waits under the stream's lock, no client attaches, maps a channel, is removed or
      evicted, and no frame is dispatched; the pushes of a frame already dispatched go on. */
  lemma LockExcludes(cfg: Config, s: Sys, d: Cid, e: Event)
    requires d in s.clients && s.clients[d].reader.Stopping? && Can(cfg, s, e)
    ensures !e.Snapshot?
    ensures e.ClientAct? ==> !e.act.Attach? && !e.act.MapChannel? && !e.act.Remove? && !e.act.Evict?
  {
  }
}
