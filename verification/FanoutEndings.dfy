/** How the goroutines of a client end: readers, runners, writers and whoever destroys the client. */
module FanoutEndings {
  import opened ClientPipe
  import opened ClientFlow
  import opened Fanout
  import opened FanoutSlow

  /** The reader is on its way out. */
  predicate Left(r: Reader) { r == Leaving || (r.Stopping? && r.final) || r.Dismantling? || r == Gone }

  /** Past the swap, the client is marked. */
  predicate Marked(r: Reader, destroyed: bool) { (r.Dismantling? && r.at != Swapping) || r == Gone ==> destroyed }

  /** What one act may do to the ends of the goroutines. */
  predicate EndsWell(cl: Client, d: Client) {
    && |d.sessions| >= |cl.sessions|
    && (forall k | 0 <= k < |cl.sessions| && d.sessions[k].runner == Ended && cl.sessions[k].runner != Ended ::
          cl.sessions[k].queue == [] && d.sessions[k].queue == [])
    && (forall k | 0 <= k < |cl.sessions| && cl.sessions[k].runner == Destroys(Awaiting) ::
          d.sessions[k].runner == Destroys(Awaiting) || cl.writer == Finished)
    && (cl.reader == Dismantling(Awaiting) ==> d.reader == Dismantling(Awaiting) || cl.writer == Finished)
    && (d.writer == Finished && cl.writer != Finished ==> cl.chanClosed && cl.channel == [])
    && (Left(cl.reader) ==> Left(d.reader))
    && (Marked(cl.reader, cl.destroyed) ==> Marked(d.reader, d.destroyed))
    && (cl.chanClosed ==> d.chanClosed) && (cl.destroyed ==> d.destroyed)
  }

  lemma SessionEnds(cl: Client, a: Act, heap: Heap)
    requires RunnerAct(a) && Enabled(cl, a, true)
    ensures var x, y := cl.sessions[a.session], SessionAfter(cl, a, heap);
            && (y.runner == Ended && x.runner != Ended ==> x.queue == [] && y.queue == [])
            && (x.runner == Destroys(Awaiting) ==> y.runner == Destroys(Awaiting) || cl.writer == Finished)
  {
    hide Content;
  }

  lemma RunnerEnds(cfg: Config, cl: Client, a: Act, heap: Heap)
    requires RunnerAct(a) && Enabled(cl, a, true)
    ensures EndsWell(cl, ApplyRunner(cfg, cl, a, heap).client)
  {
    EnabledRunner(cl, a);
    SessionEnds(cl, a, heap);
    OutsideKeeps(cl, a, heap);
    hide Enabled, SessionAfter, OutsideAfter, RunnerPuts;
  }

  lemma OutsideKeeps(cl: Client, a: Act, heap: Heap)
    requires RunnerAct(a) && Enabled(cl, a, true)
    ensures var c := OutsideAfter(cl, a, heap); (cl.chanClosed ==> c.chanClosed) && (cl.destroyed ==> c.destroyed)
  {
    hide Content;
  }

  lemma WriterEnds(cfg: Config, cl: Client, a: Act, heap: Heap)
    requires WriterAct(a) && Enabled(cl, a, true)
    ensures EndsWell(cl, ApplyWriter(cfg, cl, a, heap).client)
  {
    WriterFinishes(cfg, cl, a, heap);
    WriterFrame(cfg, cl, a, heap);
    hide Enabled, ApplyWriter;
  }

  lemma WriterFinishes(cfg: Config, cl: Client, a: Act, heap: Heap)
    requires WriterAct(a) && Enabled(cl, a, true)
    ensures ApplyWriter(cfg, cl, a, heap).client.writer == Finished && cl.writer != Finished ==>
              cl.chanClosed && cl.channel == []
  {
    hide Content, PutBack;
  }

  lemma ReaderEnds(cl: Client, a: Act)
    requires ReaderAct(a) && Enabled(cl, a, true)
    ensures EndsWell(cl, ApplyReader(cl, a))
  {
    ReaderLeaves(cl, a);
    RunnersKept(cl, a);
    hide ApplyReader, Enabled, Left, Marked;
  }

  lemma RunnersKept(cl: Client, a: Act)
    requires ReaderAct(a) && Enabled(cl, a, true)
    ensures var d := ApplyReader(cl, a);
            && d.writer == cl.writer && |d.sessions| >= |cl.sessions|
            && forall k | 0 <= k < |cl.sessions| :: d.sessions[k].runner == cl.sessions[k].runner
  {
    ReaderHolds(cl, a);
    BaseKeeps(cl, a);
    hide ApplyReader, Enabled, ReaderBase;
  }

  lemma BaseKeeps(cl: Client, a: Act)
    requires ReaderAct(a)
    ensures var d := ReaderBase(cl, a);
            && d.writer == cl.writer && |d.sessions| >= |cl.sessions|
            && forall k | 0 <= k < |cl.sessions| :: d.sessions[k].runner == cl.sessions[k].runner
  {
  }

  lemma ReaderLeaves(cl: Client, a: Act)
    requires ReaderAct(a) && Enabled(cl, a, true)
    ensures var d := ApplyReader(cl, a);
            && (cl.reader == Dismantling(Awaiting) ==> d.reader == Dismantling(Awaiting) || cl.writer == Finished)
            && (Left(cl.reader) ==> Left(d.reader))
            && (Marked(cl.reader, cl.destroyed) ==> Marked(d.reader, d.destroyed))
            && (cl.chanClosed ==> d.chanClosed) && (cl.destroyed ==> d.destroyed)
  {
  }

  lemma OtherEnds(cfg: Config, cl: Client, a: Act, heap: Heap)
    requires Enabled(cl, a, true) && (a.Accept? || a.Evict? || a.EvictStop?)
    ensures EndsWell(cl, Apply(cfg, cl, a, heap).client)
  {
    hide ApplyRunner, ApplyWriter, ApplyReader, Content, Takes, Left, Marked;
  }

  lemma ActEnds(cfg: Config, cl: Client, a: Act, heap: Heap)
    requires Enabled(cl, a, true)
    ensures EndsWell(cl, Apply(cfg, cl, a, heap).client)
  {
    hide ApplyRunner, ApplyWriter, ApplyReader, Enabled, EndsWell, Push, StopSession, Evicted;
    if WriterAct(a) {
      WriterEnds(cfg, cl, a, heap);
    } else if RunnerAct(a) {
      RunnerEnds(cfg, cl, a, heap);
    } else if ReaderAct(a) {
      ReaderEnds(cl, a);
    } else {
      OtherEnds(cfg, cl, a, heap);
    }
  }

  lemma StaysSame(cl: Client)
    ensures EndsWell(cl, cl)
  {
  }

  /** In every step of every run, to every client: a runner ends only with its queue emptied; whoever destroys
      the client goes on only when the writer has finished; and the writer finishes only when its channel is
      closed and empty. */
  lemma EndsInOrder(cfg: Config, es: seq<Event>, e: Event, c: Cid)
    requires Possible(cfg, INIT, es) && Can(cfg, Exec(cfg, INIT, es), e) && c in Exec(cfg, INIT, es).clients
    ensures c in Do(cfg, Exec(cfg, INIT, es), e).clients
    ensures EndsWell(Exec(cfg, INIT, es).clients[c], Do(cfg, Exec(cfg, INIT, es), e).clients[c])
  {
    EventEnds(cfg, Exec(cfg, INIT, es), e, c);
  }

  lemma EventEnds(cfg: Config, s: Sys, e: Event, c: Cid)
    requires Can(cfg, s, e) && c in s.clients
    ensures c in Do(cfg, s, e).clients && EndsWell(s.clients[c], Do(cfg, s, e).clients[c])
  {
    hide Can, Do, Apply, EndsWell;
    var acts := ClientStep(cfg, s, e, c);
    if acts == [] {
      StaysSame(s.clients[c]);
    } else {
      ActEnds(cfg, s.clients[c], acts[0], s.heap);
    }
  }

  lemma {:induction false} RunMarked(cfg: Config, es: seq<Event>, c: Cid)
    requires Possible(cfg, INIT, es) && c in Exec(cfg, INIT, es).clients
    ensures Marked(Exec(cfg, INIT, es).clients[c].reader, Exec(cfg, INIT, es).clients[c].destroyed)
    ensures Exec(cfg, INIT, es).clients[c].writer == Finished ==> Exec(cfg, INIT, es).clients[c].chanClosed
    decreases |es|
  {
    hide Can, Do;
    if es == [] {
    } else {
      var s, e := Exec(cfg, INIT, es[..|es| - 1]), es[|es| - 1];
      if c in s.clients {
        RunMarked(cfg, es[..|es| - 1], c);
        EventEnds(cfg, s, e, c);
      } else {
        NewOnlyConnects(cfg, s, e, c);
      }
    }
  }

  lemma {:induction false} LeftStays(cfg: Config, s: Sys, c: Cid, fs: seq<Event>)
    requires c in s.clients && Left(s.clients[c].reader) && Possible(cfg, s, fs)
    ensures c in Exec(cfg, s, fs).clients && Left(Exec(cfg, s, fs).clients[c].reader)
    decreases |fs|
  {
    hide Can, Do, Left;
    if fs == [] {
    } else {
      LeftStays(cfg, s, c, fs[..|fs| - 1]);
      EventEnds(cfg, Exec(cfg, s, fs[..|fs| - 1]), fs[|fs| - 1], c);
    }
  }

  /** In every run: once a client's reader has left its loop it serves no request again, it can only remove and
      destroy the client; when it is gone the client is destroyed. And a writer that has finished did so on
      a closed channel. */
  lemma LeavingIsFinal(cfg: Config, es: seq<Event>, c: Cid, fs: seq<Event>)
    requires Possible(cfg, INIT, es) && c in Exec(cfg, INIT, es).clients && Left(Exec(cfg, INIT, es).clients[c].reader)
    requires Possible(cfg, Exec(cfg, INIT, es), fs)
    ensures var t := Exec(cfg, Exec(cfg, INIT, es), fs);
            && c in t.clients && Left(t.clients[c].reader)
            && (forall a | Can(cfg, t, ClientAct(c, a)) && ReaderAct(a) :: a.Remove? || a.Removed? || a.Dismantle?)
            && (t.clients[c].reader == Gone ==> t.clients[c].destroyed)
            && (t.clients[c].writer == Finished ==> t.clients[c].chanClosed)
  {
    hide Exec, Possible;
    LeftStays(cfg, Exec(cfg, INIT, es), c, fs);
    RunAppend(cfg, es, fs);
    RunMarked(cfg, es + fs, c);
  }

  lemma {:induction false} RunAppend(cfg: Config, es: seq<Event>, fs: seq<Event>)
    requires Possible(cfg, INIT, es) && Possible(cfg, Exec(cfg, INIT, es), fs)
    ensures Possible(cfg, INIT, es + fs) && Exec(cfg, INIT, es + fs) == Exec(cfg, Exec(cfg, INIT, es), fs)
    decreases |fs|
  {
    hide Can, Do;
    if fs == [] {
      assert es + fs == es;
    } else {
      assert (es + fs)[..|es + fs| - 1] == es + fs[..|fs| - 1];
      RunAppend(cfg, es, fs[..|fs| - 1]);
    }
  }

  // ---------------------------------------------------------------- stopping a session

  /** A session is active exactly until its quit channel is closed, and that is for good. */
  predicate Quits(cl: Client, d: Client) {
    && |d.sessions| >= |cl.sessions|
    && (forall k | 0 <= k < |cl.sessions| :: cl.sessions[k].quitClosed ==> d.sessions[k].quitClosed)
    && ((forall k | 0 <= k < |cl.sessions| :: cl.sessions[k].quitClosed == !cl.sessions[k].active) ==>
          forall k | 0 <= k < |d.sessions| :: d.sessions[k].quitClosed == !d.sessions[k].active)
  }

  lemma SessionQuits(cl: Client, a: Act, heap: Heap)
    requires RunnerAct(a) && Enabled(cl, a, true)
    ensures var x, y := cl.sessions[a.session], SessionAfter(cl, a, heap);
            y.quitClosed == x.quitClosed && y.active == x.active
  {
    hide Content;
  }

  lemma RunnerQuits(cfg: Config, cl: Client, a: Act, heap: Heap)
    requires RunnerAct(a) && Enabled(cl, a, true)
    ensures Quits(cl, ApplyRunner(cfg, cl, a, heap).client)
  {
    EnabledRunner(cl, a);
    SessionQuits(cl, a, heap);
    hide Enabled, SessionAfter, OutsideAfter, RunnerPuts;
  }

  lemma WriterQuits(cfg: Config, cl: Client, a: Act, heap: Heap)
    requires WriterAct(a) && Enabled(cl, a, true)
    ensures Quits(cl, ApplyWriter(cfg, cl, a, heap).client)
  {
    WriterFrame(cfg, cl, a, heap);
    hide Enabled, ApplyWriter;
  }

  lemma ReaderQuits(cl: Client, a: Act)
    requires ReaderAct(a) && Enabled(cl, a, true)
    ensures Quits(cl, ApplyReader(cl, a))
  {
    ReaderHolds(cl, a);
    hide ApplyReader, Enabled;
  }

  lemma OtherQuits(cfg: Config, cl: Client, a: Act, heap: Heap)
    requires Enabled(cl, a, true) && (a.Accept? || a.Evict? || a.EvictStop?)
    ensures Quits(cl, Apply(cfg, cl, a, heap).client)
  {
    hide ApplyRunner, ApplyWriter, ApplyReader, Content, Takes;
  }

  lemma ActQuits(cfg: Config, cl: Client, a: Act, heap: Heap)
    requires Enabled(cl, a, true)
    ensures Quits(cl, Apply(cfg, cl, a, heap).client)
  {
    hide ApplyRunner, ApplyWriter, ApplyReader, Enabled, Quits, Push, StopSession, Evicted;
    if WriterAct(a) {
      WriterQuits(cfg, cl, a, heap);
    } else if RunnerAct(a) {
      RunnerQuits(cfg, cl, a, heap);
    } else if ReaderAct(a) {
      ReaderQuits(cl, a);
    } else {
      OtherQuits(cfg, cl, a, heap);
    }
  }

  lemma EventQuits(cfg: Config, s: Sys, e: Event, c: Cid)
    requires Can(cfg, s, e) && c in s.clients
    ensures c in Do(cfg, s, e).clients && Quits(s.clients[c], Do(cfg, s, e).clients[c])
  {
    hide Can, Do, Apply;
    var acts := ClientStep(cfg, s, e, c);
    if acts != [] { ActQuits(cfg, s.clients[c], acts[0], s.heap); }
  }

  lemma {:induction false} RunQuits(cfg: Config, es: seq<Event>, c: Cid)
    requires Possible(cfg, INIT, es) && c in Exec(cfg, INIT, es).clients
    ensures forall k | 0 <= k < |Exec(cfg, INIT, es).clients[c].sessions| ::
              var x := Exec(cfg, INIT, es).clients[c].sessions[k]; x.quitClosed == !x.active
    decreases |es|
  {
    hide Can, Do;
    if es == [] {
    } else {
      var s, e := Exec(cfg, INIT, es[..|es| - 1]), es[|es| - 1];
      if c in s.clients {
        RunQuits(cfg, es[..|es| - 1], c);
        EventQuits(cfg, s, e, c);
      } else {
        NewOnlyConnects(cfg, s, e, c);
      }
    }
  }

  lemma {:induction false} ClosedStays(cfg: Config, s: Sys, c: Cid, k: nat, fs: seq<Event>)
    requires c in s.clients && IsSession(s.clients[c], k) && s.clients[c].sessions[k].quitClosed && Possible(cfg, s, fs)
    ensures var t := Exec(cfg, s, fs);
            c in t.clients && IsSession(t.clients[c], k) && t.clients[c].sessions[k].quitClosed
    decreases |fs|
  {
    hide Can, Do;
    if fs == [] {
    } else {
      ClosedStays(cfg, s, c, k, fs[..|fs| - 1]);
      EventQuits(cfg, Exec(cfg, s, fs[..|fs| - 1]), fs[|fs| - 1], c);
    }
  }

  lemma StopCloses(cfg: Config, s: Sys, c: Cid, k: nat)
    requires Can(cfg, s, ClientAct(c, EvictStop(k)))
    requires s.clients[c].sessions[k].quitClosed == !s.clients[c].sessions[k].active
    ensures var t := Do(cfg, s, ClientAct(c, EvictStop(k)));
            c in t.clients && IsSession(t.clients[c], k) && t.clients[c].sessions[k].quitClosed
  {
  }

  /** In every run: once a destroyed stream has stopped a session it had forgotten, the session's runner can
      quit whenever it waits for a packet, whatever else happens. */
  lemma StoppedRunnerMayQuit(cfg: Config, es: seq<Event>, c: Cid, k: nat, fs: seq<Event>)
    requires Possible(cfg, INIT, es) && Can(cfg, Exec(cfg, INIT, es), ClientAct(c, EvictStop(k)))
    requires Possible(cfg, Do(cfg, Exec(cfg, INIT, es), ClientAct(c, EvictStop(k))), fs)
    ensures var t := Exec(cfg, Do(cfg, Exec(cfg, INIT, es), ClientAct(c, EvictStop(k))), fs);
            && c in t.clients && IsSession(t.clients[c], k)
            && (t.clients[c].sessions[k].runner == Ready ==> Can(cfg, t, ClientAct(c, Quit(k))))
  {
    hide Exec, Possible;
    var s := Exec(cfg, INIT, es);
    RunQuits(cfg, es, c);
    StopCloses(cfg, s, c, k);
    hide Do;
    ClosedStays(cfg, Do(cfg, s, ClientAct(c, EvictStop(k))), c, k, fs);
  }

  // ---------------------------------------------------------------- shutdown

  lemma DownStep(cfg: Config, s: Sys, e: Event)
    requires Can(cfg, s, e)
    ensures Do(cfg, s, e).down <==> s.down || e.Shutdown?
  {
    hide Apply, Enabled, IsSnapshot, Filling;
  }

  /** The server is down if and only if it was shut down. */
  lemma {:induction false} DownIff(cfg: Config, es: seq<Event>)
    requires Possible(cfg, INIT, es)
    ensures Exec(cfg, INIT, es).down <==> Shutdown in es
  {
    hide Can, Do;
    if es == [] {
    } else {
      var n := |es| - 1;
      DownIff(cfg, es[..n]);
      DownStep(cfg, Exec(cfg, INIT, es[..n]), es[n]);
      assert es == es[..n] + [es[n]];
    }
  }
}
