/** Removing a client waits for its session's runner while it holds the stream's lock. The wait ends by
    what the client's own goroutines can do. */
module FanoutProgress {
  import opened ClientPipe
  import opened Fanout
  import opened FanoutSafety
  import opened Eviction

  // ---------------------------------------------------------------- one client

  /** What the writer does next on a closed channel. */
  function WriterNext(cl: Client): Act {
    match cl.writer
    case Selecting => if cl.channel != [] then WriterTake else WriterStop
    case Writing(_) => WriteFail
    case Emptying => if cl.channel != [] then WriterDrain else WriterEnd
    case Finished => WriterEnd
  }

  /** A next act that brings the removal nearer to its end. */
  function NextAct(cl: Client): Act
    requires cl.sessions != []
  {
    var k := Last(cl);
    match cl.sessions[k].runner
    case Ready => Quit(k)
    case Holding(_) => Timeout(k)
    case Destroys(at) => if at == Awaiting && cl.writer != Finished then WriterNext(cl) else RunnerDestroy(k)
    case Draining => if cl.sessions[k].queue != [] then DrainOne(k) else DrainEnd(k)
    case Ended => Removed
  }

  function RunnerRank(r: Runner): nat {
    match r
    case Ready => 7
    case Holding(_) => 6
    case Destroys(at) => 2 + Rank(at)
    case Draining => 1
    case Ended => 0
  }

  function WriterRank(w: Writer): nat {
    match w case Selecting => 3 case Writing(_) => 2 case Emptying => 1 case Finished => 0
  }

  lemma WaitingFacts(cl: Client)
    requires Safe(cl) && cl.reader.Stopping?
    ensures cl.attached && cl.sessions != [] && cl.sessions[Last(cl)].quitClosed
    ensures LastRunner(cl) == Destroys(Awaiting) ==> cl.chanClosed
  {
    assert LastRunner(cl) == Destroys(Awaiting) ==> At(cl, Awaiting);
  }

  /** Something on the way to the end got less. */
  predicate Less(d: Client, cl: Client)
    requires d.sessions != [] && cl.sessions != []
  {
    var x, y := d.sessions[Last(d)], cl.sessions[Last(cl)];
    || RunnerRank(x.runner) < RunnerRank(y.runner)
    || (x.runner == y.runner && |x.queue| < |y.queue|)
    || (x == y && WriterRank(d.writer) < WriterRank(cl.writer))
    || (x == y && d.writer == cl.writer && |d.channel| < |cl.channel|)
  }

  /** Which goroutine's act it is decides which part of `Apply` speaks. */
  lemma ApplyIs(cfg: Config, cl: Client, a: Act, heap: Heap)
    requires Enabled(cl, a, true)
    ensures WriterAct(a) ==> Apply(cfg, cl, a, heap) == ApplyWriter(cfg, cl, a, heap)
    ensures RunnerAct(a) ==> Apply(cfg, cl, a, heap) == ApplyRunner(cfg, cl, a, heap)
    ensures ReaderAct(a) ==> Apply(cfg, cl, a, heap) == Effect(ApplyReader(cl, a), [])
  {
    hide Enabled, ApplyWriter, ApplyRunner, ApplyReader, Push, StopSession, Evicted;
  }

  lemma NextRunnerEnabled(cl: Client, down: bool)
    requires cl.sessions != [] && RunnerAct(NextAct(cl)) && cl.sessions[Last(cl)].quitClosed
    ensures Enabled(cl, NextAct(cl), down) && NextAct(cl).session == Last(cl)
    ensures !NextAct(cl).Send? && !NextAct(cl).Take?
  {
  }

  /** The runner comes a step nearer to its end. */
  lemma NextRunnerLess(cl: Client, heap: Heap)
    requires cl.sessions != [] && RunnerAct(NextAct(cl)) && Enabled(cl, NextAct(cl), true)
    requires NextAct(cl).session == Last(cl) && !NextAct(cl).Send? && !NextAct(cl).Take?
    ensures var x, y := SessionAfter(cl, NextAct(cl), heap), cl.sessions[Last(cl)];
            || RunnerRank(x.runner) < RunnerRank(y.runner)
            || (x.runner == y.runner && |x.queue| < |y.queue|)
  {
    hide Content;
  }

  lemma RunnerGoes(cfg: Config, cl: Client, heap: Heap, down: bool)
    requires cl.sessions != [] && RunnerAct(NextAct(cl)) && cl.sessions[Last(cl)].quitClosed
    ensures var a := NextAct(cl);
            && Enabled(cl, a, down) && Enabled(cl, a, true)
            && var d := Apply(cfg, cl, a, heap).client;
               d.reader == cl.reader && d.sessions != [] && Less(d, cl)
  {
    NextRunnerEnabled(cl, down);
    NextRunnerEnabled(cl, true);
    NextRunnerLess(cl, heap);
    ApplyIs(cfg, cl, NextAct(cl), heap);
    hide Enabled, Apply, SessionAfter, OutsideAfter, RunnerPuts, NextAct, RunnerRank;
  }

  lemma WriterGoes(cfg: Config, cl: Client, heap: Heap, down: bool)
    requires cl.sessions != [] && cl.writer != Finished && cl.chanClosed
    ensures var a := WriterNext(cl);
            && WriterAct(a) && Enabled(cl, a, down) && Enabled(cl, a, true)
            && var d := ApplyWriter(cfg, cl, a, heap).client;
               d.reader == cl.reader && d.sessions == cl.sessions
               && (WriterRank(d.writer) < WriterRank(cl.writer)
                   || (d.writer == cl.writer && |d.channel| < |cl.channel|))
  {
    hide Content, PutBack;
  }

  lemma WriterLess(cfg: Config, cl: Client, heap: Heap)
    requires cl.sessions != [] && cl.writer != Finished && cl.chanClosed
    requires WriterAct(WriterNext(cl)) && Enabled(cl, WriterNext(cl), true)
    ensures var d := Apply(cfg, cl, WriterNext(cl), heap).client;
            d.reader == cl.reader && d.sessions != [] && Less(d, cl)
  {
    WriterGoes(cfg, cl, heap, true);
    ApplyIs(cfg, cl, WriterNext(cl), heap);
    hide Enabled, Apply, ApplyWriter, WriterNext, RunnerRank, WriterRank;
  }

  lemma RemovedGoes(cfg: Config, cl: Client, heap: Heap, down: bool)
    requires cl.sessions != [] && cl.reader.Stopping? && LastRunner(cl) == Ended
    ensures Enabled(cl, Removed, down) && Enabled(cl, Removed, true)
    ensures var d := Apply(cfg, cl, Removed, heap).client; !d.reader.Stopping? && !d.attached
  {
  }

  lemma NextGoes(cfg: Config, cl: Client, heap: Heap, down: bool)
    requires Safe(cl) && cl.reader.Stopping?
    ensures cl.sessions != []
    ensures var a := NextAct(cl);
            && !a.Accept? && Orderly(a) && !NeedsLock(a) && Enabled(cl, a, down) && Enabled(cl, a, true)
            && var d := Apply(cfg, cl, a, heap).client;
               if a.Removed? then !d.reader.Stopping? && !d.attached
               else d.reader == cl.reader && d.sessions != [] && Less(d, cl)
  {
    WaitingFacts(cl);
    hide Safe, Enabled, Apply, Less;
    if LastRunner(cl) == Ended {
      RemovedGoes(cfg, cl, heap, down);
    } else if LastRunner(cl) == Destroys(Awaiting) && cl.writer != Finished {
      WriterGoes(cfg, cl, heap, down);
      WriterLess(cfg, cl, heap);
    } else {
      RunnerGoes(cfg, cl, heap, down);
    }
  }

  // ---------------------------------------------------------------- one lock

  /** At most one client is being removed at a time. */
  predicate OneRemoval(s: Sys) {
    forall c <- s.clients, d <- s.clients | s.clients[c].reader.Stopping? && s.clients[d].reader.Stopping? :: c == d
  }

  lemma ReaderStops(cl: Client, a: Act)
    requires Enabled(cl, a, true) && ReaderAct(a) && !a.Remove?
    ensures ApplyReader(cl, a).reader.Stopping? ==> cl.reader.Stopping?
  {
  }

  lemma WriterKeepsReader(cfg: Config, cl: Client, a: Act, heap: Heap)
    requires Enabled(cl, a, true) && WriterAct(a)
    ensures ApplyWriter(cfg, cl, a, heap).client.reader == cl.reader
  {
    hide Content, PutBack;
  }

  lemma RunnerKeepsReader(cfg: Config, cl: Client, a: Act, heap: Heap)
    requires Enabled(cl, a, true) && RunnerAct(a)
    ensures ApplyRunner(cfg, cl, a, heap).client.reader == cl.reader
  {
    hide SessionAfter, OutsideAfter, RunnerPuts;
  }

  lemma StopsByRemove(cfg: Config, cl: Client, a: Act, heap: Heap)
    requires Enabled(cl, a, true) && !a.Remove?
    ensures Apply(cfg, cl, a, heap).client.reader.Stopping? ==> cl.reader.Stopping?
  {
    hide ApplyReader, ApplyWriter, ApplyRunner, PushSession;
    if ReaderAct(a) {
      hide Apply, Enabled;
      ApplyIs(cfg, cl, a, heap);
      ReaderStops(cl, a);
    } else if WriterAct(a) {
      hide Apply, Enabled;
      ApplyIs(cfg, cl, a, heap);
      WriterKeepsReader(cfg, cl, a, heap);
    } else if RunnerAct(a) {
      hide Apply, Enabled;
      ApplyIs(cfg, cl, a, heap);
      RunnerKeepsReader(cfg, cl, a, heap);
    }
  }

  lemma EventKeepsOneRemoval(cfg: Config, s: Sys, e: Event)
    requires OneRemoval(s) && Can(cfg, s, e)
    ensures OneRemoval(Do(cfg, s, e))
  {
    hide Apply, Enabled, Filling, IsSnapshot;
    if e.ClientAct? {
      DownEnables(s.clients[e.client], e.act, s.down);
      if !e.act.Remove? { StopsByRemove(cfg, s.clients[e.client], e.act, s.heap); }
    } else if e.PushNext? {
      var t := s.disp.todo[0];
      var a := Accept(t.session, Slice(s.disp.hand.buf, |s.disp.packet|));
      EnabledPush(s.clients[t.client], a);
      StopsByRemove(cfg, s.clients[t.client], a, s.heap);
    }
  }

  lemma {:induction false} RunOneRemoval(cfg: Config, es: seq<Event>)
    requires Possible(cfg, INIT, es)
    ensures OneRemoval(Exec(cfg, INIT, es))
    decreases |es|
  {
    hide Can, Do;
    if es == [] {
    } else {
      RunOneRemoval(cfg, es[..|es| - 1]);
      EventKeepsOneRemoval(cfg, Exec(cfg, INIT, es[..|es| - 1]), es[|es| - 1]);
    }
  }

  // ---------------------------------------------------------------- the wait ends

  /** Orderly acts of one client. */
  ghost predicate OwnActs(fs: seq<Event>, c: Cid) {
    forall i | 0 <= i < |fs| :: fs[i].ClientAct? && fs[i].client == c && Orderly(fs[i].act)
  }

  lemma OwnStep(cfg: Config, s: Sys, c: Cid) returns (t: Sys, e: Event)
    requires OneRemoval(s) && c in s.clients && Safe(s.clients[c]) && s.clients[c].reader.Stopping?
    ensures Can(cfg, s, e) && t == Do(cfg, s, e) && e.ClientAct? && e.client == c && Orderly(e.act)
    ensures OneRemoval(t) && c in t.clients && Safe(t.clients[c]) && s.clients[c].sessions != []
    ensures if t.clients[c].reader.Stopping? then t.clients[c].sessions != [] && Less(t.clients[c], s.clients[c])
            else !t.clients[c].attached && Unlocked(t)
  {
    var cl := s.clients[c];
    NextGoes(cfg, cl, s.heap, s.down);
    e := ClientAct(c, NextAct(cl));
    hide Less, NextAct, Apply, Enabled, Safe;
    t := Do(cfg, s, e);
    EventKeepsOneRemoval(cfg, s, e);
    ActKeepsSafe(cfg, cl, e.act, true, s.heap);
  }

  lemma {:induction false} RemovalGoesOn(cfg: Config, s: Sys, c: Cid) returns (fs: seq<Event>)
    requires OneRemoval(s) && c in s.clients && Safe(s.clients[c]) && s.clients[c].reader.Stopping?
    requires s.clients[c].sessions != []
    ensures Possible(cfg, s, fs) && OwnActs(fs, c) && c in Exec(cfg, s, fs).clients
    ensures !Exec(cfg, s, fs).clients[c].attached && Unlocked(Exec(cfg, s, fs))
    decreases RunnerRank(LastRunner(s.clients[c])), |s.clients[c].sessions[Last(s.clients[c])].queue|,
              WriterRank(s.clients[c].writer), |s.clients[c].channel|
  {
    hide Can, Do, Safe, OneRemoval, Unlocked, RunnerRank, WriterRank;
    var t, e := OwnStep(cfg, s, c);
    if t.clients[c].reader.Stopping? {
      fs := RemovalGoesOn(cfg, t, c);
    } else {
      fs := [];
      assert Possible(cfg, t, []) && Exec(cfg, t, []) == t;
    }
    ExecCons(cfg, s, e, fs);
    fs := [e] + fs;
  }

  /** Whenever, in a run in which it was not evicted, a client is being removed and the removal waits
      under the stream's lock, acts of the client's own goroutines lead to its end: the client is
      unregistered and the lock is free. No other client and no dispatch is needed for it. */
  lemma RemovalEnds(cfg: Config, es: seq<Event>, c: Cid) returns (fs: seq<Event>)
    requires Possible(cfg, INIT, es) && Spares(es, c) && c in Exec(cfg, INIT, es).clients
    requires Exec(cfg, INIT, es).clients[c].reader.Stopping?
    ensures var s := Exec(cfg, INIT, es);
            && Possible(cfg, s, fs) && OwnActs(fs, c) && c in Exec(cfg, s, fs).clients
            && !Exec(cfg, s, fs).clients[c].attached && Unlocked(Exec(cfg, s, fs))
  {
    hide Exec, Safe, OneRemoval, Unlocked;
    SafeRun(cfg, es, c);
    RunOneRemoval(cfg, es);
    var s := Exec(cfg, INIT, es);
    WaitingFacts(s.clients[c]);
    fs := RemovalGoesOn(cfg, s, c);
  }

  // ---------------------------------------------------------------- shutdown

  function DrainAct(cl: Client, k: nat): Act
    requires IsSession(cl, k)
  {
    if cl.sessions[k].queue == [] then DrainEnd(k) else DrainOne(k)
  }

  lemma DrainGoes(cfg: Config, cl: Client, k: nat, heap: Heap)
    requires IsSession(cl, k) && cl.sessions[k].runner == Draining
    ensures var a := DrainAct(cl, k);
            && Enabled(cl, a, true) && Enabled(cl, a, false)
            && var d := Apply(cfg, cl, a, heap).client;
               && IsSession(d, k)
               && d.sessions[k].runner == (if cl.sessions[k].queue == [] then Ended else Draining)
               && |d.sessions[k].queue| == (if cl.sessions[k].queue == [] then 0 else |cl.sessions[k].queue| - 1)
  {
    var a := DrainAct(cl, k);
    ApplyIs(cfg, cl, a, heap);
    hide Apply, RunnerPuts, Content;
  }

  lemma DrainStep(cfg: Config, s: Sys, c: Cid, k: nat) returns (t: Sys, e: Event)
    requires c in s.clients && IsSession(s.clients[c], k) && s.clients[c].sessions[k].runner == Draining
    ensures Can(cfg, s, e) && t == Do(cfg, s, e) && e.ClientAct? && e.client == c && Orderly(e.act)
    ensures c in t.clients && IsSession(t.clients[c], k)
    ensures if s.clients[c].sessions[k].queue == [] then t.clients[c].sessions[k].runner == Ended
            else t.clients[c].sessions[k].runner == Draining
    ensures var n := |s.clients[c].sessions[k].queue|; |t.clients[c].sessions[k].queue| == if n == 0 then 0 else n - 1
  {
    DrainGoes(cfg, s.clients[c], k, s.heap);
    hide Apply, Enabled;
    e := ClientAct(c, DrainAct(s.clients[c], k));
    t := Do(cfg, s, e);
  }

  lemma {:induction false} Drains(cfg: Config, s: Sys, c: Cid, k: nat) returns (fs: seq<Event>)
    requires c in s.clients && IsSession(s.clients[c], k) && s.clients[c].sessions[k].runner == Draining
    ensures Possible(cfg, s, fs) && OwnActs(fs, c) && c in Exec(cfg, s, fs).clients
    ensures IsSession(Exec(cfg, s, fs).clients[c], k)
    ensures var x := Exec(cfg, s, fs).clients[c].sessions[k]; x.runner == Ended && x.queue == []
    decreases |s.clients[c].sessions[k].queue|
  {
    hide Can, Do;
    var t, e := DrainStep(cfg, s, c, k);
    if t.clients[c].sessions[k].runner == Ended {
      fs := [];
      assert Possible(cfg, t, []) && Exec(cfg, t, []) == t;
    } else {
      fs := Drains(cfg, t, c, k);
    }
    ExecCons(cfg, s, e, fs);
    fs := [e] + fs;
  }

  lemma QuitGoes(cfg: Config, cl: Client, k: nat, heap: Heap)
    requires IsSession(cl, k) && cl.sessions[k].runner == Ready
    ensures Enabled(cl, Quit(k), true)
    ensures var d := Apply(cfg, cl, Quit(k), heap).client; IsSession(d, k) && d.sessions[k].runner == Draining
  {
    ApplyIs(cfg, cl, Quit(k), heap);
    hide Apply, RunnerPuts, Content;
  }

  lemma QuitOn(cfg: Config, s: Sys, c: Cid, k: nat)
    requires s.down && c in s.clients && IsSession(s.clients[c], k) && s.clients[c].sessions[k].runner == Ready
    ensures var e := ClientAct(c, Quit(k));
            && Can(cfg, s, e) && c in Do(cfg, s, e).clients && IsSession(Do(cfg, s, e).clients[c], k)
            && Do(cfg, s, e).clients[c].sessions[k].runner == Draining
  {
    QuitGoes(cfg, s.clients[c], k, s.heap);
    hide Apply, Enabled;
  }

  lemma WriterStops(cfg: Config, s: Sys, c: Cid)
    requires s.down && c in s.clients && s.clients[c].writer == Selecting
    ensures Can(cfg, s, ClientAct(c, WriterStop))
  {
  }

  /** Once the server shuts down, every runner that waits for packets can end by its own acts, with its queue
      emptied, and every writer that waits can stop; no other goroutine is needed for it. */
  lemma ShutdownEnds(cfg: Config, s: Sys, c: Cid, k: nat) returns (fs: seq<Event>)
    requires s.down && c in s.clients && IsSession(s.clients[c], k) && s.clients[c].sessions[k].runner == Ready
    ensures Possible(cfg, s, fs) && OwnActs(fs, c) && c in Exec(cfg, s, fs).clients
    ensures IsSession(Exec(cfg, s, fs).clients[c], k)
    ensures var x := Exec(cfg, s, fs).clients[c].sessions[k]; x.runner == Ended && x.queue == []
    ensures s.clients[c].writer == Selecting ==> Can(cfg, s, ClientAct(c, WriterStop))
  {
    var e := ClientAct(c, Quit(k));
    QuitOn(cfg, s, c, k);
    if s.clients[c].writer == Selecting { WriterStops(cfg, s, c); }
    hide Do, Can;
    fs := Drains(cfg, Do(cfg, s, e), c, k);
    ExecCons(cfg, s, e, fs);
    fs := [e] + fs;
  }
}
