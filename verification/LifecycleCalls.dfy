/** What the calls on a stream achieve in every reachable state: a client or `Start` brings a
    disconnected stream up, `Stop` and `Destroy` take it down, and the signals release their waiters. */
module LifecycleCalls {
  import opened Lifecycle

  // ---------------------------------------------------------------- single calls

  /** The table seen from where a transition leads. */
  lemma TableByTarget(from: State)
    ensures Allowed(from, Destroyed) <==> from != Destroyed && from != Ready
    ensures Allowed(from, Stopping) <==> Active(from) || from == Stopping
    ensures Allowed(from, Disconnected) <==> from == Stopping || from == Reconnecting
    ensures Allowed(from, Connecting) <==> from == Disconnected || from == Connecting || from == Reconnecting
    ensures Allowed(from, Playing) <==> Active(from)
    ensures Allowed(from, Reconnecting) <==> Active(from)
    ensures !Allowed(from, Ready)
  {
  }

  /** A closed signal stays closed, and new generations only come behind. */
  predicate OnlyCloses(before: seq<nat>, after: seq<nat>) {
    |before| <= |after| && forall i | 0 <= i < |before| :: before[i] <= after[i]
  }

  /** The signals a caller may wait on are those of the current generation. Once closed they stay so. */
  lemma SignalsStayClosed(es: seq<Event>, e: Event)
    requires Possible(INIT, es) && Can(Exec(INIT, es), e)
    ensures OnlyCloses(Exec(INIT, es).life.ready, Do(Exec(INIT, es), e).life.ready)
    ensures OnlyCloses(Exec(INIT, es).life.sdp, Do(Exec(INIT, es), e).life.sdp)
  {
    hide Exec;
    EventCloses(Exec(INIT, es), e);
  }

  lemma EventCloses(s: Sys, e: Event)
    requires Can(s, e)
    ensures OnlyCloses(s.life.ready, Do(s, e).life.ready) && OnlyCloses(s.life.sdp, Do(s, e).life.sdp)
  {
    var l := s.life;
    forall to ensures OnlyCloses(l.ready, SetState(l, to).ready) && OnlyCloses(l.sdp, SetState(l, to).sdp) {
      SetStateCloses(l, to);
    }
    hide SetState, Allowed;
    if e.LoopStep? { StepCloses(s, e.ok); }
    hide Step;
  }

  lemma StepCloses(s: Sys, ok: bool)
    requires Running(s)
    ensures OnlyCloses(s.life.ready, Step(s, ok).life.ready) && OnlyCloses(s.life.sdp, Step(s, ok).life.sdp)
  {
    var l := s.life;
    forall to ensures OnlyCloses(l.ready, SetState(l, to).ready) && OnlyCloses(l.sdp, SetState(l, to).sdp) {
      SetStateCloses(l, to);
    }
    hide SetState, Allowed;
  }

  lemma SetStateCloses(l: Life, to: State)
    ensures OnlyCloses(l.ready, SetState(l, to).ready) && OnlyCloses(l.sdp, SetState(l, to).sdp)
  {
  }

  /** `Destroy` leaves every stream Destroyed, with every waiter released. */
  lemma DestroyDestroys(es: seq<Event>)
    requires Possible(INIT, es)
    ensures var t := Do(Exec(INIT, es), DestroyMark).life;
            && t.state == Destroyed
            && (forall i | 0 <= i < |t.ready| :: t.ready[i] > 0) && (forall i | 0 <= i < |t.sdp| :: t.sdp[i] > 0)
  {
    hide Exec;
    RunInv(INIT, es);
    EventKeepsInv(Exec(INIT, es), DestroyMark);
    TableByTarget(Exec(INIT, es).life.state);
    hide SetState, Allowed;
  }

  /** `Stop` marks a stream that is active or being stopped, and no other; its end leaves Disconnected
      what is still Stopping, or Reconnecting meanwhile, and nothing else changes. */
  lemma StopStops(es: seq<Event>)
    requires Possible(INIT, es)
    ensures var s := Exec(INIT, es);
            var t := Do(s, StopBegin);
            && t.life.ready == s.life.ready && t.life.sdp == s.life.sdp && t.loops == s.loops
            && t.life.state == (if Active(s.life.state) then Stopping else s.life.state)
            && t.stoppers == s.stoppers + (if Active(s.life.state) || s.life.state == Stopping then 1 else 0)
    ensures var s := Exec(INIT, es);
            s.stoppers > 0 ==>
              var t := Do(s, StopEnd);
              && t.life.ready == s.life.ready && t.life.sdp == s.life.sdp && t.loops == s.loops
              && t.stoppers == s.stoppers - 1
              && t.life.state == (if s.life.state == Stopping || s.life.state == Reconnecting then Disconnected
                                  else s.life.state)
  {
    hide Exec;
    TableByTarget(Exec(INIT, es).life.state);
    hide Allowed;
  }

  /** The description is there: whoever waits for it is released, and nothing else happens. */
  lemma SdpReleases(es: seq<Event>)
    requires Possible(INIT, es) && Can(Exec(INIT, es), SdpReady)
    ensures var s := Exec(INIT, es);
            var t := Do(s, SdpReady);
            && (forall i | 0 <= i < |t.life.sdp| :: t.life.sdp[i] > 0) && |t.life.sdp| == |s.life.sdp|
            && t == s.(life := s.life.(sdp := t.life.sdp))
  {
    hide Exec;
    RunInv(INIT, es);
  }

  /** `Start` on a disconnected stream makes it Connecting, with two fresh signals to wait on, and releases
      whoever waited on the old ones. Elsewhere it does nothing. */
  lemma StartConnects(es: seq<Event>)
    requires Possible(INIT, es)
    ensures var s, t := Exec(INIT, es), Do(Exec(INIT, es), Start);
            if s.life.state != Disconnected then t == s
            else
              && t.life.state == Connecting
              && |t.life.ready| == |s.life.ready| + 1 && |t.life.sdp| == |s.life.sdp| + 1
              && IsOpen(t.life.ready) && IsOpen(t.life.sdp)
              && (forall i | 0 <= i < |s.life.ready| :: t.life.ready[i] > 0)
              && (forall i | 0 <= i < |s.life.sdp| :: t.life.sdp[i] > 0)
  {
    hide Exec;
    RunInv(INIT, es);
    if Exec(INIT, es).life.state == Disconnected { ConnectingIsFresh(Exec(INIT, es).life); }
    hide SetState, Generations, LoopsOk;
  }

  lemma ConnectingIsFresh(l: Life)
    requires LifeOk(l) && l.state == Disconnected
    ensures var m := SetState(l, Connecting);
            && m.state == Connecting && |m.ready| == |l.ready| + 1 && |m.sdp| == |l.sdp| + 1
            && IsOpen(m.ready) && IsOpen(m.sdp)
            && (forall i | 0 <= i < |l.ready| :: m.ready[i] > 0) && (forall i | 0 <= i < |l.sdp| :: m.sdp[i] > 0)
  {
  }

  function Joined(es: seq<Event>): int {
    if es == [] then 0
    else
      var n := Joined(es[..|es| - 1]);
      match es[|es| - 1]
      case AddClient => n + 1
      case RemoveClient => n - 1
      case DestroyCancel => 0
      case _ => n
  }

  /** The clients that came and have not left; `Destroy` forgets them all. */
  lemma {:induction false} ClientsCounted(es: seq<Event>)
    requires Possible(INIT, es)
    ensures Exec(INIT, es).clients == Joined(es)
  {
    hide Do, Can;
    if es == [] {
    } else {
      ClientsCounted(es[..|es| - 1]);
      EventCounts(Exec(INIT, es[..|es| - 1]), es[|es| - 1]);
    }
  }

  lemma EventCounts(s: Sys, e: Event)
    requires Can(s, e)
    ensures Do(s, e).clients == match e
                                case AddClient => s.clients + 1
                                case RemoveClient => s.clients - 1
                                case DestroyCancel => 0
                                case _ => s.clients
  {
    hide SetState, CloseCurrent, Allowed;
  }

  // ---------------------------------------------------------------- the loop ends

  /** The steps a loop has left once the context is cancelled, at most. */
  function Left(s: Sys): nat {
    if !Running(s) then 0
    else
      match LoopPc(s)
      case ReadState => 11
      case GoConnecting => 10
      case NewRemote => 9
      case Dialing => 8
      case Handshake => 7
      case GoPlaying => 6
      case Reading => 5
      case AfterRead(_) | CountClients => 4
      case GoReconnecting => 3
      case Top | GiveUp | Backoff => 2
      case Exiting => 1
      case Done => 0
  }

  lemma CancelledLoop(s: Sys, ok: bool)
    requires Running(s)
    ensures Step(s, ok).cancelled == s.cancelled
    ensures s.cancelled ==> Left(Step(s, ok)) < Left(s)
  {
    hide SetState, Allowed;
    var n := |s.loops|;
    var t := Step(s, ok);
    assert |t.loops| == n && t.cancelled == s.cancelled;
    match LoopPc(s)
    case GoReconnecting => assert LoopPc(t) == Backoff;
    case GiveUp => assert LoopPc(t) == Exiting;
    case Exiting => assert LoopPc(t) == Done;
    case GoConnecting => assert LoopPc(t) == NewRemote || LoopPc(t) == Exiting;
    case GoPlaying => assert LoopPc(t) == Reading || LoopPc(t) == Exiting;
    case _ =>
  }

  lemma CancelledStep(s: Sys, e: Event)
    requires Can(s, e)
    ensures s.cancelled || e.DestroyCancel? || e.ServerCancel? ==> Do(s, e).cancelled
    ensures s.cancelled && e.LoopStep? ==> Left(Do(s, e)) < Left(s)
    ensures !e.LoopStep? && !e.Start? && !e.AddClient? ==> Left(Do(s, e)) == Left(s)
  {
    if e.LoopStep? { CancelledLoop(s, e.ok); }
    hide SetState, CloseCurrent, Allowed, Step;
  }

  ghost predicate NoStarts(fs: seq<Event>) { forall i | 0 <= i < |fs| :: !fs[i].Start? && !fs[i].AddClient? }

  function LoopSteps(fs: seq<Event>): nat {
    if fs == [] then 0 else LoopSteps(fs[..|fs| - 1]) + if fs[|fs| - 1].LoopStep? then 1 else 0
  }

  lemma {:induction false} CancelledRun(s: Sys, fs: seq<Event>)
    requires s.cancelled && Possible(s, fs) && NoStarts(fs)
    ensures Exec(s, fs).cancelled && Left(Exec(s, fs)) + LoopSteps(fs) <= Left(s)
    decreases |fs|
  {
    hide Do, Can, Left;
    if fs == [] {
    } else {
      CancelledRun(s, fs[..|fs| - 1]);
      CancelledStep(Exec(s, fs[..|fs| - 1]), fs[|fs| - 1]);
    }
  }

  /** In every run: after the cancellation by `Destroy` or by the server the connect loop ends. Whatever else
      is called meanwhile, short of a new start, it takes at most eleven more steps, and while it has not
      ended it can take the next one. So the wait in `Destroy` ends. */
  lemma CancelledLoopEnds(es: seq<Event>, e: Event, fs: seq<Event>)
    requires Possible(INIT, es) && (e.DestroyCancel? || e.ServerCancel?)
    requires Possible(Do(Exec(INIT, es), e), fs) && NoStarts(fs)
    ensures var t := Exec(Do(Exec(INIT, es), e), fs);
            && t.cancelled && LoopSteps(fs) <= 11
            && (Running(t) ==> Can(t, LoopStep(true)) && Can(t, LoopStep(false)))
            && (LoopSteps(fs) == 11 ==> !Running(t))
  {
    hide Exec, Possible;
    CancelledStep(Exec(INIT, es), e);
    hide Do;
    CancelledRun(Do(Exec(INIT, es), e), fs);
  }

  /** Nothing is left to connect: the last loop is ending or over, and the stream is off or being stopped. */
  predicate Quiescent(s: Sys) { (!Running(s) || LoopPc(s) == Exiting) && !Active(s.life.state) }

  lemma QuiescentStep(s: Sys, e: Event)
    requires Quiescent(s) && Can(s, e) && !e.Start? && !e.AddClient?
    ensures Quiescent(Do(s, e))
  {
    hide SetState, CloseCurrent;
  }

  lemma {:induction false} QuiescentStays(s: Sys, fs: seq<Event>)
    requires Quiescent(s) && Possible(s, fs) && NoStarts(fs)
    ensures Quiescent(Exec(s, fs))
    decreases |fs|
  {
    hide Do, Can, Quiescent;
    if fs == [] {
    } else {
      QuiescentStays(s, fs[..|fs| - 1]);
      QuiescentStep(Exec(s, fs[..|fs| - 1]), fs[|fs| - 1]);
    }
  }

  /** In every run: a loop that looks at the state of a stream being stopped or destroyed ends, and whatever
      follows, short of a new start, the stream does not connect again. */
  lemma StoppedLoopLeaves(es: seq<Event>, ok: bool, fs: seq<Event>)
    requires Possible(INIT, es) && Running(Exec(INIT, es)) && LoopPc(Exec(INIT, es)) == ReadState
    requires Exec(INIT, es).life.state == Stopping || Exec(INIT, es).life.state == Destroyed
    requires Possible(Do(Exec(INIT, es), LoopStep(ok)), fs) && NoStarts(fs)
    ensures !Active(Exec(Do(Exec(INIT, es), LoopStep(ok)), fs).life.state)
  {
    hide Exec, Possible;
    assert Quiescent(Do(Exec(INIT, es), LoopStep(ok)));
    hide Do;
    QuiescentStays(Do(Exec(INIT, es), LoopStep(ok)), fs);
  }

  /** A loop that gives up while its stream is being stopped, be it for want of a remote or of clients or
      because the read loop ended, leaves the stream Disconnected. */
  lemma GivingUpDisconnects(s: Sys, ok: bool)
    requires Running(s) && s.life.state == Stopping
    requires LoopPc(s) == NewRemote || LoopPc(s).AfterRead? || (LoopPc(s) == CountClients && s.clients == 0)
    ensures var t := Step(s, false);
            Running(t) && var u := Step(t, ok); u.life.state == Disconnected && u.loops != [] && LoopPc(u) == Exiting
  {
    hide CloseCurrent;
  }

  // ---------------------------------------------------------------- coming up

  ghost predicate LoopOnly(fs: seq<Event>) { forall i | 0 <= i < |fs| :: fs[i].LoopStep? }

  /** The connect loop alone may bring the stream to Playing. */
  ghost predicate MayPlay(s: Sys) {
    exists fs: seq<Event> :: Possible(s, fs) && LoopOnly(fs) && Exec(s, fs).life.state == Playing
  }

  /** The loop is on its way out, or bound to be: it gives up, or its attempt was overtaken by a stop. */
  predicate Leaving(s: Sys) {
    || !Running(s)
    || LoopPc(s) == GiveUp || LoopPc(s) == Exiting || LoopPc(s) == AfterRead(false)
    || (LoopPc(s) == GoPlaying && s.life.state == Disconnected)
    || (LoopPc(s) == CountClients && s.clients == 0)
  }

  predicate Resting(st: State) { st == Disconnected || st == Connecting }

  lemma LeavingStep(s: Sys, e: Event)
    requires Leaving(s) && Resting(s.life.state) && Can(s, e) && e.LoopStep?
    ensures Leaving(Do(s, e)) && Resting(Do(s, e).life.state)
  {
    hide SetState;
  }

  lemma {:induction false} LeavingStays(s: Sys, fs: seq<Event>)
    requires Leaving(s) && Resting(s.life.state) && Possible(s, fs) && LoopOnly(fs)
    ensures Leaving(Exec(s, fs)) && Resting(Exec(s, fs).life.state)
    decreases |fs|
  {
    hide Do, Can, Leaving;
    if fs == [] {
    } else {
      LeavingStays(s, fs[..|fs| - 1]);
      LeavingStep(Exec(s, fs[..|fs| - 1]), fs[|fs| - 1]);
    }
  }

  /** How far the loop is from Playing. An attempt in a stream that was stopped meanwhile has to fail
      first. */
  function Remaining(s: Sys): nat
    requires Running(s)
  {
    var late := if s.life.state == Connecting then 0 else 10;
    match LoopPc(s)
    case Reading => 12
    case AfterRead(_) => 11
    case CountClients => 10
    case GoReconnecting => 9
    case Backoff => 8
    case Top => 7
    case ReadState => 6
    case GoConnecting => 5
    case NewRemote => 4 + late
    case Dialing => 3 + late
    case Handshake => 2 + late
    case GoPlaying => 1
    case _ => 0
  }

  /** Not cancelled, and a loop that is not leaving. */
  predicate Hopeful(s: Sys) {
    && Running(s) && !s.cancelled && !Leaving(s)
    && (Resting(s.life.state) || (s.life.state == Reconnecting && !Midway(LoopPc(s))))
    && (s.life.state == Connecting || s.clients > 0 || !(Midway(LoopPc(s)) || LoopPc(s) == CountClients))
  }

  /** The outcome that leads on. */
  function Lucky(s: Sys): bool
    requires Running(s)
  {
    LoopPc(s) != Reading && (s.life.state == Disconnected && LoopPc(s) != NewRemote ==> !Midway(LoopPc(s)))
  }

  lemma HopefulStep(s: Sys)
    requires Hopeful(s)
    ensures Can(s, LoopStep(Lucky(s)))
    ensures var t := Do(s, LoopStep(Lucky(s))); t.life.state == Playing || (Hopeful(t) && Remaining(t) < Remaining(s))
  {
    TableByTarget(s.life.state);
    hide SetState, Allowed;
  }

  lemma {:induction false} ComesUp(s: Sys) returns (fs: seq<Event>)
    requires Hopeful(s)
    ensures Possible(s, fs) && LoopOnly(fs) && Exec(s, fs).life.state == Playing
    decreases Remaining(s)
  {
    HopefulStep(s);
    hide Do, Can, Hopeful, Remaining, Lucky;
    var e := LoopStep(Lucky(s));
    var t := Do(s, e);
    fs := [];
    if t.life.state == Playing {
      assert Possible(t, []) && Exec(t, []) == t;
    } else {
      fs := ComesUp(t);
    }
    ExecCons(s, e, fs);
    fs := [e] + fs;
  }

  /** The call comes too late for the loop that still runs: it is leaving, it is about to be refused
      Playing, or it has counted no client. */
  predicate TooLate(s: Sys, e: Event) {
    Running(s) &&
    (|| LoopPc(s) == GiveUp || LoopPc(s) == Exiting || LoopPc(s) == AfterRead(false)
     || (e.AddClient? && LoopPc(s) == GoPlaying)
     || (e.Start? && LoopPc(s) == CountClients && s.clients == 0))
  }

  /** In every run that ends in Disconnected: a client or `Start` leaves a running connect loop behind.
      If the context is not cancelled, that loop alone can bring the stream to Playing, unless there was
      a loop already and it is too late for it: exactly then it cannot. */
  lemma BroughtUpIff(es: seq<Event>, e: Event)
    requires Possible(INIT, es) && Exec(INIT, es).life.state == Disconnected && (e.AddClient? || e.Start?)
    ensures Running(Do(Exec(INIT, es), e))
    ensures !Running(Exec(INIT, es)) ==> LoopPc(Do(Exec(INIT, es), e)) == Top
    ensures !Exec(INIT, es).cancelled ==> (MayPlay(Do(Exec(INIT, es), e)) <==> !TooLate(Exec(INIT, es), e))
  {
    hide Exec, Possible;
    var s := Exec(INIT, es);
    RunInv(INIT, es) by { hide Can, Do; assert Inv(INIT) by { InitInv(); } }
    CallLeads(s, e);
    if !s.cancelled {
      hide Do, Hopeful, Leaving, TooLate;
      var t := Do(s, e);
      if TooLate(s, e) {
        forall fs: seq<Event> | Possible(t, fs) && LoopOnly(fs) ensures Exec(t, fs).life.state != Playing {
          LeavingStays(t, fs);
        }
      } else {
        var fs := ComesUp(t);
      }
    }
  }

  lemma CallLeads(s: Sys, e: Event)
    requires Inv(s) && s.life.state == Disconnected && (e.AddClient? || e.Start?)
    ensures var t := Do(s, e);
            && Running(t) && (!Running(s) ==> LoopPc(t) == Top) && Resting(t.life.state)
            && (TooLate(s, e) ==> Leaving(t)) && (!TooLate(s, e) && !s.cancelled ==> Hopeful(t))
  {
    hide SetState, Generations;
  }

  // ---------------------------------------------------------------- too late

  lemma StoppedGoes(p: Sys)
    requires p.life.state == Playing && p.loopStarted
    ensures var q := p.(life := p.life.(state := Stopping), stoppers := p.stoppers + 1);
            var d := q.(life := q.life.(state := Disconnected));
            && Goes(LoopAt(p, Reading), StopBegin, LoopAt(q, Reading))
            && Goes(LoopAt(q, Reading), LoopStep(false), LoopAt(q, AfterRead(true)))
            && Goes(LoopAt(q, AfterRead(true)), LoopStep(true), LoopAt(q, GiveUp))
            && Goes(LoopAt(q, GiveUp), LoopStep(true), LoopAt(d, Exiting))
  {
  }

  /** A playing stream is stopped, its loop sees that and has all but ended when a client comes: the loop
      counts as started, nobody starts another, and the client is left without a stream. */
  lemma ClientComesTooLate() returns (es: seq<Event>)
    ensures Possible(INIT, es) && Exec(INIT, es).life.state == Disconnected && !Exec(INIT, es).cancelled
    ensures !MayPlay(Do(Exec(INIT, es), AddClient))
  {
    hide Goes, Exec, Possible, MayPlay;
    var p: Sys;
    es, p := ReachReading();
    StoppedGoes(p);
    var q := p.(life := p.life.(state := Stopping), stoppers := p.stoppers + 1);
    var d := q.(life := q.life.(state := Disconnected));
    ExecOn(INIT, es, LoopAt(p, Reading), StopBegin, LoopAt(q, Reading)); es := es + [StopBegin];
    ExecOn(INIT, es, LoopAt(q, Reading), LoopStep(false), LoopAt(q, AfterRead(true))); es := es + [LoopStep(false)];
    ExecOn(INIT, es, LoopAt(q, AfterRead(true)), LoopStep(true), LoopAt(q, GiveUp)); es := es + [LoopStep(true)];
    ExecOn(INIT, es, LoopAt(q, GiveUp), LoopStep(true), LoopAt(d, Exiting)); es := es + [LoopStep(true)];
    BroughtUpIff(es, AddClient);
  }
}
