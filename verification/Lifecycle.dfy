/** The stream's state machine with its ready channels, and the connect loop with the calls that
    interleave with it. Each lock region is one step; the loop has an explicit program counter. */
module Lifecycle {

  datatype State = Disconnected | Connecting | Ready | Playing | Reconnecting | Stopping | Destroyed

  /** `ready` and `sdp` count the closes of every generation of the two signal channels; the last
      entry is the current channel, open while its count is zero. */
  datatype Life = Life(state: State, ready: seq<nat>, sdp: seq<nat>)

  const NEW_LIFE: Life := Life(Disconnected, [0], [0])

  /** The guarded close: a channel that is closed already is left alone. */
  function CloseCurrent(gens: seq<nat>): (r: seq<nat>)
    ensures |r| == |gens|
  {
    if gens == [] || gens[|gens| - 1] > 0 then gens else gens[|gens| - 1 := 1]
  }

  /** The table of `transition`. */
  predicate Allowed(from: State, to: State) {
    match from
    case Disconnected => to == Connecting || to == Destroyed
    case Connecting => to == Playing || to == Reconnecting || to == Stopping || to == Destroyed || to == Connecting
    case Playing => to == Reconnecting || to == Stopping || to == Destroyed || to == Playing
    case Reconnecting =>
      to == Playing || to == Disconnected || to == Stopping || to == Destroyed || to == Connecting || to == Reconnecting
    case Stopping => to == Disconnected || to == Destroyed || to == Stopping
    case Ready => false
    case Destroyed => false
  }

  function Renewed(l: Life, to: State): Life {
    if (l.state == Disconnected || l.state == Reconnecting) && to == Connecting
    then l.(ready := CloseCurrent(l.ready) + [0], sdp := CloseCurrent(l.sdp) + [0])
    else l
  }

  function SetState(l: Life, to: State): (r: Life)
    ensures r.state == if l.state == Destroyed then Destroyed else to
  {
    if l.state == Destroyed || l.state == to then l
    else
      var a := Renewed(l, to);
      var b := if to == Playing then a.(ready := CloseCurrent(a.ready)) else a;
      var c := b.(state := to);
      if to == Destroyed then c.(ready := CloseCurrent(c.ready), sdp := CloseCurrent(c.sdp)) else c
  }

  /** `transition`: an invalid move is an error and changes nothing. */
  function Try(l: Life, to: State): Life { if Allowed(l.state, to) then SetState(l, to) else l }

  // ---------------------------------------------------------------- the object

  class Stream {
    var state: State
    var ready: seq<nat>
    var sdp: seq<nat>

    function Value(): Life
      reads this
    {
      Life(state, ready, sdp)
    }

    ghost predicate Valid()
      reads this
    {
      LifeOk(Value())
    }

    constructor ()
      ensures Valid() && Value() == NEW_LIFE
    {
      state, ready, sdp := Disconnected, [0], [0];
    }

    /** Connecting may be entered from Disconnected, Connecting and Reconnecting only, and Ready never:
        the callers see to it. */
    method UnsafeSetState(to: State)
      requires Valid() && to != Ready && (to == Connecting ==> Allowed(state, Connecting) || state == Disconnected)
      modifies this
      ensures Valid() && Value() == SetState(old(Value()), to)
    {
      SetStateKeepsLife(Value(), to);
      if state == Destroyed {
        return;
      }
      if state == to {
        return;
      }
      if (state == Disconnected || state == Reconnecting) && to == Connecting {
        ready := CloseCurrent(ready);
        sdp := CloseCurrent(sdp);
        ready := ready + [0];
        sdp := sdp + [0];
      }
      if to == Playing {
        ready := CloseCurrent(ready);
      }
      state := to;
      if to == Destroyed {
        ready := CloseCurrent(ready);
        sdp := CloseCurrent(sdp);
      }
    }

    method Transition(to: State) returns (ok: bool)
      requires Valid()
      modifies this
      ensures Valid() && ok == Allowed(old(state), to) && Value() == Try(old(Value()), to)
    {
      if state == Destroyed {
        return false;
      }
      var valid := false;
      match state {
        case Disconnected => valid := to == Connecting || to == Destroyed;
        case Connecting =>
          valid := to == Playing || to == Reconnecting || to == Stopping || to == Destroyed || to == Connecting;
        case Playing => valid := to == Reconnecting || to == Stopping || to == Destroyed || to == Playing;
        case Reconnecting =>
          valid := to == Playing || to == Disconnected || to == Stopping || to == Destroyed
                   || to == Connecting || to == Reconnecting;
        case Stopping => valid := to == Disconnected || to == Destroyed || to == Stopping;
        case Ready =>
        case Destroyed =>
      }
      if !valid {
        return false;
      }
      UnsafeSetState(to);
      return true;
    }
  }

  // ---------------------------------------------------------------- the interleavings

  /** Where the connect loop stands. `AfterRead` knows whether the read loop ended with an error. */
  datatype Pc =
    | Top | ReadState | GoConnecting | NewRemote | Dialing | Handshake | GoPlaying
    | Reading | AfterRead(failed: bool) | CountClients | GoReconnecting | GiveUp | Backoff
    | Exiting | Done

  /** `loops` holds every connect loop ever started; `stoppers` counts the calls of `Stop` between
      their two transitions. */
  datatype Sys = Sys(
    life: Life, loopStarted: bool, loops: seq<Pc>, clients: nat, cancelled: bool, stoppers: nat)

  const INIT: Sys := Sys(NEW_LIFE, false, [], 0, false, 0)

  /** `ok` is the outcome of the step where it can go either way. */
  datatype Event =
    | Start | AddClient | RemoveClient
    | StopBegin | StopEnd
    | DestroyMark | DestroyCancel | ServerCancel
    | SdpReady
    | LoopStep(ok: bool)

  function StartLoop(s: Sys): Sys {
    if s.loopStarted then s else s.(loopStarted := true, loops := s.loops + [Top])
  }

  predicate Running(s: Sys) { s.loops != [] && s.loops[|s.loops| - 1] != Done }

  function LoopPc(s: Sys): Pc
    requires s.loops != []
  {
    s.loops[|s.loops| - 1]
  }

  function AtPc(s: Sys, pc: Pc): Sys
    requires s.loops != []
  {
    s.(loops := s.loops[|s.loops| - 1 := pc])
  }

  predicate Halted(st: State) { st == Stopping || st == Destroyed }

  predicate Can(s: Sys, e: Event) {
    match e
    case RemoveClient => s.clients > 0
    case StopEnd => s.stoppers > 0
    case SdpReady => Running(s) && LoopPc(s) == Handshake
    case LoopStep(ok) => Running(s) && (LoopPc(s) == Reading && ok ==> s.cancelled)
    case _ => true
  }

  /** One step of the connect loop. Refused transitions to Reconnecting and Disconnected go unnoticed,
      those to Connecting and Playing end the loop. The read loop ends without an error only when the
      context is cancelled. */
  function Step(s: Sys, ok: bool): Sys
    requires Running(s)
  {
    var st := s.life.state;
    match LoopPc(s)
    case Top => AtPc(s, if s.cancelled then Exiting else ReadState)
    case ReadState => AtPc(s, if Halted(st) then Exiting else GoConnecting)
    case GoConnecting =>
      if Allowed(st, Connecting) then AtPc(s.(life := SetState(s.life, Connecting)), NewRemote) else AtPc(s, Exiting)
    case NewRemote => AtPc(s, if ok then Dialing else GiveUp)
    case Dialing => AtPc(s, if ok then Handshake else CountClients)
    case Handshake => AtPc(s, if ok then GoPlaying else CountClients)
    case GoPlaying =>
      if Allowed(st, Playing) then AtPc(s.(life := SetState(s.life, Playing)), Reading) else AtPc(s, Exiting)
    case Reading => AtPc(s, AfterRead(!ok))
    case AfterRead(failed) => AtPc(s, if Halted(st) || !failed then GiveUp else GoReconnecting)
    case CountClients => AtPc(s, if s.clients == 0 then GiveUp else GoReconnecting)
    case GoReconnecting => AtPc(s.(life := Try(s.life, Reconnecting)), Backoff)
    case GiveUp => AtPc(s.(life := Try(s.life, Disconnected)), Exiting)
    case Backoff => AtPc(s, if s.cancelled then Exiting else Top)
    case Exiting => AtPc(s, Done).(loopStarted := false)
    case Done => s
  }

  function Do(s: Sys, e: Event): Sys
    requires Can(s, e)
  {
    match e
    case Start => if s.life.state != Disconnected then s else StartLoop(s.(life := SetState(s.life, Connecting)))
    case AddClient =>
      var t := s.(clients := s.clients + 1);
      if s.life.state == Disconnected then StartLoop(t) else t
    case RemoveClient => s.(clients := s.clients - 1)
    case StopBegin =>
      if Allowed(s.life.state, Stopping) then s.(life := SetState(s.life, Stopping), stoppers := s.stoppers + 1) else s
    case StopEnd => s.(life := Try(s.life, Disconnected), stoppers := s.stoppers - 1)
    case DestroyMark => s.(life := Try(s.life, Destroyed))
    case DestroyCancel => s.(cancelled := true, clients := 0)
    case ServerCancel => s.(cancelled := true)
    case SdpReady => s.(life := s.life.(sdp := CloseCurrent(s.life.sdp)))
    case LoopStep(ok) => Step(s, ok)
  }

  predicate Possible(s: Sys, es: seq<Event>)
    decreases |es|, 0
  {
    es == [] || (Possible(s, es[..|es| - 1]) && Can(Exec(s, es[..|es| - 1]), es[|es| - 1]))
  }

  function Exec(s: Sys, es: seq<Event>): Sys
    requires Possible(s, es)
    decreases |es|, 1
  {
    if es == [] then s else Do(Exec(s, es[..|es| - 1]), es[|es| - 1])
  }

  // ---------------------------------------------------------------- the invariant

  /** Every generation is closed at most once, and every superseded one is closed. */
  predicate Generations(gens: seq<nat>) {
    && gens != []
    && (forall i | 0 <= i < |gens| - 1 :: gens[i] == 1)
    && gens[|gens| - 1] <= 1
  }

  predicate IsOpen(gens: seq<nat>) { gens != [] && gens[|gens| - 1] == 0 }

  predicate LifeOk(l: Life) {
    && l.state != Ready
    && Generations(l.ready) && Generations(l.sdp) && |l.ready| == |l.sdp|
    && (l.state == Connecting ==> IsOpen(l.ready))
    && (l.state == Playing ==> !IsOpen(l.ready))
    && (l.state == Destroyed ==> !IsOpen(l.ready) && !IsOpen(l.sdp))
  }

  /** Between the transition to Connecting and the one to Playing. */
  predicate Midway(pc: Pc) { pc == NewRemote || pc == Dialing || pc == Handshake || pc == GoPlaying }

  /** Between the transition to Playing and the next one. */
  predicate AfterPlaying(pc: Pc) {
    pc == Reading || pc.AfterRead? || pc == GoReconnecting || pc == GiveUp || pc == Exiting
  }

  predicate LoopsOk(s: Sys) {
    && (forall i | 0 <= i < |s.loops| - 1 :: s.loops[i] == Done)
    && s.loopStarted == Running(s)
    && (Running(s) && Midway(LoopPc(s)) ==> s.life.state != Reconnecting && s.life.state != Playing)
    && (Running(s) && s.life.state == Playing ==> AfterPlaying(LoopPc(s)))
    && (s.life.state == Stopping ==> s.stoppers > 0)
  }

  predicate Inv(s: Sys) { LifeOk(s.life) && LoopsOk(s) }

  lemma SetStateKeepsLife(l: Life, to: State)
    requires LifeOk(l) && to != Ready
    requires to == Connecting ==> Allowed(l.state, Connecting) || l.state == Disconnected
    ensures LifeOk(SetState(l, to))
  {
  }

  lemma StepKeepsLoops(s: Sys, ok: bool)
    requires Inv(s) && Running(s)
    ensures LoopsOk(Step(s, ok))
  {
    hide SetState, Generations;
  }

  lemma CallKeepsLoops(s: Sys, e: Event)
    requires Inv(s) && Can(s, e) && !e.LoopStep?
    ensures LoopsOk(Do(s, e))
  {
    hide SetState, Generations, Step, CloseCurrent;
  }

  lemma SdpKeepsLife(l: Life)
    requires LifeOk(l)
    ensures LifeOk(l.(sdp := CloseCurrent(l.sdp)))
  {
  }

  lemma AllowedKeepsLife(l: Life, to: State)
    requires LifeOk(l) && Allowed(l.state, to)
    ensures LifeOk(SetState(l, to))
  {
    SetStateKeepsLife(l, to);
  }

  lemma StepKeepsLife(s: Sys, ok: bool)
    requires LifeOk(s.life) && Running(s)
    ensures LifeOk(Step(s, ok).life)
  {
    hide SetState, LifeOk;
    forall to | Allowed(s.life.state, to) ensures LifeOk(SetState(s.life, to)) { AllowedKeepsLife(s.life, to); }
  }

  lemma EventKeepsLife(s: Sys, e: Event)
    requires Inv(s) && Can(s, e)
    ensures LifeOk(Do(s, e).life)
  {
    hide SetState, Step, LifeOk, LoopsOk;
    match e
    case LoopStep(ok) => StepKeepsLife(s, ok);
    case Start => if s.life.state == Disconnected { AllowedKeepsLife(s.life, Connecting); }
    case SdpReady => SdpKeepsLife(s.life);
    case _ =>
      forall to | Allowed(s.life.state, to) ensures LifeOk(SetState(s.life, to)) { AllowedKeepsLife(s.life, to); }
  }

  lemma EventKeepsInv(s: Sys, e: Event)
    requires Inv(s) && Can(s, e)
    ensures Inv(Do(s, e))
  {
    hide LifeOk, LoopsOk, Step;
    EventKeepsLife(s, e);
    if e.LoopStep? {
      StepKeepsLoops(s, e.ok);
    } else {
      CallKeepsLoops(s, e);
    }
  }

  lemma {:induction false} RunInv(s: Sys, es: seq<Event>)
    requires Inv(s) && Possible(s, es)
    ensures Inv(Exec(s, es))
    decreases |es|
  {
    hide Inv, Do, Can;
    if es == [] {
    } else {
      RunInv(s, es[..|es| - 1]);
      EventKeepsInv(Exec(s, es[..|es| - 1]), es[|es| - 1]);
    }
  }

  // ---------------------------------------------------------------- over every run

  /** In every reachable state at most one connect loop runs; Ready is never entered; the ready
      signal is open in Connecting and closed in Playing, both signals are closed in Destroyed; each
      generation of either channel was closed at most once, and every superseded one is closed, so
      no waiter is left on a channel that nobody will close. */
  lemma LifecycleSafety(es: seq<Event>)
    requires Possible(INIT, es)
    ensures var s := Exec(INIT, es);
            && (forall i, j | 0 <= i < j < |s.loops| :: s.loops[i] == Done || s.loops[j] == Done)
            && s.life.state != Ready
            && (s.life.state == Connecting ==> IsOpen(s.life.ready))
            && (s.life.state == Playing ==> !IsOpen(s.life.ready))
            && (s.life.state == Destroyed ==> !IsOpen(s.life.ready) && !IsOpen(s.life.sdp))
            && Generations(s.life.ready) && Generations(s.life.sdp)
  {
    hide Exec;
    RunInv(INIT, es);
  }

  /** In every step of every run Destroyed is never left, and Playing is entered only from
      Connecting although the table also allows it from Reconnecting. */
  lemma StateChanges(es: seq<Event>, e: Event)
    requires Possible(INIT, es) && Can(Exec(INIT, es), e)
    ensures var before, after := Exec(INIT, es).life.state, Do(Exec(INIT, es), e).life.state;
            && (before == Destroyed ==> after == Destroyed)
            && (after == Playing && before != Playing ==> before == Connecting)
            && (after == Reconnecting && before != Reconnecting ==> before == Connecting || before == Playing)
  {
    hide Exec;
    RunInv(INIT, es);
    assert Allowed(Reconnecting, Playing);
  }

  // ---------------------------------------------------------------- what does not hold

  predicate Off(st: State) { st == Disconnected || st == Destroyed }

  /** The states of a stream that is, or is on its way to being, connected. */
  predicate Active(st: State) { st == Connecting || st == Playing || st == Reconnecting }

  /** "An active state has a connect loop behind it." */
  predicate Backed(s: Sys) { Active(s.life.state) ==> Running(s) }

  predicate Goes(s: Sys, e: Event, t: Sys) { Can(s, e) && Do(s, e) == t }

  lemma ExecOn(s: Sys, es: seq<Event>, u: Sys, e: Event, t: Sys)
    requires Possible(s, es) && Exec(s, es) == u && Goes(u, e, t)
    ensures Possible(s, es + [e]) && Exec(s, es + [e]) == t
  {
    hide Can, Do;
    assert (es + [e])[..|es|] == es;
  }

  function LoopAt(s: Sys, pc: Pc): Sys { s.(loops := [pc]) }

  /** The loop's way from its top to the handshake, in a stream that is and stays Connecting. */
  lemma LoopGoes(s: Sys)
    requires s.life.state == Connecting && !s.cancelled
    ensures Goes(LoopAt(s, Top), LoopStep(true), LoopAt(s, ReadState))
    ensures Goes(LoopAt(s, ReadState), LoopStep(true), LoopAt(s, GoConnecting))
    ensures Goes(LoopAt(s, GoConnecting), LoopStep(true), LoopAt(s, NewRemote))
    ensures Goes(LoopAt(s, NewRemote), LoopStep(true), LoopAt(s, Dialing))
  {
  }

  lemma ReachDialing() returns (es: seq<Event>, s: Sys)
    ensures Possible(INIT, es) && Exec(INIT, es) == LoopAt(s, Dialing)
    ensures s.life == SetState(NEW_LIFE, Connecting) && s.loopStarted && !s.cancelled
            && s.clients == 0 && s.stoppers == 0
  {
    hide Goes, Exec, Possible, SetState;
    s := INIT.(life := SetState(NEW_LIFE, Connecting), loopStarted := true, loops := [Top]);
    StartGoes();
    LoopGoes(s);
    assert LoopAt(s, Top) == s;
    es := [];
    ExecNone();
    ExecOn(INIT, es, INIT, Start, s); es := es + [Start];
    ExecOn(INIT, es, LoopAt(s, Top), LoopStep(true), LoopAt(s, ReadState)); es := es + [LoopStep(true)];
    ExecOn(INIT, es, LoopAt(s, ReadState), LoopStep(true), LoopAt(s, GoConnecting)); es := es + [LoopStep(true)];
    ExecOn(INIT, es, LoopAt(s, GoConnecting), LoopStep(true), LoopAt(s, NewRemote)); es := es + [LoopStep(true)];
    ExecOn(INIT, es, LoopAt(s, NewRemote), LoopStep(true), LoopAt(s, Dialing)); es := es + [LoopStep(true)];
  }

  lemma ExecNone()
    ensures Possible(INIT, []) && Exec(INIT, []) == INIT
  {
  }

  lemma StartGoes()
    ensures Goes(INIT, Start, INIT.(life := SetState(NEW_LIFE, Connecting), loopStarted := true, loops := [Top]))
  {
  }

  lemma GivingUpGoes(s: Sys)
    requires s.life.state == Connecting && s.clients == 0
    ensures Goes(LoopAt(s, Dialing), LoopStep(false), LoopAt(s, CountClients))
    ensures Goes(LoopAt(s, CountClients), LoopStep(true), LoopAt(s, GiveUp))
    ensures Goes(LoopAt(s, GiveUp), LoopStep(true), LoopAt(s, Exiting))
    ensures Goes(LoopAt(s, Exiting), LoopStep(true), LoopAt(s, Done).(loopStarted := false))
  {
  }

  /** It fails when the first dial fails before any client is there: the transition from Connecting to
      Disconnected is invalid and its error is ignored. */
  lemma ConnectingAbandoned() returns (es: seq<Event>)
    ensures Possible(INIT, es) && !Backed(Exec(INIT, es)) && Exec(INIT, es).life.state == Connecting
  {
    hide Goes, Exec, Possible, SetState;
    var s: Sys;
    es, s := ReachDialing();
    GivingUpGoes(s);
    ExecOn(INIT, es, LoopAt(s, Dialing), LoopStep(false), LoopAt(s, CountClients)); es := es + [LoopStep(false)];
    ExecOn(INIT, es, LoopAt(s, CountClients), LoopStep(true), LoopAt(s, GiveUp)); es := es + [LoopStep(true)];
    ExecOn(INIT, es, LoopAt(s, GiveUp), LoopStep(true), LoopAt(s, Exiting)); es := es + [LoopStep(true)];
    ExecOn(INIT, es, LoopAt(s, Exiting), LoopStep(true), LoopAt(s, Done).(loopStarted := false));
    es := es + [LoopStep(true)];
  }

  lemma ReachReading() returns (es: seq<Event>, p: Sys)
    ensures Possible(INIT, es) && Exec(INIT, es) == LoopAt(p, Reading)
    ensures p.life.state == Playing && p.loopStarted && !p.cancelled && p.stoppers == 0
  {
    hide Goes, Exec, Possible, SetState;
    var s: Sys;
    es, s := ReachDialing();
    PlayingGoes(s);
    p := s.(life := SetState(s.life, Playing));
    ExecOn(INIT, es, LoopAt(s, Dialing), LoopStep(true), LoopAt(s, Handshake)); es := es + [LoopStep(true)];
    ExecOn(INIT, es, LoopAt(s, Handshake), LoopStep(true), LoopAt(s, GoPlaying)); es := es + [LoopStep(true)];
    ExecOn(INIT, es, LoopAt(s, GoPlaying), LoopStep(true), LoopAt(p, Reading)); es := es + [LoopStep(true)];
  }

  lemma CleanEndGoes(p: Sys)
    requires p.life.state == Playing
    ensures var c := p.(cancelled := true);
            && Goes(LoopAt(p, Reading), ServerCancel, LoopAt(c, Reading))
            && Goes(LoopAt(c, Reading), LoopStep(true), LoopAt(c, AfterRead(false)))
            && Goes(LoopAt(c, AfterRead(false)), LoopStep(true), LoopAt(c, GiveUp))
            && Goes(LoopAt(c, GiveUp), LoopStep(true), LoopAt(c, Exiting))
            && Goes(LoopAt(c, Exiting), LoopStep(true), LoopAt(c, Done).(loopStarted := false))
  {
  }

  /** And when the server shuts down under a playing stream: the read loop ends cleanly, and the
      transition from Playing to Disconnected is invalid too. */
  lemma PlayingAbandoned() returns (es: seq<Event>)
    ensures Possible(INIT, es) && !Backed(Exec(INIT, es)) && Exec(INIT, es).life.state == Playing
  {
    hide Goes, Exec, Possible, SetState;
    var p: Sys;
    es, p := ReachReading();
    CleanEndGoes(p);
    var c := p.(cancelled := true);
    ExecOn(INIT, es, LoopAt(p, Reading), ServerCancel, LoopAt(c, Reading)); es := es + [ServerCancel];
    ExecOn(INIT, es, LoopAt(c, Reading), LoopStep(true), LoopAt(c, AfterRead(false))); es := es + [LoopStep(true)];
    ExecOn(INIT, es, LoopAt(c, AfterRead(false)), LoopStep(true), LoopAt(c, GiveUp)); es := es + [LoopStep(true)];
    ExecOn(INIT, es, LoopAt(c, GiveUp), LoopStep(true), LoopAt(c, Exiting)); es := es + [LoopStep(true)];
    ExecOn(INIT, es, LoopAt(c, Exiting), LoopStep(true), LoopAt(c, Done).(loopStarted := false));
    es := es + [LoopStep(true)];
  }

  lemma CutOffGoes(p: Sys)
    requires p.life.state == Playing && !p.cancelled
    ensures var r := p.(life := SetState(p.life, Reconnecting));
            var c := r.(cancelled := true);
            && Goes(LoopAt(p, Reading), LoopStep(false), LoopAt(p, AfterRead(true)))
            && Goes(LoopAt(p, AfterRead(true)), LoopStep(true), LoopAt(p, GoReconnecting))
            && Goes(LoopAt(p, GoReconnecting), LoopStep(true), LoopAt(r, Backoff))
            && Goes(LoopAt(r, Backoff), ServerCancel, LoopAt(c, Backoff))
            && Goes(LoopAt(c, Backoff), LoopStep(true), LoopAt(c, Exiting))
            && Goes(LoopAt(c, Exiting), LoopStep(true), LoopAt(c, Done).(loopStarted := false))
  {
    hide SetState;
  }

  /** And when it does so while the loop waits to reconnect. */
  lemma ReconnectingAbandoned() returns (es: seq<Event>)
    ensures Possible(INIT, es) && !Backed(Exec(INIT, es)) && Exec(INIT, es).life.state == Reconnecting
  {
    hide Goes, Exec, Possible, SetState;
    var p: Sys;
    es, p := ReachReading();
    CutOffGoes(p);
    var r := p.(life := SetState(p.life, Reconnecting));
    var c := r.(cancelled := true);
    ExecOn(INIT, es, LoopAt(p, Reading), LoopStep(false), LoopAt(p, AfterRead(true))); es := es + [LoopStep(false)];
    ExecOn(INIT, es, LoopAt(p, AfterRead(true)), LoopStep(true), LoopAt(p, GoReconnecting));
    es := es + [LoopStep(true)];
    ExecOn(INIT, es, LoopAt(p, GoReconnecting), LoopStep(true), LoopAt(r, Backoff)); es := es + [LoopStep(true)];
    ExecOn(INIT, es, LoopAt(r, Backoff), ServerCancel, LoopAt(c, Backoff)); es := es + [ServerCancel];
    ExecOn(INIT, es, LoopAt(c, Backoff), LoopStep(true), LoopAt(c, Exiting)); es := es + [LoopStep(true)];
    ExecOn(INIT, es, LoopAt(c, Exiting), LoopStep(true), LoopAt(c, Done).(loopStarted := false));
    es := es + [LoopStep(true)];
  }

  /** There is no other way: in any run the promise stops holding exactly when the loop takes its last
      step in an active state, and it holds again exactly when `Stop` begins, when `Destroy` marks the
      stream, or when an older `Stop` ends in Reconnecting. In particular neither `Start` nor a new
      client brings an abandoned stream back. */
  lemma AbandonedIff(es: seq<Event>, e: Event)
    requires Possible(INIT, es) && Can(Exec(INIT, es), e)
    ensures var s := Exec(INIT, es);
            if Backed(s) then
              Backed(Do(s, e)) <==> !(e.LoopStep? && LoopPc(s) == Exiting && Active(s.life.state))
            else
              Backed(Do(s, e)) <==> e.StopBegin? || e.DestroyMark? || (e.StopEnd? && s.life.state == Reconnecting)
  {
    hide Exec, Possible;
    RunInv(INIT, es) by { hide Can, Do; assert Inv(INIT) by { InitInv(); } }
    if Backed(Exec(INIT, es)) {
      BackedStep(Exec(INIT, es), e);
    } else {
      AbandonedStep(Exec(INIT, es), e);
    }
  }

  lemma InitInv()
    ensures Inv(INIT)
  {
  }

  lemma BackedStep(s: Sys, e: Event)
    requires Inv(s) && Can(s, e) && Backed(s)
    ensures Backed(Do(s, e)) <==> !(e.LoopStep? && LoopPc(s) == Exiting && Active(s.life.state))
  {
    hide SetState, CloseCurrent, Generations;
  }

  lemma AbandonedStep(s: Sys, e: Event)
    requires Inv(s) && Can(s, e) && !Backed(s)
    ensures Backed(Do(s, e)) <==> e.StopBegin? || e.DestroyMark? || (e.StopEnd? && s.life.state == Reconnecting)
  {
    hide SetState, CloseCurrent, Generations, Step;
  }

  // ---------------------------------------------------------------- when the loop stays

  /** What happens while nobody stops or destroys the stream, the server is up, no client leaves, and
      the camera's name resolves; dialling, handshake and reading may fail at any time. */
  predicate Steady(s: Sys, e: Event) {
    match e
    case Start | AddClient | SdpReady | StopEnd => true
    case LoopStep(ok) => Running(s) && LoopPc(s) == NewRemote ==> ok
    case _ => false
  }

  ghost predicate SteadyRun(s: Sys, es: seq<Event>) {
    && Possible(s, es)
    && (es == [] || (SteadyRun(s, es[..|es| - 1]) && Steady(Exec(s, es[..|es| - 1]), es[|es| - 1])))
  }

  /** The stream is abandoned already; or its loop is on its way out, or is bound to be: it is being
      stopped, or it was stopped in the middle of a connection attempt. */
  predicate Doomed(s: Sys) {
    var st := s.life.state;
    && st != Destroyed
    && if !Running(s) then Active(st)
       else
         var pc := LoopPc(s);
         st == Stopping || pc == GiveUp || pc == Exiting || pc == AfterRead(false) || (st == Disconnected && Midway(pc))
  }

  predicate Served(s: Sys) { s.clients > 0 && !s.cancelled }

  lemma SteadyStepSound(s: Sys, ok: bool)
    requires Inv(s) && Served(s) && !Doomed(s) && Can(s, LoopStep(ok)) && Steady(s, LoopStep(ok))
    ensures Served(Step(s, ok)) && !Doomed(Step(s, ok))
  {
    hide SetState, CloseCurrent, Generations;
  }

  lemma SteadySound(s: Sys, e: Event)
    requires Inv(s) && Served(s) && !Doomed(s) && Can(s, e) && Steady(s, e)
    ensures Served(Do(s, e)) && !Doomed(Do(s, e))
  {
    hide SetState, CloseCurrent, Generations, Step;
    if e.LoopStep? { SteadyStepSound(s, e.ok); }
  }

  lemma {:induction false} SteadyRunSound(s: Sys, es: seq<Event>)
    requires Inv(s) && Served(s) && !Doomed(s) && SteadyRun(s, es)
    ensures Inv(Exec(s, es)) && Served(Exec(s, es)) && !Doomed(Exec(s, es))
    decreases |es|
  {
    hide Inv, Served, Doomed, Do, Can, Steady;
    if es == [] {
    } else {
      SteadyRunSound(s, es[..|es| - 1]);
      EventKeepsInv(Exec(s, es[..|es| - 1]), es[|es| - 1]);
      SteadySound(Exec(s, es[..|es| - 1]), es[|es| - 1]);
    }
  }

  /** The event that leads a doomed stream on. */
  function DoomingEvent(s: Sys): Event
    requires Running(s)
  {
    if LoopPc(s) == Exiting && s.life.state == Stopping then StopEnd
    else if LoopPc(s) == Exiting && s.life.state == Disconnected then Start
    else LoopStep(LoopPc(s) != Reading)
  }

  function DoomRank(s: Sys): nat
    requires s.loops != []
  {
    match LoopPc(s)
    case Exiting => if s.life.state == Stopping then 3 else if s.life.state == Disconnected then 2 else 1
    case GoPlaying | GiveUp | GoConnecting => 4
    case Handshake | AfterRead(_) | ReadState => 5
    case Dialing | Reading | Top => 6
    case NewRemote | Backoff => 7
    case GoReconnecting => 8
    case _ => 9
  }

  lemma DoomedGoesOn(s: Sys)
    requires Inv(s) && Served(s) && Doomed(s) && Running(s)
    ensures Can(s, DoomingEvent(s)) && Steady(s, DoomingEvent(s))
    ensures var t := Do(s, DoomingEvent(s));
            Doomed(t) && Served(t) && (Running(t) ==> DoomRank(t) < DoomRank(s))
  {
    hide SetState, CloseCurrent, Generations;
  }

  lemma {:induction false} SteadyCons(s: Sys, e: Event, es: seq<Event>)
    requires Can(s, e) && Steady(s, e) && SteadyRun(Do(s, e), es)
    ensures SteadyRun(s, [e] + es) && Exec(s, [e] + es) == Exec(Do(s, e), es)
    decreases |es|
  {
    hide Do, Can, Steady;
    ExecCons(s, e, es);
    if es == [] {
      assert [e] + es == [e] && [e][..0] == [];
      assert SteadyRun(s, []) && Exec(s, []) == s;
    } else {
      assert ([e] + es)[..|es|] == [e] + es[..|es| - 1];
      SteadyCons(s, e, es[..|es| - 1]);
    }
  }

  lemma {:induction false} DoomedFails(s: Sys) returns (es: seq<Event>)
    requires Inv(s) && Served(s) && Doomed(s)
    ensures SteadyRun(s, es) && !Backed(Exec(s, es))
    decreases if Running(s) then DoomRank(s) + 1 else 0
  {
    hide Inv, Do, Can, Steady, DoomRank, DoomingEvent;
    if Running(s) {
      var e := DoomingEvent(s);
      DoomedGoesOn(s);
      EventKeepsInv(s, e);
      es := DoomedFails(Do(s, e));
      SteadyCons(s, e, es);
      es := [e] + es;
    } else {
      es := [];
    }
  }

  /** While somebody watches and the server is up, "an active state has a connect loop behind it" holds
      in every steady continuation of a state if and only if the state is not doomed. */
  lemma KeepsItsLoopIff(es: seq<Event>)
    requires Possible(INIT, es) && Served(Exec(INIT, es))
    ensures (forall fs: seq<Event> | SteadyRun(Exec(INIT, es), fs) :: Backed(Exec(Exec(INIT, es), fs))) <==>
            !Doomed(Exec(INIT, es))
  {
    hide Inv, Do, Can, Doomed, Served;
    InitInv();
    RunInv(INIT, es);
    var s := Exec(INIT, es);
    hide Exec;
    if Doomed(s) {
      var fs := DoomedFails(s);
    } else {
      forall fs: seq<Event> | SteadyRun(s, fs) ensures Backed(Exec(s, fs)) {
        SteadyRunSound(s, fs);
        SoundIsBacked(Exec(s, fs));
      }
    }
  }

  lemma SoundIsBacked(s: Sys)
    requires !Doomed(s)
    ensures Backed(s)
  {
  }

  // ---------------------------------------------------------------- staying disconnected

  /** A loop that can still bring a disconnected stream back: it is on its way to the transition to
      Connecting, or it can fail in a way that makes it try again. */
  predicate MayReturn(s: Sys) {
    && Running(s)
    && match LoopPc(s)
       case ReadState | GoConnecting => true
       case Top | Backoff | GoReconnecting | Reading => !s.cancelled
       case AfterRead(failed) => failed && !s.cancelled
       case CountClients | Handshake | Dialing | NewRemote => s.clients > 0 && !s.cancelled
       case _ => false
  }

  predicate Uninvited(es: seq<Event>) { forall i | 0 <= i < |es| :: es[i] != Start && es[i] != AddClient }

  lemma DisconnectedStepStaysOff(s: Sys, ok: bool)
    requires Running(s) && s.life.state == Disconnected && !MayReturn(s)
    ensures Off(Step(s, ok).life.state) && !MayReturn(Step(s, ok))
  {
    hide SetState, CloseCurrent;
    assert LoopPc(s) != GoConnecting && LoopPc(s) != ReadState;
  }

  lemma DestroyedStepStaysOff(s: Sys, ok: bool)
    requires Running(s) && s.life.state == Destroyed && !MayReturn(s)
    ensures Off(Step(s, ok).life.state) && !MayReturn(Step(s, ok))
  {
    hide SetState, CloseCurrent;
    assert LoopPc(s) != GoConnecting && LoopPc(s) != ReadState;
  }

  lemma OffStaysOff(s: Sys, e: Event)
    requires Can(s, e) && Off(s.life.state) && !MayReturn(s) && e != Start && e != AddClient
    ensures Off(Do(s, e).life.state) && !MayReturn(Do(s, e))
  {
    hide SetState, CloseCurrent, Step;
    if e.LoopStep? {
      if s.life.state == Disconnected { DisconnectedStepStaysOff(s, e.ok); } else { DestroyedStepStaysOff(s, e.ok); }
    }
  }

  lemma {:induction false} StaysOff(s: Sys, es: seq<Event>)
    requires Possible(s, es) && Off(s.life.state) && !MayReturn(s) && Uninvited(es)
    ensures Off(Exec(s, es).life.state) && !MayReturn(Exec(s, es))
    decreases |es|
  {
    hide Do, Can, Off, MayReturn;
    if es == [] {
    } else {
      StaysOff(s, es[..|es| - 1]);
      OffStaysOff(Exec(s, es[..|es| - 1]), es[|es| - 1]);
    }
  }

  lemma {:induction false} ExecCons(s: Sys, e: Event, es: seq<Event>)
    requires Can(s, e) && Possible(Do(s, e), es)
    ensures Possible(s, [e] + es) && Exec(s, [e] + es) == Exec(Do(s, e), es)
    decreases |es|
  {
    hide Do, Can;
    if es == [] {
      assert ([e] + es)[..0] == [] && ([e] + es)[0] == e;
      assert Possible(s, []) && Exec(s, []) == s;
    } else {
      assert ([e] + es)[..|es|] == [e] + es[..|es| - 1];
      ExecCons(s, e, es[..|es| - 1]);
    }
  }

  /** How far the loop is from the transition to Connecting. */
  function Distance(pc: Pc): nat {
    match pc
    case GoConnecting => 1
    case ReadState => 2
    case Top => 3
    case Backoff => 4
    case GoReconnecting => 5
    case CountClients | AfterRead(_) => 6
    case Reading | Handshake => 7
    case Dialing => 8
    case NewRemote => 9
    case _ => 10
  }

  /** The outcome that keeps the loop trying. */
  function Stubborn(pc: Pc): Event { LoopStep(pc != Reading && pc != Handshake) }

  lemma StubbornStep(s: Sys)
    requires MayReturn(s) && s.life.state == Disconnected
    ensures Can(s, Stubborn(LoopPc(s)))
    ensures var t := Do(s, Stubborn(LoopPc(s)));
            if LoopPc(s) == GoConnecting then t.life.state == Connecting
            else MayReturn(t) && t.life.state == Disconnected && Distance(LoopPc(t)) < Distance(LoopPc(s))
  {
    hide SetState, CloseCurrent;
  }

  lemma Returns(s: Sys) returns (es: seq<Event>)
    requires MayReturn(s) && s.life.state == Disconnected
    ensures Possible(s, es) && Uninvited(es) && Exec(s, es).life.state == Connecting
    decreases Distance(LoopPc(s))
  {
    hide Do, Can, MayReturn, Distance;
    var e := Stubborn(LoopPcOf(s));
    StubbornStep(s);
    if LoopPc(s) == GoConnecting {
      es := [];
      assert Possible(Do(s, e), []) && Exec(Do(s, e), []) == Do(s, e);
    } else {
      es := Returns(Do(s, e));
    }
    ExecCons(s, e, es);
    es := [e] + es;
  }

  /** `LoopPc` for a loop that may return. */
  function LoopPcOf(s: Sys): (pc: Pc)
    requires MayReturn(s)
    ensures s.loops != [] && pc == LoopPc(s)
  {
    LoopPc(s)
  }

  /** "A disconnected stream stays disconnected until it is started or a client arrives" holds of a
      state if and only if no loop is left that may return. */
  lemma StaysDisconnectedIff(s: Sys)
    requires s.life.state == Disconnected
    ensures (forall es: seq<Event> | Possible(s, es) && Uninvited(es) :: Off(Exec(s, es).life.state)) <==> !MayReturn(s)
  {
    hide Do, Can, MayReturn, Exec, Possible;
    if MayReturn(s) {
      var es := Returns(s);
      assert !Off(Exec(s, es).life.state);
    } else {
      forall es: seq<Event> | Possible(s, es) && Uninvited(es) ensures Off(Exec(s, es).life.state) {
        StaysOff(s, es);
      }
    }
  }

  lemma PlayingGoes(s: Sys)
    requires s.life.state == Connecting
    ensures Goes(LoopAt(s, Dialing), LoopStep(true), LoopAt(s, Handshake))
    ensures Goes(LoopAt(s, Handshake), LoopStep(true), LoopAt(s, GoPlaying))
    ensures Goes(LoopAt(s, GoPlaying), LoopStep(true), LoopAt(s.(life := SetState(s.life, Playing)), Reading))
  {
    hide SetState;
  }

  lemma StopGoes(s: Sys, pc: Pc)
    requires s.life.state == Playing && s.stoppers == 0
    ensures var a := s.(life := SetState(s.life, Stopping), stoppers := 1);
            && Goes(LoopAt(s, pc), StopBegin, LoopAt(a, pc))
            && Goes(LoopAt(a, pc), StopEnd, LoopAt(a.(life := SetState(a.life, Disconnected), stoppers := 0), pc))
  {
    hide SetState;
  }

  lemma WakingGoes(s: Sys)
    requires s.life.state == Disconnected && !s.cancelled
    ensures Goes(LoopAt(s, Reading), LoopStep(false), LoopAt(s, AfterRead(true)))
    ensures Goes(LoopAt(s, AfterRead(true)), LoopStep(true), LoopAt(s, GoReconnecting))
    ensures Goes(LoopAt(s, GoReconnecting), LoopStep(true), LoopAt(s, Backoff))
    ensures Goes(LoopAt(s, Backoff), LoopStep(true), LoopAt(s, Top))
  {
  }

  lemma ReturningGoes(s: Sys)
    requires s.life.state == Disconnected && !s.cancelled
    ensures Goes(LoopAt(s, Top), LoopStep(true), LoopAt(s, ReadState))
    ensures Goes(LoopAt(s, ReadState), LoopStep(true), LoopAt(s, GoConnecting))
    ensures Goes(LoopAt(s, GoConnecting), LoopStep(true), LoopAt(s.(life := SetState(s.life, Connecting)), NewRemote))
  {
    hide SetState;
  }

  /** Such a state is reached by completing a `Stop`: here `Stop` has completed, nobody starts the
      stream and no client arrives, and the loop connects again. */
  lemma StoppedLoopReturns() returns (stopped: seq<Event>, later: seq<Event>)
    ensures Possible(INIT, stopped) && stopped != [] && stopped[|stopped| - 1] == StopEnd
    ensures Exec(INIT, stopped).life.state == Disconnected && Exec(INIT, stopped).stoppers == 0
    ensures forall i | 0 <= i < |later| :: later[i].LoopStep?
    ensures Possible(INIT, stopped + later) && Exec(INIT, stopped + later).life.state == Connecting
  {
    hide Goes, Exec, Possible, SetState;
    var p: Sys;
    stopped, p := ReachReading();
    StopGoes(p, Reading);
    var a := p.(life := SetState(p.life, Stopping), stoppers := 1);
    var d := a.(life := SetState(a.life, Disconnected), stoppers := 0);
    ExecOn(INIT, stopped, LoopAt(p, Reading), StopBegin, LoopAt(a, Reading)); stopped := stopped + [StopBegin];
    ExecOn(INIT, stopped, LoopAt(a, Reading), StopEnd, LoopAt(d, Reading)); stopped := stopped + [StopEnd];
    later := WakeAndReturn(d, stopped);
  }

  lemma WakeAndReturn(d: Sys, stopped: seq<Event>) returns (later: seq<Event>)
    requires Possible(INIT, stopped) && Exec(INIT, stopped) == LoopAt(d, Reading)
    requires d.life.state == Disconnected && !d.cancelled
    ensures forall i | 0 <= i < |later| :: later[i].LoopStep?
    ensures Possible(INIT, stopped + later) && Exec(INIT, stopped + later).life.state == Connecting
  {
    hide Goes, Exec, Possible, SetState;
    WakingGoes(d);
    ReturningGoes(d);
    var go := LoopStep(true);
    later := [LoopStep(false), go, go, go, go, go, go];
    var es := stopped;
    ExecOn(INIT, es, LoopAt(d, Reading), LoopStep(false), LoopAt(d, AfterRead(true))); es := es + [LoopStep(false)];
    ExecOn(INIT, es, LoopAt(d, AfterRead(true)), go, LoopAt(d, GoReconnecting)); es := es + [go];
    ExecOn(INIT, es, LoopAt(d, GoReconnecting), go, LoopAt(d, Backoff)); es := es + [go];
    ExecOn(INIT, es, LoopAt(d, Backoff), go, LoopAt(d, Top)); es := es + [go];
    ExecOn(INIT, es, LoopAt(d, Top), go, LoopAt(d, ReadState)); es := es + [go];
    ExecOn(INIT, es, LoopAt(d, ReadState), go, LoopAt(d, GoConnecting)); es := es + [go];
    ExecOn(INIT, es, LoopAt(d, GoConnecting), go, LoopAt(d.(life := SetState(d.life, Connecting)), NewRemote));
    es := es + [go];
    assert es == stopped + later;
  }
}
