/** Responses carry no request identity the handler looks at: it pairs each with the front of the
    queue. That is right as long as one call is in progress at a time and the camera answers every
    request in order; with two callers it can be wrong. */
module RequestLockstep {
  import opened RequestEngine
  import opened RequestRaces

  /** One call at a time, every write succeeds, nothing times out or is cut off, and the camera sends
      nothing but answers to the requests on the wire, in order. */
  predicate Calm(s: Sys, e: Event) {
    match e
    case Begin(_) => forall d <- s.calls :: s.calls[d].pc.Done?
    case Step(_, o) => o.Written?
    case Handle(o) => o.Written?
    case Collect(_, aborted) => !aborted
    case Receive(_, solicited) => solicited
    case _ => false
  }

  ghost predicate CalmRun(es: seq<Event>) {
    && Possible(Start(), es)
    && (es == [] || (CalmRun(es[..|es| - 1]) && Calm(Exec(Start(), es[..|es| - 1]), es[|es| - 1])))
  }

  /** The responses to the requests of one call, in order. */
  function Answers(log: seq<Match>, c: nat): seq<Resp> {
    if log == [] then []
    else
      var m := log[|log| - 1];
      Answers(log[..|log| - 1], c) + (if m.answers == Some(c) then [m.resp] else [])
  }

  /** A demand for credentials that can be met. */
  predicate Demands(r: Resp) { r.code == 401 && r.challenge && r.answerable }

  /** `n` responses to `c` so far, all of them met by a resend. */
  predicate Unsettled(log: seq<Match>, c: nat, n: nat) {
    && (forall m <- log | m.answers == Some(c) :: m.verdict.None?)
    && |Answers(log, c)| == n <= 1 && (n == 1 ==> Demands(Answers(log, c)[0]))
  }

  /** What a caller may conclude from the responses to its requests. There are one or two, the first of
      two a demand for credentials. An error code is reported as such, but for a first 401: that one
      means that credentials are missing or, without a challenge, counts as success. */
  predicate Tells(rs: seq<Resp>, status: Status) {
    && 1 <= |rs| <= 2 && (|rs| == 2 ==> Demands(rs[0]))
    && var r := rs[|rs| - 1];
       var firstDemand := |rs| == 1 && r.code == 401;
       && (firstDemand ==> !(r.challenge && r.answerable))
       && (match status
           case Refused(n) => r.code == n && n >= 400 && !firstDemand
           case Unauthorized => firstDemand && r.challenge
           case Fine => r.code < 400 || (firstDemand && !r.challenge))
  }

  /** `status` is the outcome of the one response to `c` that was not answered by a resend, and what the
      responses tell. */
  predicate Settled(log: seq<Match>, c: nat, status: Status) {
    && (exists m <- log :: m.answers == Some(c) && m.handledFor == Some(c) && m.verdict == Some(status))
    && (forall m <- log | m.answers == Some(c) && m.verdict.Some? :: m.verdict.value == status)
    && Tells(Answers(log, c), status)
  }

  predicate Resting(s: Sys) { s.queue == [] && s.wire == [] && s.handler.Idle? }

  /** The handler holds the answer to the only request. */
  predicate Holds(s: Sys, c: nat) {
    s.queue == [Elem(c, 0)] && s.wire == [] && s.calls.Keys >= {c} && s.calls[c].channel == Open(None)
  }

  predicate Waits(s: Sys, c: nat)
    requires c in s.calls
  {
    var ch := s.calls[c].channel;
    match s.handler
    case Idle =>
      || (ch == Open(None) && s.queue == [Elem(c, 0)] && s.wire == [Some(c)] && Unsettled(s.log, c, s.calls[c].retried))
      || (ch.Open? && ch.note.Some? && s.queue == [] && s.wire == [] && Settled(s.log, c, ch.note.value.status))
    case Peeked(el, _, of) =>
      el == Elem(c, 0) && of == Some(c) && Holds(s, c) && Unsettled(s.log, c, s.calls[c].retried)
    case Claimed(el) => el == Elem(c, 0) && Holds(s, c) && Unsettled(s.log, c, s.calls[c].retried + 1)
    case Resending(el) => el == Elem(c, 0) && Holds(s, c) && Unsettled(s.log, c, s.calls[c].retried)
    case Finalizing(el, st) => el == Elem(c, 0) && Holds(s, c) && Settled(s.log, c, st)
    case Notifying(el, st) =>
      el == Elem(c, 0) && s.queue == [] && s.wire == [] && ch == Open(None) && Settled(s.log, c, st)
  }

  predicate Busy(s: Sys, c: nat)
    requires c in s.calls
  {
    var call := s.calls[c];
    && call.attempt == 0
    && match call.pc
       case Subscribe => Resting(s) && Unsettled(s.log, c, s.calls[c].retried)
       case Enqueue => Resting(s) && Unsettled(s.log, c, s.calls[c].retried) && call.channel == Open(None)
       case Send =>
         && s.queue == [Elem(c, 0)] && s.wire == [] && s.handler.Idle?
         && Unsettled(s.log, c, call.retried) && call.channel == Open(None)
       case Wait => Waits(s, c)
       case Done(r) => false
       case _ => false
  }

  predicate Matched(s: Sys) {
    forall m <- s.log :: m.answers.Some? && m.answers == m.handledFor && m.answers.value in s.calls
  }

  predicate Told(s: Sys, d: nat)
    requires d in s.calls
  {
    var pc := s.calls[d].pc;
    pc.Done? ==> pc.result.Returned? && Settled(s.log, d, pc.result.status)
  }

  predicate AllDone(s: Sys) { forall d <- s.calls :: s.calls[d].pc.Done? }

  predicate Alone(s: Sys, c: nat) { forall d <- s.calls | d != c :: s.calls[d].pc.Done? }

  ghost predicate Lock(s: Sys) {
    && Matched(s)
    && (forall d <- s.calls :: Told(s, d))
    && ((AllDone(s) && Resting(s)) || exists c <- s.calls :: Alone(s, c) && Busy(s, c))
  }

  // ---------------------------------------------------------------- calm events keep it

  lemma AnswersOn(log: seq<Match>, m: Match, d: nat)
    ensures Answers(log + [m], d) == Answers(log, d) + (if m.answers == Some(d) then [m.resp] else [])
  {
    assert (log + [m])[..|log|] == log;
  }

  lemma {:induction false} NoAnswers(log: seq<Match>, c: nat)
    requires forall m <- log :: m.answers != Some(c)
    ensures Answers(log, c) == []
  {
    if log == [] {
    } else {
      NoAnswers(log[..|log| - 1], c);
    }
  }

  /** The entry for a response to `c` that comes after `n` others. */
  function Entry(c: nat, resp: Resp, n: nat): Match { Match(Some(c), Some(c), resp, Verdict(resp, n)) }

  /** What the log says about other calls is not changed by an entry for this one. */
  lemma OthersStay(log: seq<Match>, m: Match, d: nat, st: Status)
    requires m.answers != Some(d) && Settled(log, d, st)
    ensures Settled(log + [m], d, st)
  {
    hide Tells, Answers;
    AnswersOn(log, m, d);
    assert Answers(log, d) + [] == Answers(log, d);
    var x :| x in log && x.answers == Some(d) && x.handledFor == Some(d) && x.verdict == Some(st);
    assert x in log + [m];
  }

  lemma EntrySettles(log: seq<Match>, c: nat, resp: Resp, n: nat)
    requires Unsettled(log, c, n) && Verdict(resp, n).Some?
    ensures Settled(log + [Entry(c, resp, n)], c, Verdict(resp, n).value)
  {
    hide Answers;
    AnswersOn(log, Entry(c, resp, n), c);
    assert (log + [Entry(c, resp, n)])[|log|] == Entry(c, resp, n);
  }

  lemma EntryDemands(log: seq<Match>, c: nat, resp: Resp, n: nat)
    requires Unsettled(log, c, n) && Verdict(resp, n).None?
    ensures Unsettled(log + [Entry(c, resp, n)], c, n + 1)
  {
    hide Answers;
    AnswersOn(log, Entry(c, resp, n), c);
  }

  lemma BeginKeepsLock(s: Sys, c: nat)
    requires Lock(s) && c !in s.calls && AllDone(s)
    ensures Lock(Do(s, Begin(c)))
  {
    hide Settled, Answers;
    var t := Do(s, Begin(c));
    assert Resting(s);
    NoAnswers(s.log, c);
    forall d | d in t.calls ensures Told(t, d) { if d != c { assert Told(s, d); } }
    assert Busy(t, c) && Alone(t, c);
  }

  lemma StepKeepsLock(s: Sys, c: nat)
    requires Matched(s) && (forall d <- s.calls :: Told(s, d)) && c in s.calls && Alone(s, c) && Busy(s, c)
    requires Steps(s.calls[c].pc)
    ensures Lock(Do(s, Step(c, Written)))
  {
    hide Settled, Unsettled, Without;
    var t := Do(s, Step(c, Written));
    forall d | d in t.calls ensures Told(t, d) { if d != c { assert Told(s, d); } }
    assert s.wire + [Some(c)] == [Some(c)];
    assert [] + [Elem(c, 0)] == [Elem(c, 0)];
    assert Busy(t, c) && Alone(t, c);
  }

  lemma CollectKeepsLock(s: Sys, c: nat)
    requires Matched(s) && (forall d <- s.calls :: Told(s, d)) && c in s.calls && Alone(s, c) && Busy(s, c)
    requires Can(s, Collect(c, false))
    ensures Lock(Do(s, Collect(c, false)))
  {
    hide Settled, Unsettled;
    var t := Do(s, Collect(c, false));
    forall d | d in t.calls ensures Told(t, d) { if d != c { assert Told(s, d); } }
    assert Resting(t);
    assert AllDone(t);
  }

  lemma ReceiveKeepsLock(s: Sys, c: nat, resp: Resp)
    requires Matched(s) && (forall d <- s.calls :: Told(s, d)) && c in s.calls && Alone(s, c) && Busy(s, c)
    requires Can(s, Receive(resp, true))
    ensures Lock(Do(s, Receive(resp, true)))
  {
    hide Settled, Unsettled;
    var t := Do(s, Receive(resp, true));
    forall d | d in t.calls ensures Told(t, d) { assert Told(s, d); }
    assert [Some(c)][1..] == [];
    assert Busy(t, c) && Alone(t, c);
  }

  lemma HandleKeepsLock(s: Sys, c: nat)
    requires Matched(s) && (forall d <- s.calls :: Told(s, d)) && c in s.calls && Alone(s, c) && Busy(s, c)
    requires Can(s, Handle(Written))
    ensures Lock(Do(s, Handle(Written)))
  {
    hide Settled, Unsettled, Verdict, Remove;
    var t := Do(s, Handle(Written));
    if s.handler.Peeked? {
      PeekedKeepsLock(s, c);
    } else {
      forall d | d in t.calls ensures Told(t, d) { if d != c { assert Told(s, d); } }
      RemoveOnly(Elem(c, 0));
      assert [] + [Some(c)] == [Some(c)];
      assert s.wire == [] || !s.handler.Resending?;
      assert Busy(t, c) && Alone(t, c);
    }
  }

  lemma RemoveOnly(el: Elem)
    ensures Remove([el], el) == []
  {
  }

  lemma PeekedKeepsLock(s: Sys, c: nat)
    requires Matched(s) && (forall d <- s.calls :: Told(s, d)) && c in s.calls && Alone(s, c) && Busy(s, c)
    requires Can(s, Handle(Written)) && s.handler.Peeked?
    ensures Lock(Do(s, Handle(Written)))
  {
    hide Settled, Unsettled, Verdict;
    var t := Do(s, Handle(Written));
    var resp, n := s.handler.resp, s.calls[c].retried;
    var v := Verdict(resp, n);
    forall d | d in t.calls ensures Told(t, d) {
      assert Told(s, d);
      if s.calls[d].pc.Done? { OthersStay(s.log, Entry(c, resp, n), d, s.calls[d].pc.result.status); }
    }
    if v.Some? {
      EntrySettles(s.log, c, resp, n);
    } else {
      EntryDemands(s.log, c, resp, n);
    }
    assert Busy(t, c) && Alone(t, c);
  }

  lemma OnlyBusyMoves(s: Sys, e: Event, c: nat)
    requires c in s.calls && Alone(s, c) && Busy(s, c) && Can(s, e) && Calm(s, e)
    ensures !e.Begin? && ((e.Step? || e.Collect?) ==> e.call == c)
  {
    hide Waits;
  }

  lemma CalmKeepsLock(s: Sys, e: Event)
    requires Lock(s) && Can(s, e) && Calm(s, e)
    ensures Lock(Do(s, e))
  {
    if AllDone(s) && Resting(s) {
      hide Told, Matched, Busy;
      if e.Begin? { BeginKeepsLock(s, e.call); }
    } else {
      var c :| c in s.calls && Alone(s, c) && Busy(s, c);
      OnlyBusyMoves(s, e, c);
      hide *;
      match e
      case Step(_, _) => StepKeepsLock(s, c);
      case Collect(_, _) => CollectKeepsLock(s, c);
      case Receive(resp, _) => ReceiveKeepsLock(s, c, resp);
      case Handle(_) => HandleKeepsLock(s, c);
      case _ =>
    }
  }

  lemma StartLocked()
    ensures Lock(Start())
  {
  }

  lemma {:induction false} CalmRunLocked(es: seq<Event>)
    requires CalmRun(es)
    ensures Lock(Exec(Start(), es))
  {
    hide Lock, Calm, Can, Do;
    if es == [] {
      StartLocked();
    } else {
      CalmRunLocked(es[..|es| - 1]);
      CalmKeepsLock(Exec(Start(), es[..|es| - 1]), es[|es| - 1]);
    }
  }

  // ---------------------------------------------------------------- theorems

  /** In every calm run, over any number of calls and including authenticated resends, every response
      is handled for the call whose request it answers, and none is dropped. */
  lemma AnswersMatch(es: seq<Event>, i: nat)
    requires CalmRun(es) && i < |Exec(Start(), es).log|
    ensures Exec(Start(), es).log[i].answers.Some?
    ensures Exec(Start(), es).log[i].answers == Exec(Start(), es).log[i].handledFor
  {
    hide Exec;
    CalmRunLocked(es);
    assert Exec(Start(), es).log[i] in Exec(Start(), es).log;
  }

  /** In every calm run a call that returned got the outcome of its own response, which is what the
      codes of the responses to it tell; and it has left nothing behind: with no call in progress,
      queue, wire and handler are empty. */
  lemma CallersAreTold(es: seq<Event>, d: nat)
    requires CalmRun(es) && d in Exec(Start(), es).calls && Exec(Start(), es).calls[d].pc.Done?
    ensures Exec(Start(), es).calls[d].pc.result.Returned?
    ensures Settled(Exec(Start(), es).log, d, Exec(Start(), es).calls[d].pc.result.status)
    ensures Tells(Answers(Exec(Start(), es).log, d), Exec(Start(), es).calls[d].pc.result.status)
    ensures AllDone(Exec(Start(), es)) ==> Resting(Exec(Start(), es))
  {
    hide Exec, Tells, Answers;
    CalmRunLocked(es);
    var s := Exec(Start(), es);
    assert Told(s, d);
  }

  /** A calm run is never stuck: while a call is in progress it can go on, be it by an answer from the
      camera. */
  lemma NeverStuck(es: seq<Event>) returns (e: Event)
    requires CalmRun(es) && !AllDone(Exec(Start(), es))
    ensures Can(Exec(Start(), es), e) && Calm(Exec(Start(), es), e) && !e.Begin?
  {
    hide Exec, Settled, Unsettled;
    CalmRunLocked(es);
    var s := Exec(Start(), es);
    var c :| c in s.calls && Alone(s, c) && Busy(s, c);
    e := if Steps(s.calls[c].pc) then Step(c, Written)
         else if !s.handler.Idle? then Handle(Written)
         else if s.wire != [] then Receive(OK_RESPONSE, true)
         else Collect(c, false);
  }

  // ---------------------------------------------------------------- two callers

  function Duo(a: Call, b: Call, q: seq<Elem>, h: Handler, up: bool, w: seq<Option<nat>>, log: seq<Match>): Sys {
    Sys(map[0 := a, 1 := b], q, h, up, w, log)
  }

  const ENQ := Call(Enqueue, 0, 0, Open(None), 0, 0)
  const SND := Call(Send, 0, 0, Open(None), 0, 0)
  const BOTH := [Elem(0, 0), Elem(1, 0)]

  lemma DuoBegins()
    ensures Goes(Start(), Begin(0), Solo(NEW_CALL, [], Idle, false, [], []))
    ensures Goes(Solo(NEW_CALL, [], Idle, false, [], []), Begin(1), Duo(NEW_CALL, NEW_CALL, [], Idle, false, [], []))
    ensures Goes(Duo(NEW_CALL, NEW_CALL, [], Idle, false, [], []), Step(0, Written),
                 Duo(ENQ, NEW_CALL, [], Idle, false, [], []))
    ensures Goes(Duo(ENQ, NEW_CALL, [], Idle, false, [], []), Step(1, Written), Duo(ENQ, ENQ, [], Idle, false, [], []))
    ensures Goes(Duo(ENQ, ENQ, [], Idle, false, [], []), Step(0, Written),
                 Duo(SND, ENQ, [Elem(0, 0)], Idle, false, [], []))
    ensures Goes(Duo(SND, ENQ, [Elem(0, 0)], Idle, false, [], []), Step(1, Written),
                 Duo(SND, SND, BOTH, Idle, false, [], []))
  {
  }

  lemma DuoMismatches()
    ensures Goes(Duo(SND, SND, BOTH, Idle, false, [], []), Step(1, Written),
                 Duo(SND, ASKED, BOTH, Idle, true, [Some(1)], []))
    ensures Goes(Duo(SND, ASKED, BOTH, Idle, true, [Some(1)], []), Step(0, Written),
                 Duo(ASKED, ASKED, BOTH, Idle, true, [Some(1), Some(0)], []))
    ensures Goes(Duo(ASKED, ASKED, BOTH, Idle, true, [Some(1), Some(0)], []), Receive(OK_RESPONSE, true),
                 Duo(ASKED, ASKED, BOTH, Peeked(Elem(0, 0), OK_RESPONSE, Some(1)), true, [Some(0)], []))
    ensures Goes(Duo(ASKED, ASKED, BOTH, Peeked(Elem(0, 0), OK_RESPONSE, Some(1)), true, [Some(0)], []), HANDLE,
                 Duo(ASKED, ASKED, BOTH, Finalizing(Elem(0, 0), Fine), true, [Some(0)],
                     [Match(Some(1), Some(0), OK_RESPONSE, Some(Fine))]))
  {
  }

  /** Two callers may write in the other order than they queued. Then, with a camera that answers in
      order and no failure at all, the first response is handled for the wrong call. */
  lemma TwoCallersMismatch() returns (es: seq<Event>)
    ensures Possible(Start(), es) && |Exec(Start(), es).log| == 1
    ensures Exec(Start(), es).log[0].answers == Some(1) && Exec(Start(), es).log[0].handledFor == Some(0)
  {
    hide Goes, Exec, Possible;
    DuoBegins();
    DuoMismatches();
    ExecNone(Start());
    var s := Solo(NEW_CALL, [], Idle, false, [], []);
    var a := Duo(NEW_CALL, NEW_CALL, [], Idle, false, [], []);
    var b := Duo(ENQ, NEW_CALL, [], Idle, false, [], []);
    var c := Duo(ENQ, ENQ, [], Idle, false, [], []);
    var d := Duo(SND, ENQ, [Elem(0, 0)], Idle, false, [], []);
    var f := Duo(SND, SND, BOTH, Idle, false, [], []);
    var g := Duo(SND, ASKED, BOTH, Idle, true, [Some(1)], []);
    var h := Duo(ASKED, ASKED, BOTH, Idle, true, [Some(1), Some(0)], []);
    var i := Duo(ASKED, ASKED, BOTH, Peeked(Elem(0, 0), OK_RESPONSE, Some(1)), true, [Some(0)], []);
    var j := Duo(ASKED, ASKED, BOTH, Finalizing(Elem(0, 0), Fine), true, [Some(0)],
                 [Match(Some(1), Some(0), OK_RESPONSE, Some(Fine))]);
    ExecOn(Start(), [], Start(), Begin(0), s); es := [] + [Begin(0)];
    ExecOn(Start(), es, s, Begin(1), a); es := es + [Begin(1)];
    ExecOn(Start(), es, a, Step(0, Written), b); es := es + [Step(0, Written)];
    ExecOn(Start(), es, b, Step(1, Written), c); es := es + [Step(1, Written)];
    ExecOn(Start(), es, c, Step(0, Written), d); es := es + [Step(0, Written)];
    ExecOn(Start(), es, d, Step(1, Written), f); es := es + [Step(1, Written)];
    ExecOn(Start(), es, f, Step(1, Written), g); es := es + [Step(1, Written)];
    ExecOn(Start(), es, g, Step(0, Written), h); es := es + [Step(0, Written)];
    ExecOn(Start(), es, h, Receive(OK_RESPONSE, true), i); es := es + [Receive(OK_RESPONSE, true)];
    ExecOn(Start(), es, i, HANDLE, j); es := es + [HANDLE];
  }
}
