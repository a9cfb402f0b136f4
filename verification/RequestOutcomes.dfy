/** What a caller is told, in every run: failures, timeouts and any number of callers included. */
module RequestOutcomes {
  import opened RequestEngine

  /** What the code of a response, and its challenge, can mean. A 401 with a challenge that can be met
      means nothing yet: the request is sent again. */
  predicate Means(r: Resp, verdict: Option<Status>) {
    match verdict
    case None => r.code == 401 && r.challenge && r.answerable
    case Some(Refused(n)) => r.code == n && n >= 400
    case Some(Unauthorized) => r.code == 401 && r.challenge && !r.answerable
    case Some(Fine) => r.code < 400 || (r.code == 401 && !r.challenge)
  }

  /** A response was handled for the call, with this outcome and this meaning. */
  predicate Heard(log: seq<Match>, c: nat, status: Status) {
    exists m <- log :: m.handledFor == Some(c) && m.verdict == Some(status) && Means(m.resp, Some(status))
  }

  predicate LogOk(log: seq<Match>) { forall m <- log | m.handledFor.Some? :: Means(m.resp, m.verdict) }

  predicate CallHeard(s: Sys, c: nat)
    requires c in s.calls
  {
    var call := s.calls[c];
    && (call.channel.Open? && call.channel.note.Some? ==> Heard(s.log, c, call.channel.note.value.status))
    && (call.pc.Done? && call.pc.result.Returned? ==> Heard(s.log, c, call.pc.result.status))
  }

  predicate HandlerHeard(s: Sys) {
    s.handler.Finalizing? || s.handler.Notifying? ==> Heard(s.log, s.handler.el.call, s.handler.status)
  }

  predicate OutcomesOk(s: Sys) { LogOk(s.log) && HandlerHeard(s) && forall c <- s.calls :: CallHeard(s, c) }

  lemma VerdictMeans(r: Resp, retried: nat)
    ensures Means(r, Verdict(r, retried))
  {
  }

  lemma HeardOn(log: seq<Match>, m: Match, c: nat, st: Status)
    ensures Heard(log, c, st) ==> Heard(log + [m], c, st)
    ensures m.handledFor == Some(c) && m.verdict == Some(st) && Means(m.resp, m.verdict) ==> Heard(log + [m], c, st)
  {
    assert (log + [m])[|log|] == m;
    if Heard(log, c, st) {
      var x :| x in log && x.handledFor == Some(c) && x.verdict == Some(st) && Means(x.resp, Some(st));
      assert x in log + [m];
    }
  }

  lemma LogGrowsOk(s: Sys, m: Match)
    requires OutcomesOk(s) && (m.handledFor.Some? ==> Means(m.resp, m.verdict))
    ensures OutcomesOk(s.(log := s.log + [m]))
  {
    hide Heard;
    forall c, st ensures Heard(s.log, c, st) ==> Heard(s.log + [m], c, st) { HeardOn(s.log, m, c, st); }
    forall c <- s.calls ensures CallHeard(s.(log := s.log + [m]), c) { assert CallHeard(s, c); }
  }

  /** An event that writes nothing to the log. */
  lemma CallStepOk(s: Sys, e: Event)
    requires OutcomesOk(s) && Can(s, e) && (e.Begin? || e.Step? || e.Collect? || e.Expire?)
    ensures OutcomesOk(Do(s, e))
  {
    hide Heard, Without, Means;
    var t := Do(s, e);
    forall c <- t.calls ensures CallHeard(t, c) { if c in s.calls { assert CallHeard(s, c); } }
  }

  lemma HandleOk(s: Sys, o: Outcome)
    requires OutcomesOk(s) && Can(s, Handle(o)) && !s.handler.Peeked?
    ensures OutcomesOk(Do(s, Handle(o)))
  {
    hide Heard, Remove, Means;
    var t := Do(s, Handle(o));
    forall c <- t.calls ensures CallHeard(t, c) { assert CallHeard(s, c); }
  }

  lemma PeekOk(s: Sys, o: Outcome)
    requires OutcomesOk(s) && Can(s, Handle(o)) && s.handler.Peeked?
    ensures OutcomesOk(Do(s, Handle(o)))
  {
    var c := s.handler.el.call;
    var v := Verdict(s.handler.resp, s.calls[c].retried);
    var m := Match(s.handler.of, Some(c), s.handler.resp, v);
    VerdictMeans(s.handler.resp, s.calls[c].retried);
    LogGrowsOk(s, m);
    hide Heard, Verdict, Means;
    var t := Do(s, Handle(o));
    if v.Some? { HeardOn(s.log, m, c, v.value); }
    forall d <- t.calls ensures CallHeard(t, d) { assert CallHeard(s.(log := s.log + [m]), d); }
  }

  lemma OtherOk(s: Sys, e: Event)
    requires OutcomesOk(s) && Can(s, e) && (e.Receive? || e.Teardown? || e.Drop?)
    ensures OutcomesOk(Do(s, e))
  {
    hide Heard, Means;
    var t := Do(s, e);
    if e.Receive? {
      var m := Match(if e.solicited then s.wire[0] else None, None, e.resp, None);
      LogGrowsOk(s, m);
      forall d <- t.calls ensures CallHeard(t, d) {
        assert CallHeard(s.(log := s.log + [m]), d) && CallHeard(s, d);
      }
    } else {
      forall d <- t.calls ensures CallHeard(t, d) { assert CallHeard(s, d); }
    }
  }

  lemma {:induction false} RunOutcomes(es: seq<Event>)
    requires Possible(Start(), es)
    ensures OutcomesOk(Exec(Start(), es))
    decreases |es|
  {
    hide OutcomesOk, Do, Can;
    if es == [] {
      assert OutcomesOk(Start()) by { StartOk(); }
    } else {
      RunOutcomes(es[..|es| - 1]);
      var s, e := Exec(Start(), es[..|es| - 1]), es[|es| - 1];
      match e
      case Handle(o) => if s.handler.Peeked? { PeekOk(s, o); } else { HandleOk(s, o); }
      case Receive(_, _) => OtherOk(s, e);
      case Teardown(_) => OtherOk(s, e);
      case Drop => OtherOk(s, e);
      case _ => CallStepOk(s, e);
    }
  }

  lemma StartOk()
    ensures OutcomesOk(Start())
  {
  }

  /** In every run: a call that returned with an outcome had a response handled for it that means just
      that. An error code is never reported as success, nor success as an error. */
  lemma ReturnedWasHeard(es: seq<Event>, c: nat) returns (i: nat)
    requires Possible(Start(), es) && c in Exec(Start(), es).calls
    requires Exec(Start(), es).calls[c].pc.Done? && Exec(Start(), es).calls[c].pc.result.Returned?
    ensures var s := Exec(Start(), es);
            && i < |s.log| && s.log[i].handledFor == Some(c)
            && Means(s.log[i].resp, Some(s.calls[c].pc.result.status))
  {
    hide Exec, Means;
    RunOutcomes(es);
    var s := Exec(Start(), es);
    assert CallHeard(s, c);
    var st := s.calls[c].pc.result.status;
    var m :| m in s.log && m.handledFor == Some(c) && m.verdict == Some(st) && Means(m.resp, Some(st));
    i :| i < |s.log| && s.log[i] == m;
  }

  // ---------------------------------------------------------------- other calls

  predicate Own(e: Event, c: nat) { (e.Step? || e.Collect? || e.Expire?) && e.call == c }

  lemma HandlerMoves(s: Sys, o: Outcome, c: nat)
    requires Can(s, Handle(o)) && c in s.calls
    ensures var t := Do(s, Handle(o));
            && c in t.calls && t.calls[c].pc == s.calls[c].pc && t.calls[c].attempt == s.calls[c].attempt
            && t.calls[c].writes == s.calls[c].writes
  {
    hide Remove, Verdict;
  }

  /** A call goes on only by its own steps: the handler and other callers leave its place alone. */
  lemma OthersMove(s: Sys, e: Event, c: nat)
    requires Can(s, e) && c in s.calls && !Own(e, c)
    ensures var t := Do(s, e);
            && c in t.calls && t.calls[c].pc == s.calls[c].pc && t.calls[c].attempt == s.calls[c].attempt
            && t.calls[c].writes == s.calls[c].writes
  {
    if e.Handle? { HandlerMoves(s, e.outcome, c); }
    hide Without, HandlerStep;
  }

  // ---------------------------------------------------------------- notes

  /** The first note stays: while its caller has not collected it or timed out, no later one replaces it. */
  lemma FirstNoteStays(s: Sys, e: Event, c: nat)
    requires Can(s, e) && c in s.calls && s.calls[c].channel.Open? && s.calls[c].channel.note.Some?
    requires !((e.Step? || e.Collect? || e.Expire?) && e.call == c)
    ensures c in Do(s, e).calls && Do(s, e).calls[c].channel == s.calls[c].channel
  {
    hide Without, Remove, Verdict;
  }

  // ---------------------------------------------------------------- the end of a call

  lemma DoneStep(s: Sys, e: Event, c: nat)
    requires Can(s, e) && c in s.calls && s.calls[c].pc.Done?
    ensures c in Do(s, e).calls && Do(s, e).calls[c].pc == s.calls[c].pc
  {
    assert !Own(e, c);
    OthersMove(s, e, c);
    hide Do;
  }

  lemma {:induction false} DoneStays(s: Sys, c: nat, fs: seq<Event>)
    requires c in s.calls && s.calls[c].pc.Done? && Possible(s, fs)
    ensures c in Exec(s, fs).calls && Exec(s, fs).calls[c].pc == s.calls[c].pc
    decreases |fs|
  {
    hide Do, Can;
    if fs == [] {
    } else {
      DoneStays(s, c, fs[..|fs| - 1]);
      DoneStep(Exec(s, fs[..|fs| - 1]), fs[|fs| - 1], c);
    }
  }

  /** In every run: a call whose stream or server goes down while it waits is aborted, whether or not there
      is an outcome for it, and that is how it stays; a call that collects its note otherwise returns what
      the note says. */
  lemma AbortedIsAborted(es: seq<Event>, c: nat, e: Event, fs: seq<Event>)
    requires Possible(Start(), es) && Can(Exec(Start(), es), e) && (e.Collect? || e.Expire?) && e.call == c
    requires Possible(Do(Exec(Start(), es), e), fs)
    ensures var t := Exec(Do(Exec(Start(), es), e), fs);
            && c in t.calls
            && (e.aborted ==> t.calls[c].pc == Done(Aborted))
            && (e.Collect? && !e.aborted ==>
                  var n := Exec(Start(), es).calls[c].channel.note.value;
                  t.calls[c].pc == Done(Returned(n.status, n.from)))
  {
    hide Exec, Possible;
    var s := Do(Exec(Start(), es), e);
    assert c in s.calls;
    if s.calls[c].pc.Done? {
      DoneStays(s, c, fs);
    } else {
      CallStays(s, c, fs);
    }
  }

  lemma OwnStays(s: Sys, e: Event, c: nat)
    requires Can(s, e) && c in s.calls && Own(e, c)
    ensures c in Do(s, e).calls
  {
    hide Without;
  }

  lemma {:induction false} CallStays(s: Sys, c: nat, fs: seq<Event>)
    requires c in s.calls && Possible(s, fs)
    ensures c in Exec(s, fs).calls
    decreases |fs|
  {
    hide Do, Can, Own;
    if fs == [] {
    } else {
      CallStays(s, c, fs[..|fs| - 1]);
      var t, e := Exec(s, fs[..|fs| - 1]), fs[|fs| - 1];
      if Own(e, c) {
        OwnStays(t, e, c);
      } else {
        OthersMove(t, e, c);
      }
    }
  }

  // ---------------------------------------------------------------- sending

  /** A call that waits, or has waited in vain, wrote its request once in this attempt; one that has not
      sent yet did so in the earlier ones only. */
  predicate WritesOk(call: Call) {
    match call.pc
    case Subscribe | Enqueue | Send => call.writes == call.attempt
    case Wait | Cleanup | Reset => call.writes == call.attempt + 1
    case Unqueue => call.writes <= call.attempt + 1
    case Done(r) => if r.SendFailed? then call.writes <= call.attempt + 1 else call.writes == call.attempt + 1
  }

  lemma OwnWrites(s: Sys, e: Event, c: nat)
    requires Can(s, e) && c in s.calls && Own(e, c) && WritesOk(s.calls[c])
    ensures c in Do(s, e).calls && WritesOk(Do(s, e).calls[c])
  {
    hide Without;
  }

  lemma NewCalls(s: Sys, e: Event, c: nat)
    requires Can(s, e) && c !in s.calls && c in Do(s, e).calls
    ensures Do(s, e).calls[c] == NEW_CALL
  {
    hide Without, Remove, Verdict;
  }

  lemma WritesStep(s: Sys, e: Event)
    requires Can(s, e) && forall c <- s.calls :: WritesOk(s.calls[c])
    ensures forall c <- Do(s, e).calls :: WritesOk(Do(s, e).calls[c])
  {
    hide Do, Can, Own;
    forall c <- Do(s, e).calls ensures WritesOk(Do(s, e).calls[c]) {
      if c !in s.calls {
        NewCalls(s, e, c);
      } else if Own(e, c) {
        OwnWrites(s, e, c);
      } else {
        OthersMove(s, e, c);
      }
    }
  }

  /** In every run a caller waits only for a request that was written, once in each attempt. */
  lemma {:induction false} WaitsForWritten(es: seq<Event>, c: nat)
    requires Possible(Start(), es) && c in Exec(Start(), es).calls
    ensures WritesOk(Exec(Start(), es).calls[c])
  {
    hide WritesOk, Exec, Possible;
    AllWritten(es);
  }

  lemma {:induction false} AllWritten(es: seq<Event>)
    requires Possible(Start(), es)
    ensures forall c <- Exec(Start(), es).calls :: WritesOk(Exec(Start(), es).calls[c])
    decreases |es|
  {
    hide WritesOk, Do, Can;
    if es == [] {
    } else {
      AllWritten(es[..|es| - 1]);
      WritesStep(Exec(Start(), es[..|es| - 1]), es[|es| - 1]);
    }
  }

  lemma FailingStep(s: Sys, e: Event, c: nat)
    requires Can(s, e) && c in s.calls && s.calls[c].pc.Unqueue? && !(e.Step? && e.call == c)
    ensures c in Do(s, e).calls && Do(s, e).calls[c].pc.Unqueue?
  {
    assert !Own(e, c);
    OthersMove(s, e, c);
    hide Do;
  }

  lemma {:induction false} FailingStays(s: Sys, c: nat, fs: seq<Event>)
    requires c in s.calls && s.calls[c].pc.Unqueue? && Possible(s, fs)
    requires forall i | 0 <= i < |fs| :: !(fs[i].Step? && fs[i].call == c)
    ensures c in Exec(s, fs).calls && Exec(s, fs).calls[c].pc.Unqueue?
    decreases |fs|
  {
    hide Do, Can;
    if fs == [] {
    } else {
      FailingStays(s, c, fs[..|fs| - 1]);
      FailingStep(Exec(s, fs[..|fs| - 1]), fs[|fs| - 1], c);
    }
  }

  /** In every run: a call whose dial or write fails does not wait. Its next step, whatever happens before it,
      returns the failure. */
  lemma FailedSendReturns(es: seq<Event>, c: nat, o: Outcome, fs: seq<Event>, p: Outcome)
    requires Possible(Start(), es) && Can(Exec(Start(), es), Step(c, o))
    requires Exec(Start(), es).calls[c].pc.Send? && !o.Written?
    requires Possible(Do(Exec(Start(), es), Step(c, o)), fs)
    requires forall i | 0 <= i < |fs| :: !(fs[i].Step? && fs[i].call == c)
    ensures var t := Exec(Do(Exec(Start(), es), Step(c, o)), fs);
            Can(t, Step(c, p)) && Do(t, Step(c, p)).calls[c].pc == Done(SendFailed)
  {
    hide Exec, Possible;
    FailingStays(Do(Exec(Start(), es), Step(c, o)), c, fs);
  }

  // ---------------------------------------------------------------- a lost connection

  /** The event ends the connection: it is dropped, or a write fails. */
  predicate Ends(s: Sys, e: Event)
    requires Can(s, e)
  {
    match e
    case Drop => s.up
    case Step(c, o) => s.calls[c].pc.Send? && o.WriteFails?
    case Handle(o) => s.handler.Resending? && o.WriteFails?
    case Teardown(o) => o.WriteFails?
    case _ => false
  }

  /** With the connection go all requests written to it and all that were queued; only a write that dials
      first brings another one up. */
  lemma EndEmpties(s: Sys, e: Event)
    requires Can(s, e)
    ensures Ends(s, e) ==> !Do(s, e).up && Do(s, e).queue == [] && Do(s, e).wire == []
    ensures !Ends(s, e) && s.up ==> Do(s, e).up
  {
    hide Without, Remove, Verdict;
  }

  lemma {:induction false} RemovalKeeps(q: seq<Elem>, c: nat, x: Elem, el: Elem)
    requires el in q
    ensures el.call != c ==> el in Without(q, c)
    ensures el != x ==> el in Remove(q, x)
  {
    if q[0] == el {
    } else {
      RemovalKeeps(q[1..], c, x, el);
    }
  }

  /** A queued request leaves the queue only with the connection, by its own caller after a failure or a
      timeout, or by the handler when it has an outcome for it. */
  lemma LeavesQueueOnly(s: Sys, e: Event, el: Elem)
    requires Can(s, e) && el in s.queue && el !in Do(s, e).queue
    ensures || Ends(s, e)
            || (e.Step? && e.call == el.call && (s.calls[e.call].pc.Unqueue? || s.calls[e.call].pc.Cleanup?))
            || (e.Handle? && s.handler.Finalizing? && s.handler.el == el)
  {
    hide Without, Remove, Verdict;
    if e.Step? { RemovalKeeps(s.queue, e.call, el, el); }
    if e.Handle? { RemovalKeeps(s.queue, 0, s.handler.el, el); }
  }

  /** The call waits for an outcome that nobody is going to send: its element is not queued, and the
      handler is past it. */
  predicate Lost(s: Sys, c: nat) {
    && c in s.calls && s.calls[c].pc.Wait? && s.calls[c].channel == Open(None)
    && (forall el <- s.queue :: el.call != c)
    && !(s.handler.Notifying? && s.handler.el.call == c)
  }

  lemma {:induction false} WithoutOthers(q: seq<Elem>, d: nat, c: nat)
    requires forall el <- q :: el.call != c
    ensures forall el <- Without(q, d) :: el.call != c
  {
    if q == [] {
    } else {
      WithoutOthers(q[1..], d, c);
    }
  }

  lemma {:induction false} RemoveOthers(q: seq<Elem>, x: Elem, c: nat)
    requires forall el <- q :: el.call != c
    ensures forall el <- Remove(q, x) :: el.call != c
  {
    if q == [] {
    } else {
      RemoveOthers(q[1..], x, c);
    }
  }

  lemma LostHandled(s: Sys, o: Outcome, c: nat)
    requires Lost(s, c) && Can(s, Handle(o))
    ensures Lost(Do(s, Handle(o)), c)
  {
    hide Remove, Verdict;
    RemoveOthers(s.queue, s.handler.el, c);
  }

  lemma LostStep(s: Sys, e: Event, c: nat)
    requires Lost(s, c) && Can(s, e) && !(e.Expire? && e.call == c)
    ensures Lost(Do(s, e), c)
  {
    if e.Handle? { LostHandled(s, e.outcome, c); }
    hide Without, HandlerStep;
    if e.Step? { WithoutOthers(s.queue, e.call, c); }
  }

  /** In every run: a call that waits when the connection ends, and whose response is not just being
      notified, has lost its request. In no continuation does it return before its timeout. */
  lemma {:induction false} LostCallTimesOut(es: seq<Event>, e: Event, c: nat, fs: seq<Event>)
    requires Possible(Start(), es) && Can(Exec(Start(), es), e) && Ends(Exec(Start(), es), e)
    requires c in Exec(Start(), es).calls && Exec(Start(), es).calls[c].pc.Wait?
    requires Exec(Start(), es).calls[c].channel == Open(None)
    requires !(Exec(Start(), es).handler.Notifying? && Exec(Start(), es).handler.el.call == c)
    requires Possible(Do(Exec(Start(), es), e), fs)
    requires forall i | 0 <= i < |fs| :: !(fs[i].Expire? && fs[i].call == c)
    ensures var t := Exec(Do(Exec(Start(), es), e), fs);
            c in t.calls && t.calls[c].pc.Wait? && t.calls[c].channel == Open(None)
  {
    hide Exec, Possible;
    var s := Exec(Start(), es);
    EndEmpties(s, e);
    assert Lost(Do(s, e), c);
    hide Do;
    LostStays(Do(s, e), c, fs);
  }

  lemma {:induction false} LostStays(s: Sys, c: nat, fs: seq<Event>)
    requires Lost(s, c) && Possible(s, fs) && forall i | 0 <= i < |fs| :: !(fs[i].Expire? && fs[i].call == c)
    ensures Lost(Exec(s, fs), c)
    decreases |fs|
  {
    hide Lost, Do, Can;
    if fs == [] {
    } else {
      LostStays(s, c, fs[..|fs| - 1]);
      LostStep(Exec(s, fs[..|fs| - 1]), fs[|fs| - 1], c);
    }
  }
}
