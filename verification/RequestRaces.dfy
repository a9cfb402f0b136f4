/** Exactly when a request is left in the queue by a call that returned, and runs that reach the
    bounds. */
module RequestRaces {
  import opened RequestEngine
  import opened RequestSafety

  predicate Goes(s: Sys, e: Event, t: Sys) { Can(s, e) && Do(s, e) == t }

  lemma ExecOn(s: Sys, es: seq<Event>, u: Sys, e: Event, t: Sys)
    requires Possible(s, es) && Exec(s, es) == u && Goes(u, e, t)
    ensures Possible(s, es + [e]) && Exec(s, es + [e]) == t
  {
    hide Can, Do;
    assert (es + [e])[..|es|] == es;
  }

  lemma ExecNone(s: Sys)
    ensures Possible(s, []) && Exec(s, []) == s
  {
  }

  // ---------------------------------------------------------------- exactly when a return is stale

  /** The handler removed the first attempt's element and has not notified the caller yet. */
  predicate OwesStaleNote(s: Sys, c: nat) { s.handler.Notifying? && s.handler.el == Elem(c, 0) }

  /** A call in its second attempt that no note of its first attempt can reach any more. */
  predicate Safe(s: Sys, c: nat) {
    && c in s.calls
    && s.calls[c].attempt == 1
    && !OwesStaleNote(s, c)
    && (var call := s.calls[c];
        && (!call.pc.Subscribe? && call.channel.Open? && call.channel.note.Some? ==>
              call.channel.note.value.from != Elem(c, 0))
        && (call.pc.Done? && call.pc.result.Returned? ==> call.pc.result.from != Elem(c, 0)))
  }

  lemma AttemptStays(s: Sys, e: Event, c: nat)
    requires Can(s, e) && c in s.calls && CountsOk(s.calls[c], s.handler, c) && s.calls[c].attempt == 1
    ensures c in Do(s, e).calls && Do(s, e).calls[c].attempt == 1
    ensures Do(s, e).calls[c].pc.Subscribe? ==> s.calls[c].pc.Subscribe?
  {
    hide Without, Remove, Verdict, Deliver;
  }

  lemma NoNewDebt(s: Sys, e: Event, c: nat)
    requires Can(s, e) && Elem(c, 0) !in s.queue && !OwesStaleNote(s, c)
    ensures !OwesStaleNote(Do(s, e), c)
  {
    hide Without, Remove, Verdict, Deliver;
  }

  /** The channel of a call changes hands: after subscribing it is new, and then only notes come in. */
  lemma SubscribeOpens(s: Sys, e: Event, c: nat)
    requires Can(s, e) && c in s.calls && s.calls[c].pc.Subscribe? && !Do(s, e).calls[c].pc.Subscribe?
    ensures Do(s, e).calls[c].channel == Open(None)
  {
    hide Without, Remove, Verdict, Deliver;
  }

  lemma EventKeepsSafe(s: Sys, e: Event, c: nat)
    requires Inv(s) && Can(s, e) && Safe(s, c)
    ensures Safe(Do(s, e), c)
  {
    hide Do, Can, Known, Gone, NoteOk, HandlerOk, CountsOk;
    assert CountsOk(s.calls[c], s.handler, c);
    AttemptStays(s, e, c);
    NoNewDebt(s, e, c);
    NotesComeFrom(s, e, c);
    if s.calls[c].pc.Subscribe? && !Do(s, e).calls[c].pc.Subscribe? { SubscribeOpens(s, e, c); }
    if s.calls[c].pc.Subscribe? { NotDoneYet(s, e, c); }
  }

  lemma NotDoneYet(s: Sys, e: Event, c: nat)
    requires Can(s, e) && c in s.calls && s.calls[c].pc.Subscribe?
    ensures c in Do(s, e).calls && !Do(s, e).calls[c].pc.Done?
  {
    hide Without, Remove, Verdict, Deliver;
  }

  lemma {:induction false} RunKeepsSafe(s: Sys, fs: seq<Event>, c: nat)
    requires Inv(s) && Safe(s, c) && Possible(s, fs)
    ensures Inv(Exec(s, fs)) && Safe(Exec(s, fs), c)
  {
    hide Inv, Safe, Do, Can;
    if fs == [] {
    } else {
      RunKeepsSafe(s, fs[..|fs| - 1], c);
      EventKeepsInv(Exec(s, fs[..|fs| - 1]), fs[|fs| - 1]);
      EventKeepsSafe(Exec(s, fs[..|fs| - 1]), fs[|fs| - 1], c);
    }
  }

  lemma SafeReturns(s: Sys, fs: seq<Event>, c: nat)
    requires Inv(s) && Safe(s, c) && Possible(s, fs)
    ensures !LeftQueued(Exec(s, fs), c)
  {
    hide Exec, Inv;
    RunKeepsSafe(s, fs, c);
    if LeftQueued(Exec(s, fs), c) { StaleNote(Exec(s, fs), c); }
  }

  function With(s: Sys, c: nat, call: Call): Sys { s.(calls := s.calls[c := call]) }

  function Sending(s: Sys, c: nat): Sys { s.(handler := Idle, queue := s.queue + [Elem(c, 1)]) }

  function SentOff(s: Sys, c: nat): Sys { s.(up := true, wire := (if s.up then s.wire else []) + [Some(c)]) }

  lemma StaleGoes(s: Sys, c: nat, x: Call)
    requires c in s.calls && x == s.calls[c] && x.pc.Subscribe? && x.attempt == 1 && OwesStaleNote(s, c)
    ensures var o := x.(channel := Open(None), pc := Enqueue);
            var n := o.(channel := Open(Some(Note(s.handler.status, Elem(c, 0)))));
            && Goes(s, Step(c, Written), With(s, c, o))
            && Goes(With(s, c, o), Handle(Written), With(s, c, n).(handler := Idle))
            && Goes(With(s, c, n).(handler := Idle), Step(c, Written), Sending(With(s, c, n.(pc := Send)), c))
  {
    assert s.calls[c := x] == s.calls;
  }

  lemma CollectGoes(s: Sys, c: nat, n: Call)
    requires n.pc.Send? && n.attempt == 1 && n.channel.Open? && n.channel.note.Some?
    ensures var q := Sending(s, c);
            var w := n.(pc := Wait, writes := n.writes + 1);
            var d := w.(channel := Closed,
                       pc := Done(Returned(n.channel.note.value.status, n.channel.note.value.from)));
            && Goes(With(q, c, n), Step(c, Written), SentOff(With(q, c, w), c))
            && Goes(SentOff(With(q, c, w), c), Collect(c, false), SentOff(With(q, c, d), c))
            && LeftQueued(SentOff(With(q, c, d), c), c)
  {
    var q := Sending(s, c);
    assert q.queue[|q.queue| - 1] == Elem(c, 1);
  }

  lemma StaleReturn(s: Sys, c: nat) returns (fs: seq<Event>)
    requires c in s.calls && s.calls[c].pc.Subscribe? && s.calls[c].attempt == 1 && OwesStaleNote(s, c)
    ensures Possible(s, fs) && LeftQueued(Exec(s, fs), c)
  {
    hide Goes, Exec, Possible, LeftQueued;
    var x := s.calls[c];
    var o := x.(channel := Open(None), pc := Enqueue);
    var n := o.(channel := Open(Some(Note(s.handler.status, Elem(c, 0)))));
    var m := n.(pc := Send);
    var w := m.(pc := Wait, writes := m.writes + 1);
    var d := w.(channel := Closed, pc := Done(Returned(s.handler.status, Elem(c, 0))));
    StaleGoes(s, c, x);
    CollectGoes(s, c, m);
    ExecNone(s);
    var q := Sending(s, c);
    assert Sending(With(s, c, m), c) == With(q, c, m);
    ExecOn(s, [], s, Step(c, Written), With(s, c, o)); fs := [] + [Step(c, Written)];
    ExecOn(s, fs, With(s, c, o), Handle(Written), With(s, c, n).(handler := Idle)); fs := fs + [Handle(Written)];
    ExecOn(s, fs, With(s, c, n).(handler := Idle), Step(c, Written), With(q, c, m)); fs := fs + [Step(c, Written)];
    ExecOn(s, fs, With(q, c, m), Step(c, Written), SentOff(With(q, c, w), c)); fs := fs + [Step(c, Written)];
    ExecOn(s, fs, SentOff(With(q, c, w), c), Collect(c, false), SentOff(With(q, c, d), c));
    fs := fs + [Collect(c, false)];
  }

  /** When a call begins its second attempt, some continuation lets it return with its request
      still queued if and only if the handler, at that moment, has removed the first attempt's
      element and not yet notified the caller. */
  lemma LeftQueuedIff(es: seq<Event>, c: nat)
    requires Possible(Start(), es) && c in Exec(Start(), es).calls
    requires Exec(Start(), es).calls[c].pc.Subscribe? && Exec(Start(), es).calls[c].attempt == 1
    ensures (exists fs: seq<Event> :: Possible(Exec(Start(), es), fs) &&
               LeftQueued(Exec(Exec(Start(), es), fs), c)) <==>
            OwesStaleNote(Exec(Start(), es), c)
  {
    hide Inv, Do, Can, LeftQueued;
    StartInv();
    RunInv(Start(), es);
    var s := Exec(Start(), es);
    hide Exec;
    if OwesStaleNote(s, c) {
      var fs := StaleReturn(s, c);
    } else {
      forall fs: seq<Event> | Possible(s, fs) ensures !LeftQueued(Exec(s, fs), c) { SafeReturns(s, fs, c); }
    }
  }

  // ---------------------------------------------------------------- runs

  const E0 := Elem(0, 0)
  const E1 := Elem(0, 1)
  const GO := Step(0, Written)
  const HANDLE := Handle(Written)
  const OK_RESPONSE := Resp(200, false, false)
  const CHALLENGE := Resp(401, true, true)

  /** A system with call 0 only. */
  function Solo(call: Call, q: seq<Elem>, h: Handler, up: bool, w: seq<Option<nat>>, log: seq<Match>): Sys {
    Sys(map[0 := call], q, h, up, w, log)
  }

  const ASKED := Call(Wait, 0, 0, Open(None), 1, 0)

  /** Call 0 sent its request and waits. */
  const WAITING := Solo(ASKED, [E0], Idle, true, [Some(0)], [])

  lemma WaitingGoes()
    ensures Goes(Start(), Begin(0), Solo(NEW_CALL, [], Idle, false, [], []))
    ensures Goes(Solo(NEW_CALL, [], Idle, false, [], []), GO,
                 Solo(Call(Enqueue, 0, 0, Open(None), 0, 0), [], Idle, false, [], []))
    ensures Goes(Solo(Call(Enqueue, 0, 0, Open(None), 0, 0), [], Idle, false, [], []), GO,
                 Solo(Call(Send, 0, 0, Open(None), 0, 0), [E0], Idle, false, [], []))
    ensures Goes(Solo(Call(Send, 0, 0, Open(None), 0, 0), [E0], Idle, false, [], []), GO, WAITING)
  {
  }

  lemma ReachWaiting() returns (es: seq<Event>)
    ensures Possible(Start(), es) && Exec(Start(), es) == WAITING
  {
    hide Goes, Exec, Possible;
    WaitingGoes();
    ExecNone(Start());
    ExecOn(Start(), [], Start(), Begin(0), Solo(NEW_CALL, [], Idle, false, [], [])); es := [] + [Begin(0)];
    var enq := Solo(Call(Enqueue, 0, 0, Open(None), 0, 0), [], Idle, false, [], []);
    var snd := Solo(Call(Send, 0, 0, Open(None), 0, 0), [E0], Idle, false, [], []);
    ExecOn(Start(), es, Solo(NEW_CALL, [], Idle, false, [], []), GO, enq); es := es + [GO];
    ExecOn(Start(), es, enq, GO, snd); es := es + [GO];
    ExecOn(Start(), es, snd, GO, WAITING); es := es + [GO];
  }

  const FINE_LOG := [Match(Some(0), Some(0), OK_RESPONSE, Some(Fine))]

  lemma AnswerGoes()
    ensures Goes(WAITING, Receive(OK_RESPONSE, true), Solo(ASKED, [E0], Peeked(E0, OK_RESPONSE, Some(0)), true, [], []))
    ensures Goes(Solo(ASKED, [E0], Peeked(E0, OK_RESPONSE, Some(0)), true, [], []), HANDLE,
                 Solo(ASKED, [E0], Finalizing(E0, Fine), true, [], FINE_LOG))
    ensures Goes(Solo(ASKED, [E0], Finalizing(E0, Fine), true, [], FINE_LOG), HANDLE,
                 Solo(ASKED, [], Notifying(E0, Fine), true, [], FINE_LOG))
  {
  }

  /** Timing out, cleaning up and starting over, whatever the handler does meanwhile. */
  lemma RetryGoes(x: Call, q: seq<Elem>, h: Handler, w: seq<Option<nat>>, log: seq<Match>)
    requires x.pc == Wait && x.attempt == 0 && (q == [] || q == [E0])
    ensures Goes(Solo(x, q, h, true, w, log), Expire(0, false),
                 Solo(x.(channel := Closed, pc := Cleanup), q, h, true, w, log))
    ensures Goes(Solo(x.(channel := Closed, pc := Cleanup), q, h, true, w, log), GO,
                 Solo(x.(channel := Closed, pc := Reset), [], h, true, w, log))
    ensures Goes(Solo(x.(channel := Closed, pc := Reset), [], h, true, w, log), GO,
                 Solo(x.(channel := Closed, pc := Subscribe, retried := 0, attempt := 1), [], h, true, w, log))
  {
  }

  /** The race is reached: the response to the first attempt is taken off the queue just before the
      caller's timer fires. */
  lemma StaleNoteReachable() returns (es: seq<Event>)
    ensures Possible(Start(), es) && OwesStaleNote(Exec(Start(), es), 0)
    ensures 0 in Exec(Start(), es).calls && Exec(Start(), es).calls[0].pc.Subscribe?
            && Exec(Start(), es).calls[0].attempt == 1
  {
    hide Goes, Exec, Possible;
    es := ReachWaiting();
    AnswerGoes();
    var p := Solo(ASKED, [E0], Peeked(E0, OK_RESPONSE, Some(0)), true, [], []);
    var f := Solo(ASKED, [E0], Finalizing(E0, Fine), true, [], FINE_LOG);
    var h := Notifying(E0, Fine);
    var n := Solo(ASKED, [], h, true, [], FINE_LOG);
    ExecOn(Start(), es, WAITING, Receive(OK_RESPONSE, true), p); es := es + [Receive(OK_RESPONSE, true)];
    ExecOn(Start(), es, p, HANDLE, f); es := es + [HANDLE];
    ExecOn(Start(), es, f, HANDLE, n); es := es + [HANDLE];
    es := Retry(es, ASKED, [], h, [], FINE_LOG);
  }

  lemma Retry(es: seq<Event>, x: Call, q: seq<Elem>, h: Handler, w: seq<Option<nat>>, log: seq<Match>)
    returns (fs: seq<Event>)
    requires x.pc == Wait && x.attempt == 0 && (q == [] || q == [E0])
    requires Possible(Start(), es) && Exec(Start(), es) == Solo(x, q, h, true, w, log)
    ensures Possible(Start(), fs)
    ensures Exec(Start(), fs) ==
            Solo(x.(channel := Closed, pc := Subscribe, retried := 0, attempt := 1), [], h, true, w, log)
  {
    hide Goes, Exec, Possible, Solo;
    RetryGoes(x, q, h, w, log);
    var c := Solo(x.(channel := Closed, pc := Cleanup), q, h, true, w, log);
    var r := Solo(x.(channel := Closed, pc := Reset), [], h, true, w, log);
    var z := Solo(x.(channel := Closed, pc := Subscribe, retried := 0, attempt := 1), [], h, true, w, log);
    ExecOn(Start(), es, Solo(x, q, h, true, w, log), Expire(0, false), c); fs := es + [Expire(0, false)];
    ExecOn(Start(), fs, c, GO, r); fs := fs + [GO];
    ExecOn(Start(), fs, r, GO, z); fs := fs + [GO];
  }

  /** A challenged response and the resend it causes. */
  lemma ResendGoes(x: Call, el: Elem, rest: seq<Option<nat>>, log: seq<Match>)
    requires x.retried == 0 && el.call == 0
    ensures var log' := log + [Match(Some(0), Some(0), CHALLENGE, None)];
            var y := x.(retried := 1);
            && Goes(Solo(x, [el], Idle, true, [Some(0)] + rest, log), Receive(CHALLENGE, true),
                    Solo(x, [el], Peeked(el, CHALLENGE, Some(0)), true, rest, log))
            && Goes(Solo(x, [el], Peeked(el, CHALLENGE, Some(0)), true, rest, log), HANDLE,
                    Solo(x, [el], Claimed(el), true, rest, log'))
            && Goes(Solo(x, [el], Claimed(el), true, rest, log'), HANDLE,
                    Solo(y, [el], Resending(el), true, rest, log'))
            && Goes(Solo(y, [el], Resending(el), true, rest, log'), HANDLE,
                    Solo(y.(resends := x.resends + 1), [el], Idle, true, rest + [Some(0)], log'))
  {
    assert ([Some(0)] + rest)[1..] == rest;
  }

  lemma Resend(es: seq<Event>, x: Call, el: Elem, rest: seq<Option<nat>>, log: seq<Match>)
      returns (fs: seq<Event>, log': seq<Match>)
    requires x.retried == 0 && el.call == 0
    requires Possible(Start(), es) && Exec(Start(), es) == Solo(x, [el], Idle, true, [Some(0)] + rest, log)
    ensures Possible(Start(), fs)
    ensures Exec(Start(), fs) ==
            Solo(x.(retried := 1, resends := x.resends + 1), [el], Idle, true, rest + [Some(0)], log')
  {
    hide Goes, Exec, Possible, Solo;
    ResendGoes(x, el, rest, log);
    log' := log + [Match(Some(0), Some(0), CHALLENGE, None)];
    var y := x.(retried := 1);
    var p := Solo(x, [el], Peeked(el, CHALLENGE, Some(0)), true, rest, log);
    var c := Solo(x, [el], Claimed(el), true, rest, log');
    var r := Solo(y, [el], Resending(el), true, rest, log');
    ExecOn(Start(), es, Solo(x, [el], Idle, true, [Some(0)] + rest, log), Receive(CHALLENGE, true), p);
    fs := es + [Receive(CHALLENGE, true)];
    ExecOn(Start(), fs, p, HANDLE, c); fs := fs + [HANDLE];
    ExecOn(Start(), fs, c, HANDLE, r); fs := fs + [HANDLE];
    ExecOn(Start(), fs, r, HANDLE, Solo(y.(resends := x.resends + 1), [el], Idle, true, rest + [Some(0)], log'));
    fs := fs + [HANDLE];
  }

  lemma SecondGoes(x: Call, w: seq<Option<nat>>, log: seq<Match>)
    requires x.pc == Subscribe && x.attempt == 1
    ensures var e := x.(channel := Open(None), pc := Enqueue);
            && Goes(Solo(x, [], Idle, true, w, log), GO, Solo(e, [], Idle, true, w, log))
            && Goes(Solo(e, [], Idle, true, w, log), GO, Solo(e.(pc := Send), [E1], Idle, true, w, log))
            && Goes(Solo(e.(pc := Send), [E1], Idle, true, w, log), GO,
                    Solo(e.(pc := Wait, writes := x.writes + 1), [E1], Idle, true, w + [Some(0)], log))
  {
  }

  /** The bound of four is reached: both attempts are challenged and the first answer gets lost. */
  lemma FourSendsReached() returns (es: seq<Event>)
    ensures Possible(Start(), es) && 0 in Exec(Start(), es).calls
    ensures Exec(Start(), es).calls[0].writes == 2 && Exec(Start(), es).calls[0].resends == 2
  {
    hide Goes, Exec, Possible;
    es := ReachWaiting();
    var log: seq<Match>;
    assert [Some(0)] + [] == [Some(0)];
    es, log := Resend(es, ASKED, E0, [], []);
    var x := ASKED.(retried := 1, resends := 1);
    var w: seq<Option<nat>> := [] + [Some(0)];
    es := Retry(es, x, [E0], Idle, w, log);
    var y := x.(channel := Closed, pc := Subscribe, retried := 0, attempt := 1);
    SecondGoes(y, w, log);
    var e := y.(channel := Open(None), pc := Enqueue);
    var z := e.(pc := Wait, writes := y.writes + 1);
    ExecOn(Start(), es, Solo(y, [], Idle, true, w, log), GO, Solo(e, [], Idle, true, w, log)); es := es + [GO];
    ExecOn(Start(), es, Solo(e, [], Idle, true, w, log), GO, Solo(e.(pc := Send), [E1], Idle, true, w, log));
    es := es + [GO];
    ExecOn(Start(), es, Solo(e.(pc := Send), [E1], Idle, true, w, log), GO,
           Solo(z, [E1], Idle, true, w + [Some(0)], log));
    es := es + [GO];
    assert w + [Some(0)] == [Some(0)] + w;
    es, log := Resend(es, z, E1, w, log);
  }
}
