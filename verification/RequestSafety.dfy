/** What every interleaving of callers and response handler keeps. */
module RequestSafety {
  import opened RequestEngine

  // ---------------------------------------------------------------- the queue

  lemma {:induction false} WithoutFacts(q: seq<Elem>, c: nat)
    requires Distinct(q)
    ensures Distinct(Without(q, c))
    ensures forall el <- Without(q, c) :: el in q && el.call != c
  {
    if q != [] && q[0].call != c {
      var t := q[1..];
      assert forall el <- t :: el in q;
      WithoutFacts(t, c);
      HeadDistinct(q, Without(t, c));
    } else if q != [] {
      forall el | el in q[1..] ensures el in q && el.call != c {
        var k :| 0 <= k < |q[1..]| && q[1..][k] == el;
        assert q[k + 1] == el;
      }
    }
  }

  lemma {:induction false} RemoveFacts(q: seq<Elem>, x: Elem)
    requires Distinct(q)
    ensures Distinct(Remove(q, x))
    ensures forall el <- Remove(q, x) :: el in q && el != x
  {
    if q != [] && q[0] != x {
      var t := q[1..];
      assert forall el <- t :: el in q;
      RemoveFacts(t, x);
      HeadDistinct(q, Remove(t, x));
    } else if q != [] {
      forall el | el in q[1..] ensures el in q && el != x {
        var k :| 0 <= k < |q[1..]| && q[1..][k] == el;
        assert q[k + 1] == el;
      }
    }
  }

  lemma HeadDistinct(q: seq<Elem>, rest: seq<Elem>)
    requires q != [] && Distinct(q) && Distinct(rest)
    requires forall el <- rest :: el in q[1..]
    ensures Distinct([q[0]] + rest)
  {
    var r := [q[0]] + rest;
    forall i, j | 0 <= i < j < |r| ensures r[i].call != r[j].call {
      if i == 0 {
        assert r[j] in rest;
        var k :| 0 <= k < |q[1..]| && q[1..][k] == r[j];
        assert q[k + 1] == r[j];
      }
    }
  }

  // ---------------------------------------------------------------- the invariant is kept

  lemma AdvanceKeepsQueue(s: Sys, c: nat, o: Outcome)
    requires QueueOk(s) && c in s.calls && Steps(s.calls[c].pc)
    ensures QueueOk(Advance(s, c, o))
  {
    hide Without;
    WithoutFacts(s.queue, c);
  }

  lemma HandlerKeepsQueue(s: Sys, o: Outcome)
    requires QueueOk(s) && !s.handler.Idle? && s.handler.el.call in s.calls
    ensures QueueOk(HandlerStep(s, o))
  {
    hide Remove, Verdict, Deliver;
    if s.handler.Finalizing? { RemoveFacts(s.queue, s.handler.el); }
  }

  lemma EventKeepsQueue(s: Sys, e: Event)
    requires Inv(s) && Can(s, e)
    ensures QueueOk(Do(s, e))
  {
    hide NoteOk, CountsOk, HandlerOk, Advance, HandlerStep;
    match e
    case Step(c, o) => AdvanceKeepsQueue(s, c, o);
    case Handle(o) => HandlerKeepsQueue(s, o);
    case _ =>
  }

  lemma AdvanceKeepsHandler(s: Sys, c: nat, o: Outcome)
    requires QueueOk(s) && HandlerOk(s) && c in s.calls && Steps(s.calls[c].pc)
    ensures HandlerOk(Advance(s, c, o))
  {
    hide Without, Distinct;
    WithoutFacts(s.queue, c);
  }

  lemma HandlerKeepsHandler(s: Sys, o: Outcome)
    requires QueueOk(s) && HandlerOk(s) && !s.handler.Idle?
    ensures HandlerOk(HandlerStep(s, o))
  {
    hide Remove, Verdict, Deliver, Distinct;
    if s.handler.Finalizing? { RemoveFacts(s.queue, s.handler.el); }
  }

  lemma EventKeepsHandler(s: Sys, e: Event)
    requires Inv(s) && Can(s, e)
    ensures HandlerOk(Do(s, e))
  {
    hide NoteOk, CountsOk, Distinct, Advance, HandlerStep;
    match e
    case Step(c, o) => AdvanceKeepsHandler(s, c, o);
    case Handle(o) => HandlerKeepsHandler(s, o);
    case Receive(_, _) => QueuedAreKnown(s);
    case _ =>
  }

  lemma QueuedAreKnown(s: Sys)
    requires QueueOk(s)
    ensures forall el <- s.queue :: Known(s, el)
  {
  }

  lemma AdvanceKeepsGone(s: Sys, d: nat, o: Outcome, c: nat, el: Elem)
    requires QueueOk(s) && d in s.calls && Steps(s.calls[d].pc) && Gone(s, c, el)
    ensures Gone(Advance(s, d, o), c, el)
  {
    hide Without, Distinct;
    WithoutFacts(s.queue, d);
  }

  lemma HandlerKeepsGone(s: Sys, o: Outcome, c: nat, el: Elem)
    requires QueueOk(s) && !s.handler.Idle? && s.handler.el.call in s.calls && Gone(s, c, el)
    ensures Gone(HandlerStep(s, o), c, el)
  {
    hide Remove, Verdict, Deliver, Distinct;
    if s.handler.Finalizing? { RemoveFacts(s.queue, s.handler.el); }
  }

  /** Pushed elements stay known, and one that left the queue does not come back. */
  lemma EventKeepsGone(s: Sys, e: Event, c: nat, el: Elem)
    requires Inv(s) && Can(s, e) && Gone(s, c, el)
    ensures Gone(Do(s, e), c, el)
  {
    hide NoteOk, CountsOk, HandlerOk, Advance, HandlerStep;
    match e
    case Step(d, o) => AdvanceKeepsGone(s, d, o, c, el);
    case Handle(o) => HandlerKeepsGone(s, o, c, el);
    case _ =>
  }

  lemma EventKeepsNotes(s: Sys, e: Event, c: nat)
    requires Inv(s) && Can(s, e) && c in Do(s, e).calls
    ensures NoteOk(Do(s, e), c)
  {
    hide CountsOk, QueueOk, HandlerOk, Gone, Do, Can;
    if c in s.calls {
      var call := s.calls[c];
      assert NoteOk(s, c);
      if call.channel.Open? && call.channel.note.Some? { EventKeepsGone(s, e, c, call.channel.note.value.from); }
      if call.pc.Done? && call.pc.result.Returned? { EventKeepsGone(s, e, c, call.pc.result.from); }
      if s.handler.Notifying? && s.handler.el.call == c {
        HandlerGone(s);
        EventKeepsGone(s, e, c, s.handler.el);
      }
    }
    NotesComeFrom(s, e, c);
  }

  /** Where the notes after an event come from. */
  lemma NotesComeFrom(s: Sys, e: Event, c: nat)
    requires Can(s, e) && c in Do(s, e).calls
    ensures var t := Do(s, e).calls[c];
            t.channel.Open? && t.channel.note.Some? ==>
              c in s.calls && (s.calls[c].channel == t.channel ||
              (s.handler.Notifying? && s.handler.el.call == c && t.channel.note.value.from == s.handler.el))
    ensures var t := Do(s, e).calls[c];
            t.pc.Done? && t.pc.result.Returned? ==>
              c in s.calls && (s.calls[c].pc == t.pc ||
              (s.calls[c].channel.Open? && s.calls[c].channel.note.Some? &&
               t.pc.result.from == s.calls[c].channel.note.value.from))
  {
    hide Without, Remove, Verdict;
  }

  lemma HandlerGone(s: Sys)
    requires HandlerOk(s) && s.handler.Notifying?
    ensures Gone(s, s.handler.el.call, s.handler.el)
  {
  }

  lemma AdvanceKeepsCounts(s: Sys, c: nat, o: Outcome, d: nat)
    requires c in s.calls && Steps(s.calls[c].pc) && d in s.calls && CountsOk(s.calls[d], s.handler, d)
    ensures d in Advance(s, c, o).calls && CountsOk(Advance(s, c, o).calls[d], Advance(s, c, o).handler, d)
  {
    hide Without;
    assert Advance(s, c, o).handler == s.handler;
    assert d != c ==> Advance(s, c, o).calls[d] == s.calls[d];
  }

  lemma HandlerKeepsCounts(s: Sys, o: Outcome, d: nat)
    requires !s.handler.Idle? && s.handler.el.call in s.calls && d in s.calls && CountsOk(s.calls[d], s.handler, d)
    ensures d in HandlerStep(s, o).calls && CountsOk(HandlerStep(s, o).calls[d], HandlerStep(s, o).handler, d)
  {
    hide Remove, Deliver;
    var t := HandlerStep(s, o);
    if d != s.handler.el.call {
      assert t.calls[d] == s.calls[d];
      assert t.handler.Idle? || t.handler.el == s.handler.el;
    }
  }

  lemma EventKeepsCounts(s: Sys, e: Event, c: nat)
    requires Inv(s) && Can(s, e) && c in Do(s, e).calls
    ensures CountsOk(Do(s, e).calls[c], Do(s, e).handler, c)
  {
    hide Advance, HandlerStep, QueueOk, NoteOk;
    if c in s.calls {
      assert CountsOk(s.calls[c], s.handler, c);
      match e
      case Step(d, o) => AdvanceKeepsCounts(s, d, o, c);
      case Handle(o) => HandlerKeepsCounts(s, o, c);
      case _ =>
    } else {
      SameCalls(s, e);
    }
  }

  lemma SameCalls(s: Sys, e: Event)
    requires Can(s, e)
    ensures Do(s, e).calls.Keys == s.calls.Keys + if e.Begin? then {e.call} else {}
  {
    hide Without, Remove, Verdict, Deliver;
  }

  lemma EventKeepsInv(s: Sys, e: Event)
    requires Inv(s) && Can(s, e)
    ensures Inv(Do(s, e))
  {
    EventKeepsQueue(s, e);
    EventKeepsHandler(s, e);
    forall c | c in Do(s, e).calls
      ensures NoteOk(Do(s, e), c) && CountsOk(Do(s, e).calls[c], Do(s, e).handler, c)
    {
      EventKeepsNotes(s, e, c);
      EventKeepsCounts(s, e, c);
    }
  }

  lemma StartInv()
    ensures Inv(Start())
  {
  }

  lemma {:induction false} RunInv(s: Sys, es: seq<Event>)
    requires Inv(s) && Possible(s, es)
    ensures Inv(Exec(s, es))
  {
    hide Inv, Do, Can;
    if es == [] {
    } else {
      RunInv(s, es[..|es| - 1]);
      EventKeepsInv(Exec(s, es[..|es| - 1]), es[|es| - 1]);
    }
  }

  // ---------------------------------------------------------------- theorems

  /** In every run, whatever the camera answers and however the threads interleave, one call
      writes its request at most four times: two by its own attempts and two by resends. */
  lemma AtMostFourSends(es: seq<Event>, c: nat)
    requires Possible(Start(), es) && c in Exec(Start(), es).calls
    ensures var call := Exec(Start(), es).calls[c];
            call.writes <= 2 && call.resends <= 2 && call.writes + call.resends <= 4
  {
    hide Exec;
    RunInv(Start(), es);
    assert CountsOk(Exec(Start(), es).calls[c], Exec(Start(), es).handler, c);
  }

  /** A call is never queued twice at the same time. */
  lemma NeverQueuedTwice(es: seq<Event>, i: nat, j: nat)
    requires Possible(Start(), es) && i < j < |Exec(Start(), es).queue|
    ensures Exec(Start(), es).queue[i].call != Exec(Start(), es).queue[j].call
  {
    hide Exec;
    RunInv(Start(), es);
  }

  predicate Queued(s: Sys, c: nat) { exists el <- s.queue :: el.call == c }

  /** A call that returned without being aborted, and whose request is queued nevertheless. */
  predicate LeftQueued(s: Sys, c: nat) {
    c in s.calls && s.calls[c].pc.Done? && !s.calls[c].pc.result.Aborted? && Queued(s, c)
  }

  lemma StaleNote(s: Sys, c: nat)
    requires Inv(s) && LeftQueued(s, c)
    ensures s.calls[c].attempt == 1 && s.calls[c].pc.result.Returned? && s.calls[c].pc.result.from == Elem(c, 0)
  {
    var el :| el in s.queue && el.call == c;
    assert NoteOk(s, c) && CountsOk(s.calls[c], s.handler, c);
  }

  /** A call that returned has left the queue, except where it was aborted, or where its second
      attempt was woken by the removal of its first attempt's element. */
  lemma LeftQueuedOnlyByStaleNote(es: seq<Event>, c: nat)
    requires Possible(Start(), es) && LeftQueued(Exec(Start(), es), c)
    ensures var call := Exec(Start(), es).calls[c];
            call.attempt == 1 && call.pc.result.Returned? && call.pc.result.from == Elem(c, 0)
  {
    hide Exec;
    RunInv(Start(), es);
    StaleNote(Exec(Start(), es), c);
  }
}
