/** With any number of calls in progress, exactly when every response will be handled for the call it
    answers. Nothing fails here: every write succeeds, nothing times out, and the camera answers every
    request, in order. */
module RequestTuning {
  import opened RequestEngine
  import opened RequestSafety
  import opened RequestRaces

  predicate Smooth(e: Event) {
    match e
    case Begin(_) => true
    case Step(_, o) => o.Written?
    case Handle(o) => o.Written?
    case Collect(_, aborted) => !aborted
    case Receive(_, solicited) => solicited
    case _ => false
  }

  predicate AllSmooth(es: seq<Event>) { forall i | 0 <= i < |es| :: Smooth(es[i]) }

  predicate NoneBegins(es: seq<Event>) { forall i | 0 <= i < |es| :: !es[i].Begin? }

  /** A response was handled for the call it answers. */
  predicate Right(m: Match) { m.answers.Some? && m.answers == m.handledFor }

  predicate RightFrom(log: seq<Match>, n: nat) { forall i | n <= i < |log| :: Right(log[i]) }

  // ---------------------------------------------------------------- the condition

  /** A call that has not written its request yet. */
  predicate Early(s: Sys, c: nat) { c in s.calls && Steps(s.calls[c].pc) }

  predicate NoneEarly(s: Sys) { forall c <- s.calls :: !Early(s, c) }

  /** What the wire looks like if the requests of a queue are on it in order. */
  function OnWire(q: seq<Elem>): (w: seq<Option<nat>>)
    ensures |w| == |q| && forall i | 0 <= i < |q| :: w[i] == Some(q[i].call)
  {
    seq(|q|, i requires 0 <= i < |q| => Some(q[i].call))
  }

  /** The response in hand will be answered by a resend. */
  predicate WillResend(s: Sys) {
    || s.handler.Claimed? || s.handler.Resending?
    || (s.handler.Peeked? && s.handler.el.call in s.calls
        && Verdict(s.handler.resp, s.calls[s.handler.el.call].retried).None?)
  }

  /** The queue without the element that is being finished. */
  function Remaining(s: Sys): seq<Elem> {
    if (s.handler.Peeked? || s.handler.Finalizing?) && s.queue != [] then s.queue[1..] else s.queue
  }

  /** An early call's request is the next one the queue expects on the wire. */
  predicate TakesTurn(s: Sys, q: seq<Elem>, u: nat)
    requires u in s.calls
  {
    if s.calls[u].pc.Send? then |s.wire| < |q| && q[|s.wire|].call == u else |q| == |s.wire|
  }

  /** The i-th request on the wire cannot be overtaken when it is resent: it is not resent any more, or
      nothing comes behind it. */
  predicate Keeps(s: Sys, q: seq<Elem>, i: nat) {
    i < |q| && q[i].call in s.calls && (s.calls[q[i].call].retried > 0 || (i == |s.wire| - 1 && NoneEarly(s)))
  }

  predicate Ordered(s: Sys, q: seq<Elem>) {
    && s.wire <= OnWire(q)
    && (forall u <- s.calls, v <- s.calls | Early(s, u) && Early(s, v) :: u == v)
    && (forall u <- s.calls | Early(s, u) :: TakesTurn(s, q, u))
    && (forall i | 0 <= i < |s.wire| :: Keeps(s, q, i))
  }

  /** The response in hand is the right one. If it is going to be answered by a resend, no other request
      is on the wire or can get there first. Otherwise the requests on the wire are the first ones of
      the queue, in its order; at most one call has not written yet, and it is that call's turn; and no
      request on the wire but the very last one can still be resent. */
  predicate InTune(s: Sys) {
    && (s.handler.Peeked? ==> s.handler.of == Some(s.handler.el.call))
    && if WillResend(s) then s.wire == [] && NoneEarly(s) else Ordered(s, Remaining(s))
  }

  // ---------------------------------------------------------------- what smooth runs keep

  predicate Plain(call: Call) {
    call.attempt == 0 && (call.pc.Subscribe? || call.pc.Enqueue? || call.pc.Send? || call.pc.Wait? || call.pc.Done?)
  }

  predicate SmoothInv(s: Sys) {
    && Inv(s)
    && (forall c <- s.calls :: Plain(s.calls[c]))
    && (!s.handler.Idle? && !s.handler.Notifying? ==> s.queue != [] && s.queue[0] == s.handler.el)
    && (!s.up ==> s.wire == [])
  }

  lemma SmoothStep(s: Sys, c: nat)
    requires SmoothInv(s) && Can(s, Step(c, Written))
    ensures SmoothInv(Do(s, Step(c, Written)))
  {
    hide Inv, Without;
    EventKeepsInv(s, Step(c, Written));
    assert Plain(s.calls[c]);
  }

  lemma SmoothHandle(s: Sys)
    requires SmoothInv(s) && Can(s, Handle(Written))
    ensures SmoothInv(Do(s, Handle(Written)))
  {
    hide Inv, Remove, Verdict, Deliver;
    EventKeepsInv(s, Handle(Written));
    assert Plain(s.calls[s.handler.el.call]);
  }

  lemma SmoothKeeps(s: Sys, e: Event)
    requires SmoothInv(s) && Can(s, e) && Smooth(e)
    ensures SmoothInv(Do(s, e))
  {
    hide Inv, Advance, HandlerStep;
    match e
    case Step(c, _) => SmoothStep(s, c);
    case Handle(_) => SmoothHandle(s);
    case _ => EventKeepsInv(s, e);
  }

  lemma {:induction false} SmoothRunInv(es: seq<Event>)
    requires Possible(Start(), es) && AllSmooth(es)
    ensures SmoothInv(Exec(Start(), es))
  {
    hide SmoothInv, Can, Do;
    if es == [] {
      SmoothStart();
    } else {
      SmoothRunInv(es[..|es| - 1]);
      assert Smooth(es[|es| - 1]);
      SmoothKeeps(Exec(Start(), es[..|es| - 1]), es[|es| - 1]);
    }
  }

  lemma SmoothStart()
    ensures SmoothInv(Start())
  {
  }

  // ---------------------------------------------------------------- in tune, nothing goes wrong

  lemma EarlyKeepsTune(s: Sys, c: nat)
    requires SmoothInv(s) && InTune(s) && Can(s, Step(c, Written))
    ensures InTune(Do(s, Step(c, Written)))
  {
    hide Inv, Verdict, Without;
    var t := Do(s, Step(c, Written));
    assert Early(s, c) && Plain(s.calls[c]);
    assert !WillResend(s);
    assert forall d <- s.calls | d != c :: t.calls[d] == s.calls[d];
    InvHandler(s);
    SameRetried(s, t);
    EarlyKeepsOrder(s, c);
  }

  lemma SameRetried(s: Sys, t: Sys)
    requires s.handler == t.handler && (forall c <- s.calls :: c in t.calls && t.calls[c].retried == s.calls[c].retried)
    requires !s.handler.Idle? ==> s.handler.el.call in s.calls
    ensures WillResend(s) == WillResend(t)
  {
    hide Verdict;
  }

  /** The one early call has written. */
  lemma WrittenInTurn(s: Sys, t: Sys, q: seq<Elem>, c: nat)
    requires Ordered(s, q) && Early(s, c) && s.calls[c].pc.Send? && NoneEarly(t) && t.wire == s.wire + [Some(c)]
    requires forall d <- s.calls :: d in t.calls && t.calls[d].retried == s.calls[d].retried
    ensures Ordered(t, q)
  {
    assert TakesTurn(s, q, c);
    forall i | 0 <= i < |t.wire| ensures Keeps(t, q, i) {
      if i < |s.wire| { assert Keeps(s, q, i); }
    }
    assert t.wire <= OnWire(q);
  }

  /** The one early call has got its channel, or its place in the queue. */
  lemma PreparedInTurn(s: Sys, t: Sys, q: seq<Elem>, r: seq<Elem>, c: nat)
    requires Ordered(s, q) && Early(s, c) && !s.calls[c].pc.Send? && c in t.calls && t.wire == s.wire
    requires (r == q && Early(t, c) && !t.calls[c].pc.Send?) || (r == q + [Elem(c, 0)] && t.calls[c].pc.Send?)
    requires forall d <- t.calls | Early(t, d) :: d == c
    requires forall d <- s.calls :: d in t.calls && t.calls[d].retried == s.calls[d].retried
    ensures Ordered(t, r)
  {
    assert TakesTurn(s, q, c) && TakesTurn(t, r, c);
    assert OnWire(q) <= OnWire(r);
    forall i | 0 <= i < |t.wire| ensures Keeps(t, r, i) { assert Keeps(s, q, i); }
  }

  lemma EarlyKeepsOrder(s: Sys, c: nat)
    requires SmoothInv(s) && Ordered(s, Remaining(s)) && Can(s, Step(c, Written))
    ensures var t := Do(s, Step(c, Written)); Ordered(t, Remaining(t))
  {
    hide Inv, Without, OnWire, Keeps, TakesTurn;
    var t := Do(s, Step(c, Written));
    assert Early(s, c) && Plain(s.calls[c]);
    assert forall d <- t.calls | d != c :: !Early(t, d);
    if s.calls[c].pc.Send? {
      WrittenInTurn(s, t, Remaining(s), c);
    } else {
      PreparedInTurn(s, t, Remaining(s), Remaining(t), c);
    }
  }

  lemma ReceiveKeepsTune(s: Sys, resp: Resp)
    requires SmoothInv(s) && InTune(s) && Can(s, Receive(resp, true))
    ensures InTune(Do(s, Receive(resp, true))) && Do(s, Receive(resp, true)).log == s.log
  {
    hide Inv, Verdict;
    var t := Do(s, Receive(resp, true));
    assert s.wire[0] == OnWire(s.queue)[0];
    assert Keeps(s, s.queue, 0);
    if s.calls[s.queue[0].call].retried > 0 {
      RetriedIsFinal(resp, s.calls[s.queue[0].call].retried);
      PopKeepsOrder(s, t);
    } else if !WillResend(t) {
      PopKeepsOrder(s, t);
    } else {
      assert NoneEarly(t);
    }
  }

  lemma RetriedIsFinal(resp: Resp, retried: nat)
    requires retried > 0
    ensures Verdict(resp, retried).Some?
  {
  }

  /** Taking the first request off the wire and off the queue. */
  lemma PopKeepsOrder(s: Sys, t: Sys)
    requires Ordered(s, s.queue) && s.wire != [] && s.queue != []
    requires t.calls == s.calls && t.wire == s.wire[1..] && Remaining(t) == s.queue[1..]
    ensures Ordered(t, Remaining(t))
  {
    var r := Remaining(t);
    assert forall u | u in s.calls :: Early(s, u) == Early(t, u);
    assert NoneEarly(s) == NoneEarly(t);
    forall i | 0 <= i < |t.wire| ensures Keeps(t, r, i) { assert Keeps(s, s.queue, i + 1); }
    forall u | u in t.calls && Early(t, u) ensures TakesTurn(t, r, u) { assert TakesTurn(s, s.queue, u); }
    assert forall i | 0 <= i < |t.wire| :: t.wire[i] == s.wire[i + 1] == OnWire(s.queue)[i + 1] == OnWire(r)[i];
  }

  /** Steps of the handler that do not resend neither help nor harm. */
  lemma FinishingIsNeutral(s: Sys)
    requires SmoothInv(s) && Can(s, Handle(Written)) && !WillResend(s)
    requires s.handler.Peeked? ==> s.handler.of == Some(s.handler.el.call)
    ensures var t := Do(s, Handle(Written));
            && InTune(t) == InTune(s) && !WillResend(t) && !t.handler.Peeked? && |t.log| >= |s.log|
            && RightFrom(t.log, |s.log|)
  {
    hide Inv, Deliver, Ordered, Verdict;
    var t := Do(s, Handle(Written));
    assert Remaining(t) == Remaining(s) by { FirstIsRemoved(s); }
    assert forall c <- s.calls :: t.calls[c].pc == s.calls[c].pc && t.calls[c].retried == s.calls[c].retried;
    OrderFrame(s, t, Remaining(s));
  }

  lemma FirstIsRemoved(s: Sys)
    ensures s.queue != [] ==> Remove(s.queue, s.queue[0]) == s.queue[1..]
  {
  }

  lemma OrderFrame(s: Sys, t: Sys, q: seq<Elem>)
    requires t.wire == s.wire && t.calls.Keys == s.calls.Keys
    requires forall c <- s.calls :: t.calls[c].pc == s.calls[c].pc && t.calls[c].retried == s.calls[c].retried
    ensures Ordered(t, q) == Ordered(s, q) && NoneEarly(t) == NoneEarly(s)
  {
    assert forall u :: Early(s, u) == Early(t, u);
    assert forall i: nat :: Keeps(s, q, i) == Keeps(t, q, i);
    assert forall u | u in s.calls :: TakesTurn(s, q, u) == TakesTurn(t, q, u);
  }

  lemma ResendKeepsTune(s: Sys)
    requires SmoothInv(s) && InTune(s) && Can(s, Handle(Written)) && WillResend(s)
    ensures InTune(Do(s, Handle(Written))) && RightFrom(Do(s, Handle(Written)).log, |s.log|)
  {
    hide Inv, Verdict, Ordered, Deliver, Remove;
    var t := Do(s, Handle(Written));
    assert forall c <- s.calls :: t.calls[c].pc == s.calls[c].pc;
    assert NoneEarly(t);
    if s.handler.Resending? { ResentIsOrdered(t); }
  }

  lemma ResentIsOrdered(t: Sys)
    requires t.queue != [] && t.wire == [Some(t.queue[0].call)] && NoneEarly(t) && t.queue[0].call in t.calls
    ensures Ordered(t, t.queue)
  {
    assert Keeps(t, t.queue, 0);
    assert t.wire <= OnWire(t.queue);
  }

  lemma HandleKeepsTune(s: Sys)
    requires SmoothInv(s) && InTune(s) && Can(s, Handle(Written))
    ensures InTune(Do(s, Handle(Written))) && RightFrom(Do(s, Handle(Written)).log, |s.log|)
    ensures |Do(s, Handle(Written)).log| >= |s.log|
  {
    hide SmoothInv, Ordered, Verdict, Deliver;
    if WillResend(s) { ResendKeepsTune(s); } else { FinishingIsNeutral(s); }
  }

  lemma CollectKeepsTune(s: Sys, c: nat)
    requires SmoothInv(s) && InTune(s) && Can(s, Collect(c, false))
    ensures InTune(Do(s, Collect(c, false))) && Do(s, Collect(c, false)).log == s.log
  {
    hide Inv, Verdict;
    var t := Do(s, Collect(c, false));
    assert forall d <- s.calls :: t.calls[d].retried == s.calls[d].retried && Early(t, d) == Early(s, d);
    assert NoneEarly(t) == NoneEarly(s);
    SameRetried(s, t) by { hide InTune; assert HandlerOk(s) by { InvHandler(s); } }
    if !WillResend(s) {
      var q := Remaining(s);
      forall i | 0 <= i < |t.wire| ensures Keeps(t, q, i) { assert Keeps(s, q, i); }
      forall u | u in t.calls && Early(t, u) ensures TakesTurn(t, q, u) { assert TakesTurn(s, q, u); }
    }
  }

  lemma InvHandler(s: Sys)
    requires Inv(s)
    ensures HandlerOk(s) && QueueOk(s)
  {
  }

  lemma SmoothKeepsTune(s: Sys, e: Event)
    requires SmoothInv(s) && InTune(s) && Can(s, e) && Smooth(e) && !e.Begin?
    ensures InTune(Do(s, e)) && |Do(s, e).log| >= |s.log| && RightFrom(Do(s, e).log, |s.log|)
    ensures s.log <= Do(s, e).log
  {
    hide SmoothInv, InTune;
    LogGrows(s, e);
    match e
    case Step(c, _) => EarlyKeepsTune(s, c);
    case Receive(resp, _) => ReceiveKeepsTune(s, resp);
    case Handle(_) => HandleKeepsTune(s);
    case Collect(c, _) => CollectKeepsTune(s, c);
  }

  lemma LogGrows(s: Sys, e: Event)
    requires Can(s, e)
    ensures s.log <= Do(s, e).log
    ensures e.Step? ==> Do(s, e).log == s.log
  {
    hide Without, Remove, Verdict, Deliver;
  }

  lemma {:induction false} InTuneStaysRight(s: Sys, es: seq<Event>)
    requires SmoothInv(s) && InTune(s) && Possible(s, es) && AllSmooth(es) && NoneBegins(es)
    ensures SmoothInv(Exec(s, es)) && InTune(Exec(s, es))
    ensures s.log <= Exec(s, es).log && RightFrom(Exec(s, es).log, |s.log|)
    decreases |es|
  {
    hide SmoothInv, InTune, Can, Do, Right;
    if es == [] {
    } else {
      var n := |es| - 1;
      InTuneStaysRight(s, es[..n]);
      var t := Exec(s, es[..n]);
      assert Smooth(es[n]) && !es[n].Begin?;
      SmoothKeeps(t, es[n]);
      SmoothKeepsTune(t, es[n]);
    }
  }

  // ---------------------------------------------------------------- out of tune, something can

  ghost predicate MayErr(s: Sys) {
    exists es :: Possible(s, es) && AllSmooth(es) && NoneBegins(es)
      && |Exec(s, es).log| >= |s.log| && !RightFrom(Exec(s, es).log, |s.log|)
  }

  lemma {:induction false} ExecCons(s: Sys, e: Event, es: seq<Event>)
    requires Can(s, e) && Possible(Do(s, e), es)
    ensures Possible(s, [e] + es) && Exec(s, [e] + es) == Exec(Do(s, e), es)
    decreases |es|
  {
    hide Do, Can;
    if es == [] {
      assert ([e] + es)[..0] == [] && ([e] + es)[0] == e;
      assert Possible(s, []) && Exec(s, []) == s;
    } else {
      assert ([e] + es)[..|es|] == [e] + es[..|es| - 1];
      ExecCons(s, e, es[..|es| - 1]);
    }
  }

  lemma Forward(s: Sys, e: Event)
    requires Can(s, e) && Smooth(e) && !e.Begin? && MayErr(Do(s, e))
    ensures MayErr(s)
  {
    hide Do, Can, Exec, Right;
    LogGrows(s, e);
    var t := Do(s, e);
    var es :| Possible(t, es) && AllSmooth(es) && NoneBegins(es)
              && |Exec(t, es).log| >= |t.log| && !RightFrom(Exec(t, es).log, |t.log|);
    ExecCons(s, e, es);
    var fs := [e] + es;
    assert AllSmooth(fs) && NoneBegins(fs) && Possible(s, fs) && Exec(s, fs) == Exec(t, es);
  }

  lemma ErrsNow(s: Sys, e: Event)
    requires Can(s, e) && Smooth(e) && !e.Begin? && !RightFrom(Do(s, e).log, |s.log|)
    ensures MayErr(s)
  {
    hide Do, Can, Right;
    LogGrows(s, e);
    ExecNone(Do(s, e));
    ExecCons(s, e, []);
    var fs := [e] + [];
    assert AllSmooth(fs) && NoneBegins(fs) && Possible(s, fs) && Exec(s, fs) == Do(s, e);
  }

  /** The handler peeked at an element of another call. */
  lemma WrongPeekErrs(s: Sys)
    requires SmoothInv(s) && s.handler.Peeked? && s.handler.of != Some(s.handler.el.call)
    ensures MayErr(s)
  {
    hide MayErr, Verdict;
    InvHandler(s);
    var t := Do(s, Handle(Written));
    assert !Right(t.log[|s.log|]);
    ErrsNow(s, Handle(Written));
  }

  /** A handler that does not resend gets idle, and the system is as much in tune as before. */
  lemma FinishHandler(s: Sys) returns (t: Sys)
    requires SmoothInv(s) && !WillResend(s) && (s.handler.Peeked? ==> s.handler.of == Some(s.handler.el.call))
    ensures SmoothInv(t) && t.handler.Idle? && InTune(t) == InTune(s) && (MayErr(t) ==> MayErr(s))
    ensures t.wire == s.wire && t.queue == Remaining(s) && SameProgress(s, t)
    decreases HandlerRank(s.handler)
  {
    hide MayErr, InTune, Inv, Verdict;
    if s.handler.Idle? {
      t := s;
    } else {
      InvHandler(s);
      var u := Do(s, Handle(Written));
      SmoothHandle(s);
      FinishingIsNeutral(s);
      FirstIsRemoved(s);
      t := FinishHandler(u);
      if MayErr(t) { Forward(s, Handle(Written)); }
    }
  }

  function HandlerRank(h: Handler): nat {
    match h
    case Idle => 0
    case Notifying(_, _) => 1
    case Finalizing(_, _) => 2
    case Peeked(_, _, _) => 3
    case Resending(_) => 1
    case Claimed(_) => 2
  }

  /** Nothing about the calls that matters here has changed. */
  predicate SameProgress(s: Sys, t: Sys) {
    && t.calls.Keys == s.calls.Keys && t.up == s.up
    && forall c <- s.calls :: t.calls[c].pc == s.calls[c].pc && t.calls[c].retried == s.calls[c].retried
  }

  /** An ordinary answer to the first request on the wire, handled for the right call. */
  lemma ServeFirst(s: Sys) returns (t: Sys)
    requires SmoothInv(s) && s.handler.Idle? && s.wire != [] && s.queue != [] && s.wire[0] == Some(s.queue[0].call)
    ensures SmoothInv(t) && t.handler.Idle? && t.wire == s.wire[1..] && t.queue == s.queue[1..] && SameProgress(s, t)
    ensures MayErr(t) ==> MayErr(s)
  {
    hide MayErr, Inv;
    var e := Receive(OK_RESPONSE, true);
    var u := Do(s, e);
    SmoothKeeps(s, e);
    t := FinishHandler(u);
    if MayErr(t) { Forward(s, e); }
  }

  lemma FirstTaken(s: Sys, t: Sys)
    requires s.wire != [] && s.queue != [] && s.wire[0] == Some(s.queue[0].call)
    requires t.wire == s.wire[1..] && t.queue == s.queue[1..]
    ensures t.wire <= OnWire(t.queue) <==> s.wire <= OnWire(s.queue)
  {
    if t.wire <= OnWire(t.queue) {
      assert forall i | 0 < i < |s.wire| :: s.wire[i] == t.wire[i - 1] == OnWire(t.queue)[i - 1] == OnWire(s.queue)[i];
    }
    if s.wire <= OnWire(s.queue) {
      assert forall i | 0 <= i < |t.wire| :: t.wire[i] == s.wire[i + 1] == OnWire(s.queue)[i + 1] == OnWire(t.queue)[i];
    }
  }

  /** The requests on the wire are not the first ones of the queue: ordinary answers lead to the first
      that is not. */
  lemma {:induction false} WrongOrderErrs(s: Sys)
    requires SmoothInv(s) && s.handler.Idle? && !(s.wire <= OnWire(s.queue))
    ensures MayErr(s)
    decreases |s.wire|
  {
    hide MayErr, Inv;
    if s.queue != [] && s.wire[0] == Some(s.queue[0].call) {
      var t := ServeFirst(s);
      FirstTaken(s, t);
      WrongOrderErrs(t);
    } else {
      var e := Receive(OK_RESPONSE, true);
      if s.queue == [] {
        assert !Right(Do(s, e).log[|s.log|]);
        ErrsNow(s, e);
      } else {
        SmoothKeeps(s, e);
        WrongPeekErrs(Do(s, e));
        Forward(s, e);
      }
    }
  }

  /** An early call writes; the handler and the rest stay as they are. */
  lemma {:induction false} WriteEarly(s: Sys, u: nat) returns (t: Sys)
    requires SmoothInv(s) && Early(s, u)
    ensures SmoothInv(t) && t.handler == s.handler && t.wire == s.wire + [Some(u)] && (MayErr(t) ==> MayErr(s))
    ensures t.queue == (if s.calls[u].pc.Send? then s.queue else s.queue + [Elem(u, 0)])
    ensures forall c <- s.calls :: c in t.calls && t.calls[c].retried == s.calls[c].retried
    decreases match s.calls[u].pc case Subscribe => 3 case Enqueue => 2 case _ => 1
  {
    hide MayErr, Inv, Without;
    var e := Step(u, Written);
    assert Plain(s.calls[u]);
    SmoothStep(s, u);
    var v := Do(s, e);
    if s.calls[u].pc.Send? {
      t := v;
    } else {
      t := WriteEarly(v, u);
    }
    if MayErr(t) { Forward(s, e); }
  }

  /** An early call that is not queued yet is queued. */
  lemma {:induction false} EnqueueEarly(s: Sys, u: nat) returns (t: Sys)
    requires SmoothInv(s) && Early(s, u) && !s.calls[u].pc.Send?
    ensures SmoothInv(t) && t.handler == s.handler && t.wire == s.wire && t.queue == s.queue + [Elem(u, 0)]
    ensures t.calls.Keys == s.calls.Keys && (forall c <- s.calls | c != u :: t.calls[c] == s.calls[c])
    ensures MayErr(t) ==> MayErr(s)
    decreases if s.calls[u].pc.Subscribe? then 1 else 0
  {
    hide MayErr, Inv, Without;
    var e := Step(u, Written);
    assert Plain(s.calls[u]);
    SmoothStep(s, u);
    var v := Do(s, e);
    if s.calls[u].pc.Subscribe? { t := EnqueueEarly(v, u); } else { t := v; }
    if MayErr(t) { Forward(s, e); }
  }

  lemma QueuedOnce(s: Sys, i: nat, j: nat)
    requires Inv(s) && i < |s.queue| && j < |s.queue| && s.queue[i].call == s.queue[j].call
    ensures i == j
  {
  }

  /** The early call is not the one the queue expects next. */
  lemma OutOfTurnErrs(s: Sys, u: nat)
    requires SmoothInv(s) && s.handler.Idle? && s.wire <= OnWire(s.queue) && Early(s, u) && !TakesTurn(s, s.queue, u)
    ensures MayErr(s)
  {
    hide MayErr, Inv;
    var t := WriteEarly(s, u);
    var n := |s.wire|;
    assert t.wire[n] == Some(u);
    if t.wire <= OnWire(t.queue) {
      assert t.wire[n] == OnWire(t.queue)[n];
      if !s.calls[u].pc.Send? { QueuedOnce(t, n, |s.queue|); }
    }
    WrongOrderErrs(t);
  }

  lemma TwoEarlyErr(s: Sys, u: nat, v: nat)
    requires SmoothInv(s) && s.handler.Idle? && s.wire <= OnWire(s.queue) && Early(s, u) && Early(s, v) && u != v
    ensures MayErr(s)
  {
    hide MayErr, Inv;
    if !TakesTurn(s, s.queue, u) {
      OutOfTurnErrs(s, u);
    } else if !TakesTurn(s, s.queue, v) {
      OutOfTurnErrs(s, v);
    } else {
      var t := EnqueueEarly(s, u);
      assert t.wire <= OnWire(t.queue) by { assert OnWire(s.queue) <= OnWire(t.queue); }
      OutOfTurnErrs(t, v);
    }
  }

  /** A resend behind another request on the wire. */
  lemma {:induction false} OvertakenErrs(s: Sys)
    requires SmoothInv(s) && WillResend(s) && s.wire != []
             && (s.handler.Peeked? ==> s.handler.of == Some(s.handler.el.call))
    ensures MayErr(s)
    decreases HandlerRank(s.handler)
  {
    hide MayErr, Inv, Verdict;
    InvHandler(s);
    SmoothHandle(s);
    var t := Do(s, Handle(Written));
    if s.handler.Resending? {
      var n := |s.wire|;
      assert t.wire == s.wire + [Some(s.queue[0].call)] && t.queue == s.queue;
      if t.wire <= OnWire(t.queue) {
        assert t.wire[n] == OnWire(t.queue)[n];
        QueuedOnce(t, 0, n);
      }
      WrongOrderErrs(t);
    } else {
      OvertakenErrs(t);
    }
    Forward(s, Handle(Written));
  }

  lemma ResendErrs(s: Sys)
    requires SmoothInv(s) && WillResend(s) && !InTune(s)
    ensures MayErr(s)
  {
    hide MayErr, Inv, Verdict;
    if s.handler.Peeked? && s.handler.of != Some(s.handler.el.call) {
      WrongPeekErrs(s);
    } else if s.wire != [] {
      OvertakenErrs(s);
    } else {
      var u :| u in s.calls && Early(s, u);
      var t := WriteEarly(s, u);
      InvHandler(s);
      SameRetried(s, t);
      OvertakenErrs(t);
    }
  }

  /** A request on the wire that may still be resent with another one behind it. */
  lemma {:induction false} NotKeptErrs(s: Sys, i: nat)
    requires SmoothInv(s) && s.handler.Idle? && s.wire <= OnWire(s.queue) && i < |s.wire| && !Keeps(s, s.queue, i)
    ensures MayErr(s)
    decreases i
  {
    hide MayErr, Inv;
    InvHandler(s);
    assert s.wire[0] == OnWire(s.queue)[0];
    assert s.queue[i] in s.queue;
    if i > 0 {
      var t := ServeFirst(s);
      assert t.queue[i - 1] == s.queue[i];
      FirstTaken(s, t);
      assert NoneEarly(t) == NoneEarly(s);
      NotKeptErrs(t, i - 1);
    } else {
      var e := Receive(CHALLENGE, true);
      SmoothKeeps(s, e);
      ResendErrs(Do(s, e));
      Forward(s, e);
    }
  }

  lemma OutOfTuneErrs(s: Sys)
    requires SmoothInv(s) && !InTune(s)
    ensures MayErr(s)
  {
    hide MayErr, Inv, Verdict;
    if s.handler.Peeked? && s.handler.of != Some(s.handler.el.call) {
      WrongPeekErrs(s);
    } else if WillResend(s) {
      ResendErrs(s);
    } else {
      var t := FinishHandler(s);
      IdleErrs(t);
    }
  }

  lemma IdleErrs(s: Sys)
    requires SmoothInv(s) && s.handler.Idle? && !InTune(s)
    ensures MayErr(s)
  {
    hide MayErr, Inv, Keeps, TakesTurn;
    if !(s.wire <= OnWire(s.queue)) {
      WrongOrderErrs(s);
    } else if u, v :| u in s.calls && v in s.calls && Early(s, u) && Early(s, v) && u != v {
      TwoEarlyErr(s, u, v);
    } else if u :| u in s.calls && Early(s, u) && !TakesTurn(s, s.queue, u) {
      OutOfTurnErrs(s, u);
    } else {
      var i :| 0 <= i < |s.wire| && !Keeps(s, s.queue, i);
      NotKeptErrs(s, i);
    }
  }

  // ---------------------------------------------------------------- the theorem

  /** After any smooth run, with any number of calls begun: every response of every smooth continuation
      in which no further call begins is handled for the call it answers, and none is dropped, if and
      only if the requests are in tune. */
  lemma MatchesIff(es: seq<Event>)
    requires Possible(Start(), es) && AllSmooth(es)
    ensures var s := Exec(Start(), es);
            (forall fs: seq<Event> | Possible(s, fs) && AllSmooth(fs) && NoneBegins(fs) ::
               RightFrom(Exec(s, fs).log, |s.log|)) <==>
            InTune(s)
  {
    hide SmoothInv, InTune, Exec, RightFrom;
    SmoothRunInv(es);
    var s := Exec(Start(), es);
    if InTune(s) {
      forall fs: seq<Event> | Possible(s, fs) && AllSmooth(fs) && NoneBegins(fs)
        ensures RightFrom(Exec(s, fs).log, |s.log|)
      {
        InTuneStaysRight(s, fs);
      }
    } else {
      OutOfTuneErrs(s);
    }
  }
}
