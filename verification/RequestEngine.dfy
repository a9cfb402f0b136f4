/** Synchronous requests to a camera: any number of callers, each with its request, its two attempts
    and its notification channel, share one queue of outstanding requests and one thread that
    handles responses. Every region under the connection mutex, and every channel operation, is
    one step; steps of different threads interleave freely. */
module RequestEngine {
  datatype Option<T> = None | Some(value: T)

  datatype Status = Fine | Unauthorized | Refused(code: int)

  /** The list element pushed by one attempt of one call. */
  datatype Elem = Elem(call: nat, attempt: nat)

  datatype Note = Note(status: Status, from: Elem)

  datatype Channel = Open(note: Option<Note>) | Closed

  /** How a call returned. `Returned` also records the element whose removal led to the note. */
  datatype Result = Returned(status: Status, from: Elem) | SendFailed | TimedOut | Aborted

  datatype Pc = Subscribe | Enqueue | Send | Unqueue | Wait | Cleanup | Reset | Done(result: Result)

  /** `retried` is the request's Attempts field; `writes` and `resends` count the times the request
      was written to a connection by its caller and by the response handler. */
  datatype Call = Call(pc: Pc, attempt: nat, retried: nat, channel: Channel, writes: nat, resends: nat)

  /** A response: its code, whether it has a WWW-Authenticate header, and whether there are
      credentials and the challenge is one that can be answered. */
  datatype Resp = Resp(code: int, challenge: bool, answerable: bool)

  datatype Handler =
    | Idle
    | Peeked(el: Elem, resp: Resp, of: Option<nat>)
    | Claimed(el: Elem)
    | Resending(el: Elem)
    | Finalizing(el: Elem, status: Status)
    | Notifying(el: Elem, status: Status)

  /** A handled response: the call it answers, the call it was handled for, what it says, and the
      outcome. */
  datatype Match = Match(answers: Option<nat>, handledFor: Option<nat>, resp: Resp, verdict: Option<Status>)

  /** `wire` lists the requests written to the current connection and not answered yet; `None`
      stands for a request that no call waits for. */
  datatype Sys = Sys(
    calls: map<nat, Call>, queue: seq<Elem>, handler: Handler,
    up: bool, wire: seq<Option<nat>>, log: seq<Match>)

  datatype Outcome = DialFails | WriteFails | Written

  datatype Event =
    | Begin(call: nat)
    | Step(call: nat, outcome: Outcome)
    | Collect(call: nat, aborted: bool)
    | Expire(call: nat, aborted: bool)
    | Receive(resp: Resp, solicited: bool)
    | Handle(outcome: Outcome)
    | Teardown(outcome: Outcome)
    | Drop

  const NEW_CALL := Call(Subscribe, 0, 0, Closed, 0, 0)

  function Start(): Sys { Sys(map[], [], Idle, false, [], []) }

  /** SendRequest: dial where there is no connection, then write. */
  function Transmit(s: Sys, who: Option<nat>, outcome: Outcome): Sys {
    match outcome
    case DialFails => s
    case WriteFails => s.(up := false, wire := [], queue := [])
    case Written => s.(up := true, wire := (if s.up then s.wire else []) + [who])
  }

  predicate CanSend(s: Sys, outcome: Outcome) { outcome.DialFails? ==> !s.up }

  /** Remove the first element of a call. */
  function Without(q: seq<Elem>, call: nat): seq<Elem> {
    if q == [] then [] else if q[0].call == call then q[1..] else [q[0]] + Without(q[1..], call)
  }

  function Remove(q: seq<Elem>, el: Elem): seq<Elem> {
    if q == [] then [] else if q[0] == el then q[1..] else [q[0]] + Remove(q[1..], el)
  }

  lemma {:induction false} WithoutAt(q: seq<Elem>, call: nat, i: nat)
    requires i <= |q| && (forall j | 0 <= j < i :: q[j].call != call) && (i < |q| ==> q[i].call == call)
    ensures Without(q, call) == if i < |q| then q[..i] + q[i + 1..] else q
  {
    if i == 0 {
    } else {
      var t := q[1..];
      WithoutAt(t, call, i - 1);
      assert i < |q| ==> [q[0]] + (t[..i - 1] + t[i..]) == q[..i] + q[i + 1..];
      assert [q[0]] + t == q;
    }
  }

  lemma {:induction false} RemoveAt(q: seq<Elem>, el: Elem, i: nat)
    requires i <= |q| && (forall j | 0 <= j < i :: q[j] != el) && (i < |q| ==> q[i] == el)
    ensures Remove(q, el) == if i < |q| then q[..i] + q[i + 1..] else q
  {
    if i == 0 {
    } else {
      var t := q[1..];
      RemoveAt(t, el, i - 1);
      assert i < |q| ==> [q[0]] + (t[..i - 1] + t[i..]) == q[..i] + q[i + 1..];
      assert [q[0]] + t == q;
    }
  }

  /** The loop that takes a request off the queue. */
  method RemoveRequest(q: seq<Elem>, call: nat) returns (r: seq<Elem>)
    ensures r == Without(q, call)
  {
    hide Without;
    var i := 0;
    while i < |q| && q[i].call != call
      invariant 0 <= i <= |q| && forall j | 0 <= j < i :: q[j].call != call
    {
      i := i + 1;
    }
    WithoutAt(q, call, i);
    r := if i < |q| then q[..i] + q[i + 1..] else q;
  }

  /** The loop that takes the handled element off the queue, if it is still there. */
  method RemoveElement(q: seq<Elem>, el: Elem) returns (r: seq<Elem>, found: bool)
    ensures found <==> el in q
    ensures r == Remove(q, el)
  {
    hide Remove;
    var i := 0;
    while i < |q| && q[i] != el
      invariant 0 <= i <= |q| && forall j | 0 <= j < i :: q[j] != el
    {
      i := i + 1;
    }
    RemoveAt(q, el, i);
    r, found := if i < |q| then q[..i] + q[i + 1..] else q, i < |q|;
  }

  predicate Steps(pc: Pc) { !pc.Wait? && !pc.Done? }

  predicate Can(s: Sys, e: Event) {
    match e
    case Begin(c) => c !in s.calls
    case Step(c, o) => c in s.calls && Steps(s.calls[c].pc) && (s.calls[c].pc.Send? ==> CanSend(s, o))
    case Collect(c, _) => c in s.calls && s.calls[c].pc.Wait?
      && s.calls[c].channel.Open? && s.calls[c].channel.note.Some?
    case Expire(c, _) => c in s.calls && s.calls[c].pc.Wait?
    case Receive(_, solicited) => s.handler.Idle? && (solicited ==> s.wire != [])
    case Handle(o) =>
      !s.handler.Idle? && s.handler.el.call in s.calls && (s.handler.Resending? ==> CanSend(s, o))
    case Teardown(o) => CanSend(s, o)
    case Drop => true
  }

  function SetCall(s: Sys, c: nat, call: Call): Sys { s.(calls := s.calls[c := call]) }

  /** The caller's next step, where it does not wait. */
  function Advance(s: Sys, c: nat, o: Outcome): Sys
    requires c in s.calls
  {
    var call := s.calls[c];
    match call.pc
    case Subscribe => SetCall(s, c, call.(channel := Open(None), pc := Enqueue))
    case Enqueue => SetCall(s, c, call.(pc := Send)).(queue := s.queue + [Elem(c, call.attempt)])
    case Send =>
      Transmit(SetCall(s, c, call.(
        pc := if o.Written? then Wait else Unqueue,
        writes := call.writes + if o.DialFails? then 0 else 1)), Some(c), o)
    case Unqueue => SetCall(s, c, call.(pc := Done(SendFailed))).(queue := Without(s.queue, c))
    case Cleanup =>
      SetCall(s, c, call.(pc := if call.attempt == 0 then Reset else Done(TimedOut))).(queue := Without(s.queue, c))
    case Reset => SetCall(s, c, call.(retried := 0, attempt := call.attempt + 1, pc := Subscribe))
    case _ => s
  }

  /** What a response means for its request: a status, or `None` for an authenticated resend. */
  function Verdict(resp: Resp, retried: nat): Option<Status> {
    if resp.code == 401 && retried == 0 then
      if resp.challenge then (if resp.answerable then None else Some(Unauthorized)) else Some(Fine)
    else Some(if resp.code >= 400 then Refused(resp.code) else Fine)
  }

  function Deliver(ch: Channel, n: Note): Channel {
    if ch == Open(None) then Open(Some(n)) else ch
  }

  function HandlerStep(s: Sys, o: Outcome): Sys
    requires !s.handler.Idle? && s.handler.el.call in s.calls
  {
    var c := s.handler.el.call;
    var call := s.calls[c];
    match s.handler
    case Peeked(el, resp, of) =>
      var v := Verdict(resp, call.retried);
      s.(log := s.log + [Match(of, Some(c), resp, v)],
         handler := if v.None? then Claimed(el) else Finalizing(el, v.value))
    case Claimed(el) => SetCall(s, c, call.(retried := call.retried + 1)).(handler := Resending(el))
    case Resending(el) =>
      Transmit(SetCall(s, c, call.(resends := call.resends + if o.DialFails? then 0 else 1)),
               Some(c), o).(handler := Idle)
    case Finalizing(el, st) =>
      if el in s.queue then s.(queue := Remove(s.queue, el), handler := Notifying(el, st)) else s.(handler := Idle)
    case Notifying(el, st) => SetCall(s, c, call.(channel := Deliver(call.channel, Note(st, el)))).(handler := Idle)
  }

  function Received(s: Sys, resp: Resp, solicited: bool): Sys
    requires solicited ==> s.wire != []
  {
    var of := if solicited then s.wire[0] else None;
    var t := if solicited then s.(wire := s.wire[1..]) else s;
    if s.queue == [] then t.(log := s.log + [Match(of, None, resp, None)])
    else t.(handler := Peeked(s.queue[0], resp, of))
  }

  function Do(s: Sys, e: Event): Sys
    requires Can(s, e)
  {
    match e
    case Begin(c) => SetCall(s, c, NEW_CALL)
    case Step(c, o) => Advance(s, c, o)
    case Collect(c, aborted) =>
      var call := s.calls[c];
      var n := call.channel.note.value;
      SetCall(s, c, call.(channel := Closed, pc := Done(if aborted then Aborted else Returned(n.status, n.from))))
    case Expire(c, aborted) =>
      SetCall(s, c, s.calls[c].(channel := Closed, pc := if aborted then Done(Aborted) else Cleanup))
    case Receive(resp, solicited) => Received(s, resp, solicited)
    case Handle(o) => HandlerStep(s, o)
    case Teardown(o) => Transmit(s, None, o)
    case Drop => if s.up then s.(up := false, wire := [], queue := []) else s
  }

  predicate Possible(s: Sys, es: seq<Event>)
    decreases |es|, 0
  {
    es == [] || (Possible(s, es[..|es| - 1]) && Can(Exec(s, es[..|es| - 1]), es[|es| - 1]))
  }

  function Exec(s: Sys, es: seq<Event>): Sys
    requires Possible(s, es)
    decreases |es|, 1
  {
    if es == [] then s else Do(Exec(s, es[..|es| - 1]), es[|es| - 1])
  }

  // ---------------------------------------------------------------- the invariant

  /** The call has pushed its element for the current attempt. */
  predicate Pushed(call: Call) { !call.pc.Subscribe? && !call.pc.Enqueue? }

  /** An element that was pushed at some time. */
  predicate Known(s: Sys, el: Elem) {
    && el.call in s.calls
    && el.attempt <= s.calls[el.call].attempt
    && (el.attempt == s.calls[el.call].attempt ==> Pushed(s.calls[el.call]))
  }

  predicate Distinct(q: seq<Elem>) { forall i, j | 0 <= i < j < |q| :: q[i].call != q[j].call }

  /** Only a call that is sending, waiting or cleaning up, or that returned, can be queued, and
      only by the element of its current attempt. */
  predicate MayBeQueued(pc: Pc) {
    pc.Send? || pc.Unqueue? || pc.Wait? || pc.Cleanup? || (pc.Done? && (pc.result.Returned? || pc.result.Aborted?))
  }

  predicate QueueOk(s: Sys) {
    && Distinct(s.queue)
    && forall el <- s.queue ::
         el.call in s.calls && el.attempt == s.calls[el.call].attempt && MayBeQueued(s.calls[el.call].pc)
  }

  predicate HandlerOk(s: Sys) {
    && (!s.handler.Idle? ==> Known(s, s.handler.el))
    && (s.handler.Notifying? ==> s.handler.el !in s.queue)
  }

  /** A note, delivered or already collected, comes from an element of this call that left the queue. */
  predicate NoteOk(s: Sys, c: nat)
    requires c in s.calls
  {
    var call := s.calls[c];
    && (call.channel.Open? && call.channel.note.Some? ==>
          Gone(s, c, call.channel.note.value.from))
    && (call.pc.Done? && call.pc.result.Returned? ==> Gone(s, c, call.pc.result.from))
  }

  predicate Gone(s: Sys, c: nat, el: Elem) { el.call == c && Known(s, el) && el !in s.queue }

  predicate Claims(h: Handler, c: nat) { h.Claimed? && h.el.call == c }

  predicate Resends(h: Handler, c: nat) { (h.Claimed? || h.Resending?) && h.el.call == c }

  predicate Sends(pc: Pc) { pc.Subscribe? || pc.Enqueue? || pc.Send? }

  function B(b: bool): nat { if b then 1 else 0 }

  predicate CountsOk(call: Call, h: Handler, c: nat) {
    && call.attempt <= 1
    && (call.pc.Reset? ==> call.attempt == 0)
    && call.writes <= call.attempt + B(!Sends(call.pc))
    && call.resends + B(Resends(h, c)) + B(call.retried == 0 && !Claims(h, c)) <= 1 + call.attempt
  }

  predicate Inv(s: Sys) {
    && QueueOk(s)
    && HandlerOk(s)
    && (forall c <- s.calls :: NoteOk(s, c))
    && (forall c <- s.calls :: CountsOk(s.calls[c], s.handler, c))
  }
}
