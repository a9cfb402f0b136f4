/** One client of the fan-out: the session queue, the session runner, the client's write channel,
    its writer, its reader, and the shutdown protocol between them. Every goroutine is a program
    counter; every channel operation, atomic swap and lock region is one act. Go's panics on closed
    channels are part of the acts. */
module ClientPipe {
  import opened Bytes

  /** Pooled buffers are known by number; the heap gives their bytes. */
  type Buf = nat
  type Heap = map<Buf, bytes>

  const WRITE_CHAN_CAP: nat := 200

  datatype Config = Config(bufferSize: nat, queueSize: nat)

  /** `buf[:len]`. */
  datatype Slice = Slice(buf: Buf, len: nat)

  function Content(heap: Heap, p: Slice): bytes {
    if p.buf in heap && p.len <= |heap[p.buf]| then heap[p.buf][..p.len] else []
  }

  function Contents(heap: Heap, ps: seq<Slice>): (cs: seq<bytes>)
    ensures |cs| == |ps| && forall i | 0 <= i < |ps| :: cs[i] == Content(heap, ps[i])
  {
    seq(|ps|, i requires 0 <= i < |ps| => Content(heap, ps[i]))
  }

  /** The stations of `Client.Destroy`. */
  datatype Destroying = Swapping | Unplugging | Closing | Awaiting

  datatype Runner =
    | Ready
    | Holding(packet: Slice)
    | Destroys(at: Destroying)
    | Draining
    | Ended

  datatype Writer = Selecting | Writing(data: Slice) | Emptying | Finished

  datatype Reader =
    | Serving
    | InSetup
    | Mapping
    | InTeardown
    | Leaving
    | Stopping(final: bool)
    | Dismantling(at: Destroying)
    | Gone

  datatype Offer = Offer(payload: bytes, taken: bool)

  /** `offers` records what the dispatcher pushed and whether the queue took it, `passed` what the
      runner moved on to the client. */
  datatype Session = Session(
    queue: seq<Slice>, active: bool, quitClosed: bool, runner: Runner, channels: map<int, int>,
    offers: seq<Offer>, passed: seq<bytes>)

  datatype Tagged = Tagged(session: nat, payload: bytes)

  /** `sessions` is the history of sessions of this client; the last one is registered with the
      stream while `attached`. `forwarded` records what entered the write channel, `written` what
      was written to the socket. `evicted` has the sessions that a destroyed stream has forgotten. */
  datatype Client = Client(
    reader: Reader, attached: bool, sessions: seq<Session>,
    destroyed: bool, connClosed: bool, chanClosed: bool,
    channel: seq<Slice>, writer: Writer,
    forwarded: seq<Tagged>, written: seq<bytes>, panicked: bool, evicted: set<nat>)

  const NEW_SESSION: Session := Session([], true, false, Ready, map[], [], [])

  const NEW_CLIENT: Client :=
    Client(Serving, false, [], false, false, false, [], Selecting, [], [], false, {})

  datatype Act =
    // the dispatcher
    | Accept(session: nat, packet: Slice)
    // the reader
    | Read(setup: bool) | Attach | MapChannel(upstream: int, downstream: int) | Reply
    | Leave | Remove | Removed | Dismantle
    // the session runner
    | Take(session: nat) | Quit(session: nat) | Send(session: nat) | Timeout(session: nat)
    | RunnerDestroy(session: nat) | DrainOne(session: nat) | DrainEnd(session: nat)
    // the writer
    | WriterTake | WriteOk | WriteFail | WriterStop | WriterDrain | WriterEnd
    // a stream destroyed while its clients are still there
    | Evict | EvictStop(session: nat)

  predicate ReaderAct(a: Act) {
    a.Read? || a.Attach? || a.MapChannel? || a.Reply? || a.Leave? || a.Remove? || a.Removed? || a.Dismantle?
  }

  predicate RunnerAct(a: Act) {
    a.Take? || a.Quit? || a.Send? || a.Timeout? || a.RunnerDestroy? || a.DrainOne? || a.DrainEnd?
  }

  predicate WriterAct(a: Act) {
    a.WriterTake? || a.WriteOk? || a.WriteFail? || a.WriterStop? || a.WriterDrain? || a.WriterEnd?
  }

  function Last(cl: Client): nat
    requires cl.sessions != []
  {
    |cl.sessions| - 1
  }

  predicate IsSession(cl: Client, k: nat) { k < |cl.sessions| }

  /** When an act can happen. `down` is the server's cancelled context. */
  predicate Enabled(cl: Client, a: Act, down: bool) {
    match a
    case Accept(k, _) => IsSession(cl, k)
    case Read(_) => cl.reader == Serving && !cl.connClosed
    case Attach => cl.reader == InSetup
    case MapChannel(_, _) => cl.reader == Mapping
    case Reply => cl.reader == InSetup || cl.reader == Mapping
    case Leave => cl.reader == Serving
    case Remove => cl.reader == InTeardown || cl.reader == Leaving
    case Removed => cl.reader.Stopping? && cl.sessions != [] && cl.sessions[Last(cl)].runner == Ended
    case Dismantle => cl.reader.Dismantling? && (cl.reader.at == Awaiting ==> cl.writer == Finished)
    case Take(k) => IsSession(cl, k) && cl.sessions[k].runner == Ready && cl.sessions[k].queue != []
    case Quit(k) => IsSession(cl, k) && cl.sessions[k].runner == Ready && (cl.sessions[k].quitClosed || down)
    case Send(k) =>
      && IsSession(cl, k) && cl.sessions[k].runner.Holding?
      && (cl.chanClosed || |cl.channel| < WRITE_CHAN_CAP)
    case Timeout(k) => IsSession(cl, k) && cl.sessions[k].runner.Holding?
    case RunnerDestroy(k) =>
      && IsSession(cl, k) && cl.sessions[k].runner.Destroys?
      && (cl.sessions[k].runner.at == Awaiting ==> cl.writer == Finished)
    case DrainOne(k) => IsSession(cl, k) && cl.sessions[k].runner == Draining && cl.sessions[k].queue != []
    case DrainEnd(k) => IsSession(cl, k) && cl.sessions[k].runner == Draining && cl.sessions[k].queue == []
    case WriterTake => cl.writer == Selecting && cl.channel != []
    case WriteOk => cl.writer.Writing?
    case WriteFail => cl.writer.Writing?
    case WriterStop => cl.writer == Selecting && (down || (cl.chanClosed && cl.channel == []))
    case WriterDrain => cl.writer == Emptying && cl.channel != []
    case WriterEnd => cl.writer == Emptying && cl.channel == [] && cl.chanClosed
    case Evict => cl.attached && !cl.reader.Stopping?
    case EvictStop(k) => k in cl.evicted && IsSession(cl, k)
  }

  /** The new client state and the buffers handed back to the pool. */
  datatype Effect = Effect(client: Client, put: seq<Buf>)

  /** The guard in front of every `packetPool.Put(data[:cap(data)])`. */
  predicate Poolable(cfg: Config, heap: Heap, p: Slice) {
    && p.len > 0 && p.buf in heap
    && |heap[p.buf]| == cfg.bufferSize && p.len <= |heap[p.buf]| && heap[p.buf][0] == '$'
  }

  function PutBack(cfg: Config, heap: Heap, p: Slice): seq<Buf> {
    if Poolable(cfg, heap, p) then [p.buf] else []
  }

  function WithSession(cl: Client, k: nat, s: Session): Client
    requires IsSession(cl, k)
  {
    cl.(sessions := cl.sessions[k := s])
  }

  /** `cs.Stop` up to the wait: the `active` flag guards the close of `quit`. */
  function StopSession(cl: Client, k: nat): Client
    requires IsSession(cl, k)
  {
    var s := cl.sessions[k];
    if !s.active then cl
    else WithSession(cl, k, s.(active := false, quitClosed := true))
         .(panicked := cl.panicked || s.quitClosed)
  }

  /** One station of `Client.Destroy`; no station left means it has returned. */
  function DestroyStation(cl: Client, at: Destroying): (r: (Client, seq<Destroying>))
    ensures r.0 == cl.(destroyed := r.0.destroyed, connClosed := r.0.connClosed,
                       chanClosed := r.0.chanClosed, panicked := r.0.panicked)
  {
    match at
    case Swapping => if cl.destroyed then (cl, []) else (cl.(destroyed := true), [Unplugging])
    case Unplugging => (cl.(connClosed := true), [Closing])
    case Closing => (cl.(chanClosed := true, panicked := cl.panicked || cl.chanClosed), [Awaiting])
    case Awaiting => (cl, [])
  }

  function ApplyReader(cl: Client, a: Act): Client
    requires Enabled(cl, a, true) && ReaderAct(a)
  {
    match a
    case Read(setup) => cl.(reader := if setup then InSetup else InTeardown)
    case Attach =>
      if cl.attached then cl.(reader := Mapping)
      else cl.(reader := Mapping, attached := true, sessions := cl.sessions + [NEW_SESSION])
    case MapChannel(u, d) =>
      if !cl.attached || cl.sessions == [] then cl
      else
        var s := cl.sessions[Last(cl)];
        WithSession(cl, Last(cl), s.(channels := s.channels[u := d]))
    case Reply => cl.(reader := Serving)
    case Leave => cl.(reader := Leaving)
    case Remove =>
      var after := if cl.reader == Leaving then Dismantling(Swapping) else Serving;
      if !cl.attached || cl.sessions == [] then cl.(reader := after)
      else if !cl.sessions[Last(cl)].active then cl.(reader := after, attached := false)
      else StopSession(cl, Last(cl)).(reader := Stopping(cl.reader == Leaving))
    case Removed => cl.(reader := if cl.reader.final then Dismantling(Swapping) else Serving, attached := false)
    case Dismantle =>
      var (c, next) := DestroyStation(cl, cl.reader.at);
      c.(reader := if next == [] then Gone else Dismantling(next[0]))
  }

  /** What a runner's act does to its own session. */
  function SessionAfter(cl: Client, a: Act, heap: Heap): Session
    requires RunnerAct(a) && Enabled(cl, a, true)
  {
    var s := cl.sessions[a.session];
    match a
    case Take(_) => s.(runner := Holding(s.queue[0]), queue := s.queue[1..])
    case Quit(_) => s.(runner := Draining)
    case Send(_) =>
      if cl.chanClosed then s
      else s.(runner := Ready, passed := s.passed + [Content(heap, s.runner.packet)])
    case Timeout(_) => s.(runner := Destroys(Swapping))
    case RunnerDestroy(_) =>
      var next := DestroyStation(cl, s.runner.at).1;
      s.(runner := if next == [] then Draining else Destroys(next[0]))
    case DrainOne(_) => s.(queue := s.queue[1..])
    case DrainEnd(_) => s.(runner := Ended)
  }

  /** What a runner's act does to the rest of the client. */
  function OutsideAfter(cl: Client, a: Act, heap: Heap): (c: Client)
    requires RunnerAct(a) && Enabled(cl, a, true)
    ensures c.sessions == cl.sessions && c.writer == cl.writer && c.reader == cl.reader && c.attached == cl.attached
    ensures !a.Send? ==> c.channel == cl.channel && c.forwarded == cl.forwarded
    ensures c.written == cl.written
  {
    var s := cl.sessions[a.session];
    match a
    case Send(k) =>
      if cl.chanClosed then cl.(panicked := true)
      else
        var p := s.runner.packet;
        cl.(channel := cl.channel + [p], forwarded := cl.forwarded + [Tagged(k, Content(heap, p))])
    case RunnerDestroy(_) => DestroyStation(cl, s.runner.at).0
    case _ => cl
  }

  function RunnerPuts(cfg: Config, cl: Client, a: Act, heap: Heap): seq<Buf>
    requires RunnerAct(a) && Enabled(cl, a, true)
  {
    var s := cl.sessions[a.session];
    match a
    case Timeout(_) => PutBack(cfg, heap, s.runner.packet)
    case DrainOne(_) => PutBack(cfg, heap, s.queue[0])
    case _ => []
  }

  function ApplyRunner(cfg: Config, cl: Client, a: Act, heap: Heap): Effect
    requires RunnerAct(a) && Enabled(cl, a, true)
  {
    Effect(WithSession(OutsideAfter(cl, a, heap), a.session, SessionAfter(cl, a, heap)), RunnerPuts(cfg, cl, a, heap))
  }

  function ApplyWriter(cfg: Config, cl: Client, a: Act, heap: Heap): Effect
    requires Enabled(cl, a, true) && WriterAct(a)
  {
    match a
    case WriterTake => Effect(cl.(writer := Writing(cl.channel[0]), channel := cl.channel[1..]), [])
    case WriteOk =>
      Effect(cl.(writer := Selecting, written := cl.written + [Content(heap, cl.writer.data)]),
             PutBack(cfg, heap, cl.writer.data))
    case WriteFail => Effect(cl.(writer := Emptying), PutBack(cfg, heap, cl.writer.data))
    case WriterStop => Effect(cl.(writer := Emptying), [])
    case WriterDrain => Effect(cl.(channel := cl.channel[1..]), PutBack(cfg, heap, cl.channel[0]))
    case WriterEnd => Effect(cl.(writer := Finished), [])
  }

  predicate Takes(cfg: Config, s: Session) { |s.queue| < cfg.queueSize }

  function PushSession(cfg: Config, s: Session, p: Slice, heap: Heap): Session {
    s.(queue := if Takes(cfg, s) then s.queue + [p] else s.queue,
       offers := s.offers + [Offer(Content(heap, p), Takes(cfg, s))])
  }

  /** `Push`: a full queue refuses, and the dispatcher puts the buffer back. */
  function Push(cfg: Config, cl: Client, k: nat, p: Slice, heap: Heap): Effect
    requires IsSession(cl, k)
  {
    Effect(WithSession(cl, k, PushSession(cfg, cl.sessions[k], p, heap)),
           if Takes(cfg, cl.sessions[k]) then [] else [p.buf])
  }

  /** The destroyed stream has forgotten the registered session. */
  function Evicted(cl: Client): Client {
    cl.(attached := false, evicted := cl.evicted + if cl.sessions == [] then {} else {Last(cl)})
  }

  function Apply(cfg: Config, cl: Client, a: Act, heap: Heap): Effect
    requires Enabled(cl, a, true)
  {
    if a.Accept? then Push(cfg, cl, a.session, a.packet, heap)
    else if a.Evict? then Effect(Evicted(cl), [])
    else if a.EvictStop? then Effect(StopSession(cl, a.session), [])
    else if WriterAct(a) then ApplyWriter(cfg, cl, a, heap)
    else if RunnerAct(a) then ApplyRunner(cfg, cl, a, heap)
    else Effect(ApplyReader(cl, a), [])
  }

  // ---------------------------------------------------------------- closed channels

  /** The acts of a proxy whose streams are destroyed only after their clients are gone. Stopping a
      session that was evicted earlier does no harm. */
  predicate Orderly(a: Act) { !a.Evict? }

  /** A runner on its way out that no longer touches the client. */
  predicate Harmless(r: Runner) { r == Draining || r == Ended }

  predicate SessionsInOrder(cl: Client) {
    && (forall k | 0 <= k < |cl.sessions| :: cl.sessions[k].quitClosed == !cl.sessions[k].active)
    && (forall k | 0 <= k < |cl.sessions| - 1 :: Harmless(cl.sessions[k].runner))
    && (cl.attached ==> cl.sessions != [])
    && (cl.sessions != [] && !cl.attached ==> Harmless(cl.sessions[Last(cl)].runner))
    && (cl.attached ==> cl.sessions[Last(cl)].active == !cl.reader.Stopping? && Last(cl) !in cl.evicted)
    && (forall k <- cl.evicted :: k < |cl.sessions|)
    && (cl.reader.Stopping? || cl.reader.Dismantling? || cl.reader == Gone ==>
          cl.attached == cl.reader.Stopping?)
  }

  /** Which station of `Destroy` the runner of the last session stands at, if any. */
  function RunnerStation(cl: Client): seq<Destroying> {
    if cl.sessions != [] && cl.sessions[Last(cl)].runner.Destroys? then [cl.sessions[Last(cl)].runner.at] else []
  }

  function ReaderStation(cl: Client): seq<Destroying> {
    if cl.reader.Dismantling? then [cl.reader.at] else []
  }

  predicate At(cl: Client, at: Destroying) { RunnerStation(cl) == [at] || ReaderStation(cl) == [at] }

  /** The flags follow the one goroutine that won the swap. */
  predicate ClosesOnce(cl: Client) {
    && (At(cl, Unplugging) ==> cl.destroyed && !cl.connClosed)
    && (At(cl, Closing) ==> cl.destroyed && cl.connClosed && !cl.chanClosed)
    && (At(cl, Awaiting) ==> cl.chanClosed)
    && !(RunnerStation(cl) == ReaderStation(cl) && (At(cl, Unplugging) || At(cl, Closing)))
    && (cl.chanClosed ==> cl.destroyed && cl.connClosed)
    && (cl.destroyed && !cl.connClosed ==> At(cl, Unplugging))
    && (cl.destroyed && cl.connClosed && !cl.chanClosed ==> At(cl, Closing))
    && (cl.connClosed ==> cl.destroyed)
  }

  predicate Live(r: Runner) { r == Ready || r.Holding? }

  /** The invariant behind "no send on a closed channel and no second close". */
  predicate Safe(cl: Client) {
    && SessionsInOrder(cl) && ClosesOnce(cl)
    && (cl.attached && Live(cl.sessions[Last(cl)].runner) ==> !cl.destroyed)
    && (cl.reader == InSetup && !cl.attached ==> !cl.destroyed)
    && !cl.panicked
  }

  lemma RequestKeepsSafe(cl: Client, a: Act, down: bool)
    requires Safe(cl) && Enabled(cl, a, down)
    requires a.Read? || a.Attach? || a.MapChannel? || a.Reply? || a.Leave?
    ensures Safe(ApplyReader(cl, a))
  {
  }

  lemma RemoveKeepsSafe(cl: Client, a: Act, down: bool)
    requires Safe(cl) && Enabled(cl, a, down) && (a.Remove? || a.Removed?)
    ensures Safe(ApplyReader(cl, a))
  {
  }

  lemma DismantleKeepsSafe(cl: Client, a: Act, down: bool)
    requires Safe(cl) && Enabled(cl, a, down) && a.Dismantle?
    ensures Safe(ApplyReader(cl, a))
  {
  }

  lemma RunnerIsLast(cl: Client, k: nat)
    requires Safe(cl) && IsSession(cl, k) && !Harmless(cl.sessions[k].runner)
    ensures cl.attached && k == Last(cl)
  {
  }

  /** An act of a live runner that does not destroy the client. */
  lemma LiveMoveKeepsSafe(cfg: Config, cl: Client, a: Act, down: bool, heap: Heap)
    requires Safe(cl) && Enabled(cl, a, down) && (a.Take? || a.Quit? || a.Send? || a.Timeout?)
    ensures Safe(ApplyRunner(cfg, cl, a, heap).client)
  {
    hide Content, Poolable;
    RunnerIsLast(cl, a.session);
  }

  lemma DrainKeepsSafe(cfg: Config, cl: Client, a: Act, down: bool, heap: Heap)
    requires Safe(cl) && Enabled(cl, a, down) && (a.DrainOne? || a.DrainEnd?)
    ensures Safe(ApplyRunner(cfg, cl, a, heap).client)
  {
    hide Content, Poolable;
  }

  lemma RunnerDestroyKeepsSafe(cfg: Config, cl: Client, a: Act, down: bool, heap: Heap)
    requires Safe(cl) && Enabled(cl, a, down) && a.RunnerDestroy?
    ensures Safe(ApplyRunner(cfg, cl, a, heap).client)
  {
    hide Content, Poolable;
    RunnerIsLast(cl, a.session);
  }

  lemma EvictStopKeepsSafe(cl: Client, k: nat)
    requires Safe(cl) && k in cl.evicted && IsSession(cl, k)
    ensures Safe(StopSession(cl, k))
  {
  }

  /** What the writer touches. */
  lemma WriterFrame(cfg: Config, cl: Client, a: Act, heap: Heap)
    requires Enabled(cl, a, true) && WriterAct(a)
    ensures var c := ApplyWriter(cfg, cl, a, heap).client;
            c == cl.(writer := c.writer, channel := c.channel, written := c.written)
  {
    hide Content, Poolable;
  }

  lemma SafeFrame(cl: Client, cl': Client)
    requires Safe(cl) && cl' == cl.(writer := cl'.writer, channel := cl'.channel, written := cl'.written)
    ensures Safe(cl')
  {
    assert RunnerStation(cl') == RunnerStation(cl) && ReaderStation(cl') == ReaderStation(cl);
  }

  lemma WriterKeepsSafe(cfg: Config, cl: Client, a: Act, heap: Heap)
    requires Safe(cl) && Enabled(cl, a, true) && WriterAct(a)
    ensures Safe(ApplyWriter(cfg, cl, a, heap).client)
  {
    hide Safe, ApplyWriter, Enabled;
    WriterFrame(cfg, cl, a, heap);
    SafeFrame(cl, ApplyWriter(cfg, cl, a, heap).client);
  }

  lemma PushKeepsSafe(cfg: Config, cl: Client, k: nat, p: Slice, heap: Heap)
    requires Safe(cl) && IsSession(cl, k)
    ensures Safe(Push(cfg, cl, k, p, heap).client)
  {
    hide Content, Poolable;
  }

  /** Every act of an orderly proxy keeps the client safe: in particular no act panics. */
  lemma ActKeepsSafe(cfg: Config, cl: Client, a: Act, down: bool, heap: Heap)
    requires Safe(cl) && Enabled(cl, a, down) && Orderly(a)
    ensures Safe(Apply(cfg, cl, a, heap).client)
  {
    hide ApplyReader, ApplyRunner, ApplyWriter, Push, Safe, Enabled;
    if a.Accept? {
      assert IsSession(cl, a.session) by { EnabledAccept(cl, a, down); }
      PushKeepsSafe(cfg, cl, a.session, a.packet, heap);
    } else if WriterAct(a) {
      assert Enabled(cl, a, true) by { DownEnables(cl, a, down); }
      WriterKeepsSafe(cfg, cl, a, heap);
    } else if RunnerAct(a) {
      if a.RunnerDestroy? {
        RunnerDestroyKeepsSafe(cfg, cl, a, down, heap);
      } else if a.DrainOne? || a.DrainEnd? {
        DrainKeepsSafe(cfg, cl, a, down, heap);
      } else {
        LiveMoveKeepsSafe(cfg, cl, a, down, heap);
      }
    } else if a.EvictStop? {
      EnabledAccept(cl, a, down);
      EvictStopKeepsSafe(cl, a.session);
    } else if a.Remove? || a.Removed? {
      RemoveKeepsSafe(cl, a, down);
    } else if a.Dismantle? {
      DismantleKeepsSafe(cl, a, down);
    } else {
      RequestKeepsSafe(cl, a, down);
    }
  }

  lemma DownEnables(cl: Client, a: Act, down: bool)
    requires Enabled(cl, a, down)
    ensures Enabled(cl, a, true)
  {
  }

  lemma EnabledAccept(cl: Client, a: Act, down: bool)
    requires Enabled(cl, a, down) && (a.Accept? || a.EvictStop?)
    ensures IsSession(cl, a.session) && (a.EvictStop? ==> a.session in cl.evicted)
  {
  }
}
