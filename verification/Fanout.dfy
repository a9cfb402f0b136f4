/** The fan-out of one stream: its dispatcher, any number of clients, and the buffer pool they share
    with the other streams of the proxy, in every interleaving. A run is any sequence of events each of
    which can happen when it does. */
module Fanout {
  import opened Bytes
  import opened ClientPipe
  import opened ClientFlow
  import opened ClientOrder

  type Cid = nat

  /** One entry of the snapshot that `dispatch` takes under the stream's lock. */
  datatype Target = Target(client: Cid, session: nat, channel: int)

  datatype Hand = Empty | Got(buf: Buf) | Filled(buf: Buf)

  datatype Dispatcher = Idle | Fanning(packet: bytes, todo: seq<Target>, hand: Hand)

  datatype Shot = Shot(packet: bytes, targets: seq<Target>)

  /** `pool` is a multiset, so that a buffer put back twice would be seen; `foreign` has the buffers
      that the other streams took from it. */
  datatype Sys = Sys(
    heap: Heap, pool: multiset<Buf>, foreign: multiset<Buf>, clients: map<Cid, Client>,
    disp: Dispatcher, down: bool, dispatched: seq<Shot>)

  const INIT: Sys := Sys(map[], multiset{}, multiset{}, map[], Idle, false, [])

  datatype Event =
    | Connect(client: Cid)
    | ClientAct(client: Cid, act: Act)
    | Snapshot(packet: bytes, targets: seq<Target>)
    | GetPooled(buf: Buf)
    | GetFresh(buf: Buf, garbage: bytes)
    | Fill
    | PushNext
    | FanDone
    | Forget(buf: Buf)
    | Shutdown
    // the other streams
    | Lend(buf: Buf)
    | LendFresh(buf: Buf, garbage: bytes)
    | Scribble(buf: Buf, content: bytes)
    | Return(buf: Buf)

  /** `RemoveClient` keeps the stream's lock while it waits for the runner. */
  predicate Unlocked(s: Sys) { forall c | c in s.clients :: !s.clients[c].reader.Stopping? }

  predicate NeedsLock(a: Act) { a.Attach? || a.MapChannel? || a.Remove? || a.Evict? }

  /** What the read loop dispatches; `FanoutTheorems.ReadLoopDispatchesPackets` shows that it is. */
  predicate IsPacket(cfg: Config, packet: bytes) { 4 <= |packet| <= cfg.bufferSize && packet[0] == '$' }

  /** The packet as client channel `ch` sees it: byte 1 replaced. */
  function Stamp(packet: bytes, ch: int): (r: bytes)
    requires |packet| >= 4
    ensures |r| == |packet| && r[1] as int == ch % 256
    ensures forall i | 0 <= i < |packet| && i != 1 :: r[i] == packet[i]
  {
    packet[1 := ToByte(ch)]
  }

  /** A registered session that maps the upstream channel. */
  predicate Mapped(s: Sys, t: Target, upstream: int) {
    && t.client in s.clients && s.clients[t.client].attached && s.clients[t.client].sessions != []
    && t.session == Last(s.clients[t.client])
    && upstream in s.clients[t.client].sessions[t.session].channels
    && t.channel == s.clients[t.client].sessions[t.session].channels[upstream]
  }

  /** The targets are the registered clients that map the channel, each once, in any order. */
  ghost predicate IsSnapshot(s: Sys, targets: seq<Target>, upstream: int) {
    && (forall i | 0 <= i < |targets| :: Mapped(s, targets[i], upstream))
    && (forall i, j | 0 <= i < j < |targets| :: targets[i].client != targets[j].client)
    && (forall t: Target | Mapped(s, t, upstream) :: t in targets)
  }

  ghost predicate Can(cfg: Config, s: Sys, e: Event) {
    match e
    case Connect(c) => c !in s.clients
    case ClientAct(c, a) =>
      c in s.clients && !a.Accept? && Enabled(s.clients[c], a, s.down) && (NeedsLock(a) ==> Unlocked(s))
    case Snapshot(packet, targets) =>
      s.disp.Idle? && Unlocked(s) && IsPacket(cfg, packet) && IsSnapshot(s, targets, packet[1] as int)
    case GetPooled(b) => s.disp.Fanning? && s.disp.todo != [] && s.disp.hand.Empty? && s.pool[b] > 0
    case GetFresh(b, garbage) =>
      s.disp.Fanning? && s.disp.todo != [] && s.disp.hand.Empty? && b !in s.heap && |garbage| == cfg.bufferSize
    case Fill => s.disp.Fanning? && s.disp.todo != [] && s.disp.hand.Got?
      && s.disp.hand.buf in s.heap && |s.disp.packet| >= 4
    case PushNext =>
      && s.disp.Fanning? && s.disp.todo != [] && s.disp.hand.Filled?
      && s.disp.todo[0].client in s.clients && IsSession(s.clients[s.disp.todo[0].client], s.disp.todo[0].session)
    case FanDone => s.disp.Fanning? && s.disp.todo == [] && s.disp.hand.Empty?
    case Forget(b) => s.pool[b] > 0
    case Shutdown => true
    case Lend(b) => s.pool[b] > 0
    case LendFresh(b, garbage) => b !in s.heap && |garbage| == cfg.bufferSize
    case Scribble(b, content) => s.foreign[b] > 0 && b in s.heap && |content| == cfg.bufferSize
    case Return(b) => s.foreign[b] > 0
  }

  /** One act of one client, with the buffers it puts back. */
  function OnClient(cfg: Config, s: Sys, c: Cid, a: Act): Sys
    requires c in s.clients && Enabled(s.clients[c], a, true)
  {
    var e := Apply(cfg, s.clients[c], a, s.heap);
    s.(clients := s.clients[c := e.client], pool := s.pool + multiset(e.put))
  }

  /** `copy(clientPacket, packet)` and the channel byte, over the front of the buffer. */
  function Filling(was: bytes, packet: bytes, ch: int): bytes
    requires |packet| >= 4
  {
    if |packet| <= |was| then Stamp(packet, ch) + was[|packet|..] else was
  }

  ghost function Do(cfg: Config, s: Sys, e: Event): Sys
    requires Can(cfg, s, e)
  {
    match e
    case Connect(c) => s.(clients := s.clients[c := NEW_CLIENT])
    case ClientAct(c, a) => OnClient(cfg, s, c, a)
    case Snapshot(packet, targets) =>
      s.(disp := Fanning(packet, targets, Empty), dispatched := s.dispatched + [Shot(packet, targets)])
    case GetPooled(b) => s.(disp := s.disp.(hand := Got(b)), pool := s.pool - multiset{b})
    case GetFresh(b, garbage) => s.(disp := s.disp.(hand := Got(b)), heap := s.heap[b := garbage])
    case Fill =>
      var b := s.disp.hand.buf;
      s.(disp := s.disp.(hand := Filled(b)),
         heap := s.heap[b := Filling(s.heap[b], s.disp.packet, s.disp.todo[0].channel)])
    case PushNext =>
      var t := s.disp.todo[0];
      OnClient(cfg, s, t.client, Accept(t.session, Slice(s.disp.hand.buf, |s.disp.packet|)))
      .(disp := s.disp.(todo := s.disp.todo[1..], hand := Empty))
    case FanDone => s.(disp := Idle)
    case Forget(b) => s.(pool := s.pool - multiset{b})
    case Shutdown => s.(down := true)
    case Lend(b) => s.(pool := s.pool - multiset{b}, foreign := s.foreign + multiset{b})
    case LendFresh(b, garbage) => s.(heap := s.heap[b := garbage], foreign := s.foreign + multiset{b})
    case Scribble(b, content) => s.(heap := s.heap[b := content])
    case Return(b) => s.(pool := s.pool + multiset{b}, foreign := s.foreign - multiset{b})
  }

  ghost predicate Possible(cfg: Config, s: Sys, es: seq<Event>)
    decreases |es|, 0
  {
    es == [] || (Possible(cfg, s, es[..|es| - 1]) && Can(cfg, Exec(cfg, s, es[..|es| - 1]), es[|es| - 1]))
  }

  ghost function Exec(cfg: Config, s: Sys, es: seq<Event>): Sys
    requires Possible(cfg, s, es)
    decreases |es|, 1
  {
    if es == [] then s else Do(cfg, Exec(cfg, s, es[..|es| - 1]), es[|es| - 1])
  }

  // ---------------------------------------------------------------- ownership

  datatype Holder = Pool | InDispatch | OfClient(client: Cid) | Elsewhere

  function DispHolds(d: Dispatcher, b: Buf): nat {
    if d.Fanning? && !d.hand.Empty? then One(b, d.hand.buf) else 0
  }

  /** In how many places of a holder the buffer is. */
  function Holds(s: Sys, h: Holder, b: Buf): nat {
    match h
    case Pool => s.pool[b]
    case InDispatch => DispHolds(s.disp, b)
    case OfClient(c) => if c in s.clients then Held(s.clients[c], b) else 0
    case Elsewhere => s.foreign[b]
  }

  /** Each buffer is in at most one place: of all the pool slots, queues, runners' hands, write
      channels, writers' hands, the dispatcher's hand and the other streams, at most one has it, once. */
  ghost predicate Exclusive(s: Sys) {
    && (forall h, b :: Holds(s, h, b) <= 1 && (Holds(s, h, b) > 0 ==> b in s.heap))
    && (forall h, g, b | Holds(s, h, b) > 0 && Holds(s, g, b) > 0 :: h == g)
  }

  /** If a step only moves buffers between two holders, exclusive ownership is kept. */
  lemma MoveKeepsExclusive(s: Sys, s': Sys, from: Holder, to: Holder)
    requires Exclusive(s) && s.heap.Keys <= s'.heap.Keys && from != to
    requires forall h, b | h != from && h != to :: Holds(s', h, b) == Holds(s, h, b)
    requires forall b :: Holds(s', from, b) + Holds(s', to, b) == Holds(s, from, b) + Holds(s, to, b)
    ensures Exclusive(s')
  {
    hide Holds;
    forall h, b ensures Holds(s', h, b) <= 1 && (Holds(s', h, b) > 0 ==> b in s'.heap) {
      assert Holds(s, from, b) + Holds(s, to, b) <= 1;
    }
    forall h, g, b | Holds(s', h, b) > 0 && Holds(s', g, b) > 0 ensures h == g {
      assert Holds(s', from, b) + Holds(s', to, b) == Holds(s, from, b) + Holds(s, to, b) <= 1;
    }
  }

  /** Dropping or keeping buffers, without moving any, keeps exclusive ownership. */
  lemma ShrinkKeepsExclusive(s: Sys, s': Sys)
    requires Exclusive(s) && s.heap.Keys <= s'.heap.Keys
    requires forall h, b :: Holds(s', h, b) <= Holds(s, h, b)
    ensures Exclusive(s')
  {
    hide Holds;
    forall h, b ensures Holds(s', h, b) <= 1 && (Holds(s', h, b) > 0 ==> b in s'.heap) {
      assert Holds(s', h, b) <= Holds(s, h, b);
    }
    forall h, g, b | Holds(s', h, b) > 0 && Holds(s', g, b) > 0 ensures h == g {
      assert Holds(s', h, b) <= Holds(s, h, b) && Holds(s', g, b) <= Holds(s, g, b);
    }
  }

  // ---------------------------------------------------------------- the invariant

  predicate DispOk(cfg: Config, s: Sys) {
    s.disp.Fanning? ==>
      && IsPacket(cfg, s.disp.packet)
      && (!s.disp.hand.Empty? ==> s.disp.todo != [])
      && (forall i, j | 0 <= i < j < |s.disp.todo| :: s.disp.todo[i].client != s.disp.todo[j].client)
      && (forall i | 0 <= i < |s.disp.todo| ::
            s.disp.todo[i].client in s.clients && IsSession(s.clients[s.disp.todo[i].client], s.disp.todo[i].session))
      && (s.disp.hand.Filled? ==>
            && s.disp.hand.buf in s.heap && |s.heap[s.disp.hand.buf]| == cfg.bufferSize
            && s.heap[s.disp.hand.buf][..|s.disp.packet|] == Stamp(s.disp.packet, s.disp.todo[0].channel))
  }

  predicate HeapOk(cfg: Config, s: Sys) { forall b | b in s.heap :: |s.heap[b]| == cfg.bufferSize }

  ghost predicate ClientOk(cfg: Config, s: Sys, c: Cid)
    requires c in s.clients
  {
    ClientPoolable(cfg, s.clients[c], s.heap) && Flow(s.clients[c], s.heap)
  }

  /** What the dispatcher owes to one session: the stamped packets of the targets that are its. */
  function ForTargets(packet: bytes, ts: seq<Target>, c: Cid, k: nat): seq<bytes>
    requires |packet| >= 4
  {
    if ts == [] then []
    else (if ts[0].client == c && ts[0].session == k then [Stamp(packet, ts[0].channel)] else [])
         + ForTargets(packet, ts[1..], c, k)
  }

  predicate ShotsOk(shots: seq<Shot>) { forall i | 0 <= i < |shots| :: |shots[i].packet| >= 4 }

  /** All packets ever dispatched to one session, in order, as that client should see them. */
  function Targeted(shots: seq<Shot>, c: Cid, k: nat): seq<bytes>
    requires ShotsOk(shots)
  {
    if shots == [] then []
    else
      var last := shots[|shots| - 1];
      Targeted(shots[..|shots| - 1], c, k) + ForTargets(last.packet, last.targets, c, k)
  }

  function Pending(d: Dispatcher, c: Cid, k: nat): seq<bytes>
    requires d.Fanning? ==> |d.packet| >= 4
  {
    if d.Fanning? then ForTargets(d.packet, d.todo, c, k) else []
  }

  function Offered(offers: seq<Offer>): (ps: seq<bytes>)
    ensures |ps| == |offers| && forall i | 0 <= i < |offers| :: ps[i] == offers[i].payload
  {
    seq(|offers|, i requires 0 <= i < |offers| => offers[i].payload)
  }

  /** What was pushed to a session plus what is still to be pushed is what was dispatched to it. */
  predicate Accounted(s: Sys, c: Cid, k: nat)
    requires c in s.clients && IsSession(s.clients[c], k)
    requires ShotsOk(s.dispatched) && (s.disp.Fanning? ==> |s.disp.packet| >= 4)
  {
    Offered(s.clients[c].sessions[k].offers) + Pending(s.disp, c, k) == Targeted(s.dispatched, c, k)
  }

  /** A session that is not there yet has nothing dispatched to it. */
  ghost predicate NothingEarly(s: Sys)
    requires ShotsOk(s.dispatched)
  {
    forall c, k: nat :: !(c in s.clients && IsSession(s.clients[c], k)) ==> Targeted(s.dispatched, c, k) == []
  }

  ghost predicate Inv(cfg: Config, s: Sys) {
    && HeapOk(cfg, s) && Exclusive(s) && DispOk(cfg, s) && ShotsOk(s.dispatched)
    && (forall c | c in s.clients :: ClientOk(cfg, s, c))
    && (forall c, k: nat | c in s.clients && IsSession(s.clients[c], k) :: Accounted(s, c, k))
    && NothingEarly(s)
  }
}
