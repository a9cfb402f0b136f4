/** The guarantees of the fan-out, stated over whole runs. */
module FanoutTheorems {
  import opened Bytes
  import opened ClientPipe
  import opened ClientFlow
  import opened ClientOrder
  import opened Fanout
  import opened FanoutSafety
  import Demux

  // ---------------------------------------------------------------- ownership and closed channels

  /** What the read loop dispatches is a packet: every frame it cuts from any stream, in any chunking,
      has its four header bytes, starts with `$`, and is no longer than the buffer it was cut from, so
      that it fits a pooled buffer of the same size. */
  lemma ReadLoopDispatchesPackets(cfg: Config, stream: bytes, sizes: seq<nat>, i: nat)
    requires 0 < cfg.bufferSize && |stream| + cfg.bufferSize <= MAX_INT64 - 4
    requires i < |Demux.Run(cfg.bufferSize, stream, sizes).0.out|
             && Demux.Run(cfg.bufferSize, stream, sizes).0.out[i].Frame?
    ensures IsPacket(cfg, Demux.Run(cfg.bufferSize, stream, sizes).0.out[i].packet)
  {
    Demux.FramesFit(cfg.bufferSize, stream, sizes);
  }

  /** After any run, in which streams may be destroyed at any time and other streams use the same pool,
      each pooled buffer is in at most one place; every buffer has the pool's size, so slicing it to the
      packet's length is in bounds; and every packet on its way to a client is one that the guard in
      front of `Put` lets back into the pool. */
  lemma ExclusiveOwnership(cfg: Config, es: seq<Event>)
    requires Possible(cfg, INIT, es)
    ensures Exclusive(Exec(cfg, INIT, es)) && HeapOk(cfg, Exec(cfg, INIT, es))
    ensures Exec(cfg, INIT, es).disp.Fanning? ==> |Exec(cfg, INIT, es).disp.packet| <= cfg.bufferSize
    ensures forall c | c in Exec(cfg, INIT, es).clients ::
              ClientPoolable(cfg, Exec(cfg, INIT, es).clients[c], Exec(cfg, INIT, es).heap)
  {
    hide Exec, Exclusive, ClientPoolable, Flow;
    RunInv(cfg, es);
    forall c | c in Exec(cfg, INIT, es).clients
      ensures ClientPoolable(cfg, Exec(cfg, INIT, es).clients[c], Exec(cfg, INIT, es).heap)
    {
      assert ClientOk(cfg, Exec(cfg, INIT, es), c);
    }
  }

  /** In no run of a proxy that destroys its streams only after their clients are gone does a
      goroutine send on a closed write channel or close a write channel or a quit channel twice; and
      once a reader is gone its client has no session registered, so a stream destroyed then has none
      to stop. `Eviction` says what happens otherwise. */
  lemma NoClosedChannel(cfg: Config, es: seq<Event>)
    requires Possible(cfg, INIT, es) && OrderlyRun(es)
    ensures forall c | c in Exec(cfg, INIT, es).clients :: !Exec(cfg, INIT, es).clients[c].panicked
    ensures forall c | c in Exec(cfg, INIT, es).clients && Exec(cfg, INIT, es).clients[c].reader == Gone ::
              !Exec(cfg, INIT, es).clients[c].attached
  {
    hide Exec;
    OrderlyRunSafe(cfg, es);
  }

  // ---------------------------------------------------------------- order and content

  /** `a` is `b` with some elements left out. */
  ghost predicate Subsequence(a: seq<bytes>, b: seq<bytes>) {
    if b == [] then a == []
    else
      || Subsequence(a, b[..|b| - 1])
      || (a != [] && a[|a| - 1] == b[|b| - 1] && Subsequence(a[..|a| - 1], b[..|b| - 1]))
  }

  function Refused(offers: seq<Offer>): nat {
    if offers == [] then 0
    else Refused(offers[..|offers| - 1]) + (if offers[|offers| - 1].taken then 0 else 1)
  }

  lemma {:induction false} AcceptedIsSubsequence(offers: seq<Offer>)
    ensures Subsequence(Accepted(offers), Offered(offers))
    ensures |Accepted(offers)| + Refused(offers) == |offers|
  {
    if offers == [] {
    } else {
      var n := |offers| - 1;
      AcceptedIsSubsequence(offers[..n]);
      assert Offered(offers)[..n] == Offered(offers[..n]);
      if offers[n].taken {
        assert Accepted(offers)[..|Accepted(offers)| - 1] == Accepted(offers[..n]);
      } else {
        assert Accepted(offers) == Accepted(offers[..n]);
      }
    }
  }

  /** Order and content, over every run, for every session of every client. The packets dispatched
      to the session, each with byte 1 replaced by the client channel mapped when it was dispatched,
      are exactly those offered to its queue followed by those the dispatcher still owes it. What
      the queue accepted is a subsequence of the offers, the rest being counted as dropped. What of
      it was written to the socket is a prefix of what was accepted, byte for byte. */
  lemma OrderAndContent(cfg: Config, es: seq<Event>, c: Cid, k: nat)
    requires Possible(cfg, INIT, es)
    requires c in Exec(cfg, INIT, es).clients && IsSession(Exec(cfg, INIT, es).clients[c], k)
    ensures var s := Exec(cfg, INIT, es);
            var cl := s.clients[c];
            var offers := cl.sessions[k].offers;
            && ShotsOk(s.dispatched) && (s.disp.Fanning? ==> |s.disp.packet| >= 4)
            && Offered(offers) + Pending(s.disp, c, k) == Targeted(s.dispatched, c, k)
            && Subsequence(Accepted(offers), Offered(offers))
            && |Accepted(offers)| + Refused(offers) == |offers|
            && |cl.written| <= |cl.forwarded|
            && cl.written == Payloads(cl.forwarded[..|cl.written|])
            && FromSession(cl.forwarded[..|cl.written|], k) <= Accepted(offers)
  {
    hide Exec, Exclusive, ClientPoolable, Flow, Targeted, Offered, Accepted, FromSession, Subsequence;
    RunInv(cfg, es);
    var s := Exec(cfg, INIT, es);
    assert ClientOk(cfg, s, c) && Accounted(s, c, k);
    AcceptedIsSubsequence(s.clients[c].sessions[k].offers);
    WrittenInOrder(s.clients[c], s.heap, k);
  }
}
