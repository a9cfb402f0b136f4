/** Channel numbers on the way from camera to client and back. */
module Channels {
  import opened Bytes
  import opened MixedStream
  import opened Fanout
  import opened ClientFrames

  /** The keys of a map in some iteration order. */
  predicate Lists(order: seq<int>, m: map<int, int>) {
    (forall i | 0 <= i < |order| :: order[i] in m) && (forall k <- m :: k in order)
  }

  /** The first key in the order that is mapped to `tcp`, or else `tcp` itself. */
  function FirstMapped(m: map<int, int>, tcp: int, order: seq<int>): int {
    if order == [] then tcp
    else if order[0] in m && m[order[0]] == tcp then order[0]
    else FirstMapped(m, tcp, order[1..])
  }

  /** The upstream channel for a client's frame: the loop over the client's channel map, which Go
      iterates in an arbitrary order. */
  method ReverseLookup(channels: map<int, int>, tcp: int, order: seq<int>) returns (u: int)
    requires Lists(order, channels)
    ensures u == FirstMapped(channels, tcp, order)
    ensures MayAnswer(channels, tcp, u)
  {
    u := tcp;
    var i := 0;
    while i < |order|
      invariant 0 <= i <= |order| && u == tcp
      invariant forall j | 0 <= j < i :: order[j] in channels && channels[order[j]] != tcp
      invariant FirstMapped(channels, tcp, order) == FirstMapped(channels, tcp, order[i..])
    {
      if channels[order[i]] == tcp {
        return order[i];
      }
      i := i + 1;
    }
  }

  /** The possible answers: a channel mapped to the client's channel, or that channel itself where
      there is none. */
  predicate MayAnswer(m: map<int, int>, tcp: int, u: int) {
    if exists k <- m :: m[k] == tcp then u in m && m[u] == tcp else u == tcp
  }

  lemma {:induction false} FirstAnswers(m: map<int, int>, tcp: int, order: seq<int>)
    ensures var u := FirstMapped(m, tcp, order);
            (u in m && m[u] == tcp && u in order) || (u == tcp && forall k <- order | k in m :: m[k] != tcp)
  {
    if order == [] || (order[0] in m && m[order[0]] == tcp) {
    } else {
      FirstAnswers(m, tcp, order[1..]);
      forall k | k in order && k in m && k != order[0] ensures k in order[1..] {
        var i :| 0 <= i < |order| && order[i] == k;
        assert order[1..][i - 1] == k;
      }
    }
  }

  lemma {:induction false} Listing(keys: set<int>) returns (order: seq<int>)
    ensures (forall i | 0 <= i < |order| :: order[i] in keys) && (forall k <- keys :: k in order)
  {
    if k :| k in keys {
      order := Listing(keys - {k});
      order := [k] + order;
    } else {
      order := [];
    }
  }

  /** They are exactly the answers some iteration order gives. */
  lemma AnswersIff(m: map<int, int>, tcp: int, u: int)
    ensures MayAnswer(m, tcp, u) <==> exists order :: Lists(order, m) && FirstMapped(m, tcp, order) == u
  {
    hide FirstMapped;
    if MayAnswer(m, tcp, u) {
      var rest := Listing(m.Keys);
      var order := if u in m then [u] + rest else rest;
      assert Lists(order, m);
      FirstAnswers(m, tcp, order);
      if u in m && m[u] == tcp { HeadMapped(m, tcp, u, rest); }
    }
    forall order | Lists(order, m) ensures MayAnswer(m, tcp, FirstMapped(m, tcp, order)) {
      FirstAnswers(m, tcp, order);
    }
  }

  lemma HeadMapped(m: map<int, int>, tcp: int, u: int, rest: seq<int>)
    requires u in m && m[u] == tcp
    ensures FirstMapped(m, tcp, [u] + rest) == u
  {
  }

  /** Rewriting the channel byte of a frame gives the frame for the new channel: nothing else changes. */
  lemma StampedIsFrame(u: int, c: int, data: bytes)
    ensures Stamp(EncodeFrame(u, data), c) == EncodeFrame(c, data)
  {
  }

  function Low(n: int): int { n % 256 }

  /** A camera frame on channel `u`, dispatched to the client, sent back by it and looked up, may go
      upstream on channel `r`. */
  predicate MayEcho(m: map<int, int>, u: int, data: bytes, r: int)
    requires u in m
  {
    MayAnswer(m, Stamp(EncodeFrame(u, data), m[u])[1] as int, r)
  }

  /** Every way back of a frame on channel `u` leads to the original frame. */
  ghost predicate Transparent(m: map<int, int>, u: int, data: bytes)
    requires u in m
  {
    forall r: int | MayEcho(m, u, data, r) :: EncodeFrame(r, data) == EncodeFrame(u, data)
  }

  /** What the low byte of the client channel is taken for stands for the same upstream byte: all the
      channels mapped to it, or, if there are none, the byte itself. */
  predicate Consistent(m: map<int, int>, u: int)
    requires u in m
  {
    && (forall k <- m | m[k] == Low(m[u]) :: Low(k) == Low(u))
    && ((exists k <- m :: m[k] == Low(m[u])) || Low(u) == Low(m[u]))
  }

  predicate Injective(m: map<int, int>) { forall u <- m, v <- m | m[u] == m[v] :: u == v }

  lemma SameFrame(r: int, u: int, data: bytes)
    ensures EncodeFrame(r, data) == EncodeFrame(u, data) <==> Low(r) == Low(u)
  {
    assert EncodeFrame(r, data)[1] == ToByte(r) && EncodeFrame(u, data)[1] == ToByte(u);
    ByteOf(r);
    ByteOf(u);
  }

  lemma ByteOf(n: int)
    ensures ToByte(n) as int == Low(n) && Low(Low(n)) == Low(n)
    ensures 0 <= n < 256 ==> Low(n) == n
  {
  }

  lemma EchoSees(m: map<int, int>, u: int, data: bytes)
    requires u in m
    ensures Stamp(EncodeFrame(u, data), m[u])[1] as int == Low(m[u])
  {
    StampedIsFrame(u, m[u], data);
    ByteOf(m[u]);
  }

  /** Camera to client to camera gives back the same bytes, for every iteration order of the map,
      exactly when the map is consistent at the channel. */
  lemma TransparentIff(m: map<int, int>, u: int, data: bytes)
    requires u in m
    ensures Transparent(m, u, data) <==> Consistent(m, u)
  {
    hide Stamp, EncodeFrame, Low;
    EchoSees(m, u, data);
    ByteOf(m[u]);
    if Transparent(m, u, data) {
      forall k | k in m && m[k] == Low(m[u]) ensures Low(k) == Low(u) {
        assert MayEcho(m, u, data, k);
        SameFrame(k, u, data);
      }
      if forall k <- m :: m[k] != Low(m[u]) {
        assert MayEcho(m, u, data, Low(m[u]));
        SameFrame(Low(m[u]), u, data);
      }
    }
    if Consistent(m, u) {
      forall r: int | MayEcho(m, u, data, r) ensures EncodeFrame(r, data) == EncodeFrame(u, data) {
        SameFrame(r, u, data);
      }
    }
  }

  /** For channel numbers that fit a byte, all channels are transparent exactly when no two upstream
      channels share a client channel. */
  lemma AllTransparentIff(m: map<int, int>, data: bytes)
    requires forall u <- m :: 0 <= u < 256 && 0 <= m[u] < 256
    ensures (forall u <- m :: Transparent(m, u, data)) <==> Injective(m)
  {
    hide Transparent, Low;
    forall u | u in m ensures Transparent(m, u, data) <==> Consistent(m, u) { TransparentIff(m, u, data); }
    forall u | u in m ensures Low(u) == u && Low(m[u]) == m[u] {
      ByteOf(u);
      ByteOf(m[u]);
    }
    if Injective(m) {
      forall u | u in m ensures Transparent(m, u, data) { assert Consistent(m, u); }
    }
    if forall u <- m :: Transparent(m, u, data) {
      forall u, v | u in m && v in m && m[u] == m[v] ensures u == v { assert Consistent(m, u); }
    }
  }

  /** The i-th frame the reader hands on, whatever the reads were, goes upstream as the i-th frame the
      client sent with only its channel byte replaced, by an upstream channel that is mapped to the
      client's channel if there is one. */
  lemma ClientFrameUpstream(m: map<int, int>, cap: nat, fs: seq<Out>, sizes: seq<nat>, i: nat, r: int)
    requires Sendable(fs) && i < |Served(cap, State([], Encoded(fs), []), sizes).out|
    requires var o := Served(cap, State([], Encoded(fs), []), sizes).out[i]; o.Packet? ==> MayAnswer(m, o.channel, r)
    ensures var o := Served(cap, State([], Encoded(fs), []), sizes).out[i];
            && i < |fs| && o.Packet?
            && EncodeFrame(r, o.data) == Stamp(EncodeFrame(fs[i].channel, fs[i].data), r)
            && ((exists k <- m :: m[k] == fs[i].channel) ==> r in m && m[r] == fs[i].channel)
  {
    hide Served, Encoded, Stamp, EncodeFrame;
    FramesInOrder(cap, fs, sizes);
    StampedIsFrame(fs[i].channel, r, fs[i].data);
  }

  /** Two upstream channels on one client channel: a frame may come back on the other one. */
  lemma SharedChannelIsOpaque(data: bytes)
    ensures !Transparent(map[0 := 5, 1 := 5], 0, data)
  {
    var m: map<int, int> := map[0 := 5, 1 := 5];
    assert m[1] == Low(m[0]) && Low(1) != Low(0);
    TransparentIff(m, 0, data);
  }
}
