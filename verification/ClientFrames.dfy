/** The client side of the interleaved channel: the reader loop that cuts `$` frames out of what a
    client sends, in a fixed buffer that is shifted in place. */
module ClientFrames {
  import opened Bytes
  import opened MixedStream

  const HEADER: nat := 4
  const BUFFER_SIZE: nat := 65536

  /** What the loop hands on: a frame for the camera, or text to be parsed as a request. */
  datatype Out = Packet(channel: int, data: bytes) | Text(text: bytes)

  /** The bytes held in the buffer, those still in the socket, and what was handed on. */
  datatype State = State(held: bytes, input: bytes, out: seq<Out>)

  function PayloadLength(h: bytes): nat
    requires |h| >= HEADER
  {
    h[2] as int * 256 + h[3] as int
  }

  predicate Complete(h: bytes) { |h| >= HEADER && |h| >= HEADER + PayloadLength(h) }

  function Min(a: nat, b: nat): nat { if a <= b then a else b }

  /** One read of at most `size` bytes into the free part of the buffer. */
  function Filled(cap: nat, s: State, size: nat): State
    requires |s.held| <= cap
  {
    var n := Min(size, Min(|s.input|, cap - |s.held|));
    State(s.held + s.input[..n], s.input[n..], s.out)
  }

  /** What follows a read: at most one item is handed on. */
  function Settle(s: State): State {
    if s.held == [] then s
    else if s.held[0] != '$' then State([], s.input, s.out + [Text(s.held)])
    else if Complete(s.held) then
      var n := PayloadLength(s.held);
      State(s.held[HEADER + n..], s.input, s.out + [Packet(s.held[1] as int, s.held[HEADER..HEADER + n])])
    else s
  }

  function OneRead(cap: nat, s: State, size: nat): (t: State)
    requires |s.held| <= cap
    ensures |t.held| <= cap
  {
    Settle(Filled(cap, s, size))
  }

  /** The loop, read by read. */
  function Served(cap: nat, s: State, sizes: seq<nat>): (t: State)
    requires |s.held| <= cap
    ensures |t.held| <= cap
  {
    if sizes == [] then s else OneRead(cap, Served(cap, s, sizes[..|sizes| - 1]), sizes[|sizes| - 1])
  }

  lemma ServedSnoc(cap: nat, s: State, sizes: seq<nat>, k: nat)
    requires |s.held| <= cap && k < |sizes|
    ensures Served(cap, s, sizes[..k + 1]) == OneRead(cap, Served(cap, s, sizes[..k]), sizes[k])
  {
    assert sizes[..k + 1][..k] == sizes[..k];
  }

  // ---------------------------------------------------------------- the loop of the source

  class ClientReader {
    const buffer: array<byte>
    var length: nat
    var input: bytes
    var out: seq<Out>

    predicate Valid()
      reads this
    {
      buffer.Length == BUFFER_SIZE && length <= BUFFER_SIZE
    }

    function Value(): State
      requires Valid()
      reads this, buffer
    {
      State(buffer[..length], input, out)
    }

    constructor (input: bytes)
      ensures Valid() && fresh(buffer) && Value() == State([], input, [])
    {
      buffer := new byte[BUFFER_SIZE];
      length := 0;
      this.input := input;
      out := [];
    }

    method Read(size: nat)
      requires Valid()
      modifies this, buffer
      ensures Valid() && Value() == Filled(BUFFER_SIZE, old(Value()), size)
    {
      var n := Min(size, Min(|input|, BUFFER_SIZE - length));
      ghost var was := buffer[..length];
      var i := 0;
      while i < n
        invariant 0 <= i <= n && unchanged(this)
        invariant buffer[..length] == was
        invariant buffer[length..length + i] == input[..i]
      {
        buffer[length + i] := input[i];
        i := i + 1;
      }
      assert buffer[..length + n] == buffer[..length] + buffer[length..length + n];
      length := length + n;
      input := input[n..];
    }

    /** Drop the first `n` bytes, moving the rest to the front. */
    method Shift(n: nat)
      requires Valid() && n <= length
      modifies this`length, buffer
      ensures Valid() && Value() == old(Value()).(held := old(buffer[..length])[n..])
    {
      ghost var was := buffer[..length];
      var i := 0;
      while i < length - n
        invariant 0 <= i <= length - n && length == |was|
        invariant forall k | 0 <= k < i :: buffer[k] == was[n + k]
        invariant forall k | i <= k < length :: buffer[k] == was[k]
      {
        buffer[i] := buffer[n + i];
        i := i + 1;
      }
      length := length - n;
      assert buffer[..length] == was[n..];
    }

    method HandOn()
      requires Valid() && Complete(buffer[..length]) && buffer[0] == '$'
      modifies this, buffer
      ensures Valid() && Value() == Settle(old(Value()))
    {
      var tcpChannel := buffer[1] as int;
      var dataLength := buffer[2] as int * 256 + buffer[3] as int;
      assert dataLength == PayloadLength(buffer[..length]);
      assert HEADER + dataLength <= length;
      var data := buffer[HEADER..HEADER + dataLength];
      ghost var held := buffer[..length];
      assert forall i | 0 <= i < dataLength :: data[i] == held[HEADER + i];
      assert data == held[HEADER..HEADER + dataLength];
      Shift(HEADER + dataLength);
      out := out + [Packet(tcpChannel, data)];
    }

    /** The nested loops; the read sizes are what the network decides, and running out of them stands
        for the end of the connection. */
    method Serve(sizes: seq<nat>)
      requires Valid()
      modifies this, buffer
      ensures Valid() && Value() == Served(BUFFER_SIZE, old(Value()), sizes)
    {
      hide Complete, Filled, PayloadLength;
      ghost var start := Value();
      var k := 0;
      while k < |sizes|
        invariant 0 <= k <= |sizes| && Valid()
        invariant Value() == Served(BUFFER_SIZE, start, sizes[..k])
      {
        Read(sizes[k]);
        ServedSnoc(BUFFER_SIZE, start, sizes, k);
        k := k + 1;
        if length == 0 {
          continue;
        }
        if buffer[0] == '$' {
          k := FinishFrame(sizes, k, start);
          CompleteHeld();
          if !(length >= HEADER && length >= HEADER + (buffer[2] as int * 256 + buffer[3] as int)) {
            assert sizes[..k] == sizes;
            return;
          }
          HandOn();
        } else {
          out := out + [Text(buffer[..length])];
          length := 0;
        }
      }
      assert sizes[..k] == sizes;
    }

    lemma CompleteHeld()
      requires Valid()
      ensures Complete(buffer[..length]) <==>
              length >= HEADER && length >= HEADER + (buffer[2] as int * 256 + buffer[3] as int)
    {
    }

    /** The two inner loops: read on until the header, and then the frame, is there. */
    method FinishFrame(sizes: seq<nat>, from: nat, ghost start: State) returns (k: nat)
      requires Valid() && from <= |sizes| && |start.held| <= BUFFER_SIZE
      requires length > 0 && buffer[0] == '$' && Settle(Value()) == Served(BUFFER_SIZE, start, sizes[..from])
      modifies this, buffer
      ensures Valid() && from <= k <= |sizes| && length > 0 && buffer[0] == '$'
      ensures Settle(Value()) == Served(BUFFER_SIZE, start, sizes[..k])
      ensures Complete(buffer[..length]) || k == |sizes|
    {
      hide Complete, Filled, PayloadLength, Settle, Served;
      k := from;
      while length < HEADER && k < |sizes|
        invariant Valid() && from <= k <= |sizes| && length > 0 && buffer[0] == '$'
        invariant Settle(Value()) == Served(BUFFER_SIZE, start, sizes[..k])
      {
        CompleteHeld();
        ReadOn(sizes, k, start);
        k := k + 1;
      }
      if length < HEADER {
        return;
      }
      while length - HEADER < buffer[2] as int * 256 + buffer[3] as int && k < |sizes|
        invariant Valid() && from <= k <= |sizes| && length >= HEADER && buffer[0] == '$'
        invariant Settle(Value()) == Served(BUFFER_SIZE, start, sizes[..k])
        decreases |sizes| - k
      {
        CompleteHeld();
        ReadOn(sizes, k, start);
        k := k + 1;
      }
      CompleteHeld();
    }

    method ReadOn(sizes: seq<nat>, k: nat, ghost start: State)
      requires Valid() && k < |sizes| && |start.held| <= BUFFER_SIZE
      requires length > 0 && buffer[0] == '$' && !Complete(buffer[..length])
      requires Settle(Value()) == Served(BUFFER_SIZE, start, sizes[..k])
      modifies this, buffer
      ensures Valid() && length >= old(length) && buffer[0] == '$'
      ensures Settle(Value()) == Served(BUFFER_SIZE, start, sizes[..k + 1])
    {
      hide Complete, PayloadLength;
      ServedSnoc(BUFFER_SIZE, start, sizes, k);
      ghost var held := buffer[..length];
      assert held[0] == '$';
      Read(sizes[k]);
      assert buffer[..length][0] == held[0];
    }
  }

  // ---------------------------------------------------------------- conservation and order

  function WireOf(o: Out): bytes {
    match o
    case Packet(ch, data) => EncodeFrame(ch, data)
    case Text(t) => t
  }

  function Wire(out: seq<Out>): bytes { if out == [] then [] else Wire(out[..|out| - 1]) + WireOf(out[|out| - 1]) }

  lemma WireSnoc(out: seq<Out>, o: Out)
    ensures Wire(out + [o]) == Wire(out) + WireOf(o)
  {
    assert (out + [o])[..|out|] == out;
  }

  lemma CutIsFrame(h: bytes)
    requires Complete(h) && h[0] == '$'
    ensures var n := PayloadLength(h);
            n < 0x1_0000 && EncodeFrame(h[1] as int, h[HEADER..HEADER + n]) == h[..HEADER + n]
  {
    var n := PayloadLength(h);
    var data := h[HEADER..HEADER + n];
    assert ToByte(h[1] as int) == h[1];
    assert ToByte(n / 256) == h[2] && ToByte(n) == h[3];
    assert h[..HEADER + n] == [h[0], h[1], h[2], h[3]] + data;
  }

  lemma SettleConserves(s: State)
    ensures Wire(Settle(s).out) + Settle(s).held == Wire(s.out) + s.held
    ensures Settle(s).input == s.input
  {
    hide Wire, EncodeFrame, Complete, PayloadLength;
    if s.held != [] && s.held[0] != '$' {
      WireSnoc(s.out, Text(s.held));
    } else if s.held != [] && Complete(s.held) {
      SettleCut(s);
      CutIsFrame(s.held);
      var n := PayloadLength(s.held);
      WireSnoc(s.out, Packet(s.held[1] as int, s.held[HEADER..HEADER + n]));
      assert s.held == s.held[..HEADER + n] + s.held[HEADER + n..];
    }
  }

  lemma SettleCut(s: State)
    requires s.held != [] && s.held[0] == '$' && Complete(s.held)
    ensures |s.held| >= HEADER && HEADER + PayloadLength(s.held) <= |s.held|
  {
  }

  /** No byte a client sends is lost, duplicated or moved, whatever the reads were. */
  lemma {:induction false} ServedConserves(cap: nat, s: State, sizes: seq<nat>)
    requires |s.held| <= cap
    ensures var t := Served(cap, s, sizes);
            Wire(t.out) + t.held + t.input == Wire(s.out) + s.held + s.input
  {
    hide Wire, Settle;
    if sizes == [] {
    } else {
      ServedConserves(cap, s, sizes[..|sizes| - 1]);
      var u := Served(cap, s, sizes[..|sizes| - 1]);
      var f := Filled(cap, u, sizes[|sizes| - 1]);
      SettleConserves(f);
      var n := Min(sizes[|sizes| - 1], Min(|u.input|, cap - |u.held|));
      assert u.input == u.input[..n] + u.input[n..];
    }
  }

  /** Frames as a client may send them. */
  predicate Sendable(fs: seq<Out>) {
    forall i | 0 <= i < |fs| :: fs[i].Packet? && 0 <= fs[i].channel < 256 && |fs[i].data| < 0x1_0000
  }

  function Encoded(fs: seq<Out>): bytes { if fs == [] then [] else WireOf(fs[0]) + Encoded(fs[1..]) }

  /** Held bytes at the front of encoded frames give up just the first of them. */
  lemma HeadOfFrames(held: bytes, input: bytes, fs: seq<Out>)
    requires Sendable(fs) && held + input == Encoded(fs) && held != []
    ensures fs != [] && held[0] == '$'
    ensures |held| >= HEADER ==> PayloadLength(held) == |fs[0].data|
    ensures Complete(held) ==>
              held[1] as int == fs[0].channel && held[HEADER..HEADER + PayloadLength(held)] == fs[0].data &&
              held[HEADER + PayloadLength(held)..] + input == Encoded(fs[1..])
  {
    var f := fs[0];
    var w := WireOf(f);
    var rest := Encoded(fs[1..]);
    assert Encoded(fs) == w + rest;
    assert forall i | 0 <= i < |held| :: held[i] == (w + rest)[i];
    assert w[0] == '$';
    if |held| >= HEADER {
      var n := |f.data|;
      SixteenBits(n);
      assert held[2] == w[2] && held[3] == w[3];
      if Complete(held) {
        assert held[HEADER..HEADER + n] == f.data;
        assert (held + input)[HEADER + n..] == held[HEADER + n..] + input;
        assert (w + rest)[HEADER + n..] == rest;
      }
    }
  }

  lemma SixteenBits(n: nat)
    requires n < 0x1_0000
    ensures ToByte(n / 256) as int * 256 + ToByte(n) as int == n
  {
  }

  predicate Follows(t: State, fs: seq<Out>) {
    && |t.out| <= |fs|
    && t.out == fs[..|t.out|]
    && t.held + t.input == Encoded(fs[|t.out|..])
  }

  lemma ReadFollows(cap: nat, t: State, size: nat, fs: seq<Out>)
    requires |t.held| <= cap && Sendable(fs) && Follows(t, fs)
    ensures Follows(OneRead(cap, t, size), fs)
  {
    hide Encoded, Complete, PayloadLength;
    var f := Filled(cap, t, size);
    assert f.held + f.input == t.held + t.input;
    var k := |t.out|;
    if f.held != [] {
      HeadOfFrames(f.held, f.input, fs[k..]);
      assert fs[k..][1..] == fs[k + 1..];
      if Complete(f.held) { SettleCut(f); }
    }
  }

  /** What goes upstream is, for every read schedule, a prefix of the frames the client sent, with the
      same channels and payloads in the same order, and the rest is still held or unread. */
  lemma {:induction false} FramesInOrder(cap: nat, fs: seq<Out>, sizes: seq<nat>)
    requires Sendable(fs)
    ensures var t := Served(cap, State([], Encoded(fs), []), sizes);
            t.out <= fs && t.held + t.input == Encoded(fs[|t.out|..])
  {
    hide OneRead, Encoded;
    if sizes == [] {
      assert [] + Encoded(fs) == Encoded(fs);
    } else {
      var s := State([], Encoded(fs), []);
      FramesInOrder(cap, fs, sizes[..|sizes| - 1]);
      ReadFollows(cap, Served(cap, s, sizes[..|sizes| - 1]), sizes[|sizes| - 1], fs);
    }
  }

  lemma {:induction false} ServedConcat(cap: nat, s: State, sizes: seq<nat>, more: seq<nat>)
    requires |s.held| <= cap
    ensures Served(cap, s, sizes + more) == Served(cap, Served(cap, s, sizes), more)
    decreases |more|
  {
    hide OneRead;
    if more == [] {
      assert sizes + more == sizes;
    } else {
      assert (sizes + more)[..|sizes + more| - 1] == sizes + more[..|more| - 1];
      ServedConcat(cap, s, sizes, more[..|more| - 1]);
    }
  }

  /** A read hands on the first frame if that is held already. */
  lemma ReadHandsOn(cap: nat, t: State, size: nat, fs: seq<Out>)
    requires |t.held| <= cap && Sendable(fs) && Follows(t, fs)
    requires |t.out| < |fs| && |WireOf(fs[|t.out|])| <= |t.held|
    ensures var u := OneRead(cap, t, size);
            |u.out| == |t.out| + 1 && |u.held| >= |t.held| - |WireOf(fs[|t.out|])|
  {
    hide Encoded, PayloadLength;
    var f := Filled(cap, t, size);
    assert f.held + f.input == t.held + t.input;
    HeadOfFrames(f.held, f.input, fs[|t.out|..]);
  }

  /** Frames that are held go upstream one by one, with the following reads, whatever these bring. */
  lemma {:induction false} HeldFramesGoOn(cap: nat, t: State, fs: seq<Out>, m: nat, more: seq<nat>)
    requires |t.held| <= cap && Sendable(fs) && Follows(t, fs)
    requires |t.out| + m <= |fs| && |Encoded(fs[|t.out|..|t.out| + m])| <= |t.held| && |more| == m
    ensures Follows(Served(cap, t, more), fs) && |Served(cap, t, more).out| >= |t.out| + m
    decreases m
  {
    hide OneRead, Follows, Sendable;
    if m == 0 {
    } else {
      var k := |t.out|;
      var part := fs[k..k + m];
      assert part[0] == fs[k] && part[1..] == fs[k + 1..k + m];
      var u := OneRead(cap, t, more[0]);
      ReadHandsOn(cap, t, more[0], fs);
      ReadFollows(cap, t, more[0], fs);
      HeldFramesGoOn(cap, u, fs, m - 1, more[1..]);
      assert more == [more[0]] + more[1..] && [more[0]][..0] == [];
      assert Served(cap, t, [more[0]]) == u;
      ServedConcat(cap, t, [more[0]], more[1..]);
    }
  }

  /** Once all the bytes of `n` frames have arrived, as many further reads as there are frames left
      hand on all of them, whatever the schedule was; a single frame needs no further read. */
  lemma ArrivedFramesGoOn(cap: nat, fs: seq<Out>, sizes: seq<nat>, more: seq<nat>)
    requires Sendable(fs) && Served(cap, State([], Encoded(fs), []), sizes).input == []
    requires |Served(cap, State([], Encoded(fs), []), sizes).out| + |more| == |fs|
    ensures Served(cap, State([], Encoded(fs), []), sizes + more).out == fs
  {
    hide Served, Encoded;
    var s := State([], Encoded(fs), []);
    var t := Served(cap, s, sizes);
    FramesInOrder(cap, fs, sizes);
    var k := |t.out|;
    assert fs[k..k + |more|] == fs[k..];
    assert t.held + [] == t.held;
    HeldFramesGoOn(cap, t, fs, |more|, more);
    ServedConcat(cap, s, sizes, more);
  }

  lemma ArrivedFrameGoesOn(cap: nat, channel: int, data: bytes, sizes: seq<nat>)
    requires 0 <= channel < 256 && |data| < 0x1_0000
    requires Served(cap, State([], EncodeFrame(channel, data), []), sizes).input == []
    ensures Served(cap, State([], EncodeFrame(channel, data), []), sizes).out == [Packet(channel, data)]
  {
    hide Encoded, EncodeFrame, Filled, PayloadLength;
    var f := EncodeFrame(channel, data);
    var fs := [Packet(channel, data)];
    OneFrame(channel, data);
    FramesInOrder(cap, fs, sizes);
    var t := Served(cap, State([], f, []), sizes);
    FrameIsComplete(channel, data);
    if sizes != [] {
      SettleLeavesNone(Filled(cap, Served(cap, State([], f, []), sizes[..|sizes| - 1]), sizes[|sizes| - 1]));
    }
    assert fs[0..] == fs && t.held + [] == t.held;
  }

  lemma FrameIsComplete(channel: int, data: bytes)
    requires |data| < 0x1_0000
    ensures EncodeFrame(channel, data) != [] && EncodeFrame(channel, data)[0] == '$'
            && Complete(EncodeFrame(channel, data))
  {
    SixteenBits(|data|);
  }

  lemma SettleLeavesNone(s: State)
    ensures Settle(s).out == s.out ==> Settle(s).held == [] || !Complete(Settle(s).held)
  {
    hide Complete, PayloadLength;
    if s.held != [] && s.held[0] == '$' && Complete(s.held) { SettleCut(s); }
  }

  /** A frame that does not fit the buffer is never handed on; with a buffer of 65536 bytes these are
      the payloads of more than 65532 bytes. Any other one can arrive, and `ArrivedFrameGoesOn` says that
      it is handed on by every schedule with which it does. */
  lemma ForwardedIff(cap: nat, channel: int, data: bytes)
    requires 0 <= channel < 256 && |data| < 0x1_0000
    ensures (exists sizes :: Served(cap, State([], EncodeFrame(channel, data), []), sizes).out != []) <==>
            HEADER + |data| <= cap
  {
    var f := EncodeFrame(channel, data);
    var s := State([], f, []);
    if HEADER + |data| <= cap {
      OneReadForwards(cap, channel, data);
      assert Served(cap, s, [|f|]).out != [];
    } else {
      hide Served, EncodeFrame;
      forall sizes ensures Served(cap, s, sizes).out == [] { TooLarge(cap, channel, data, sizes); }
    }
  }

  lemma OneReadForwards(cap: nat, channel: int, data: bytes)
    requires 0 <= channel < 256 && |data| < 0x1_0000 && HEADER + |data| <= cap
    ensures Served(cap, State([], EncodeFrame(channel, data), []), [|EncodeFrame(channel, data)|]).out ==
            [Packet(channel, data)]
  {
    var f := EncodeFrame(channel, data);
    var s := State([], f, []);
    assert [|f|][..0] == [];
    assert f[..|f|] == f && [] + f == f;
    SixteenBits(|data|);
    assert f[HEADER..HEADER + |data|] == data;
  }

  lemma {:induction false} TooLarge(cap: nat, channel: int, data: bytes, sizes: seq<nat>)
    requires 0 <= channel < 256 && cap < HEADER + |data| && |data| < 0x1_0000
    ensures var t := Served(cap, State([], EncodeFrame(channel, data), []), sizes);
            t.out == [] && t.held + t.input == EncodeFrame(channel, data)
  {
    hide OneRead, EncodeFrame;
    if sizes != [] {
      TooLarge(cap, channel, data, sizes[..|sizes| - 1]);
      var u := Served(cap, State([], EncodeFrame(channel, data), []), sizes[..|sizes| - 1]);
      ReadTooLarge(cap, channel, data, u, sizes[|sizes| - 1]);
    } else {
      assert [] + EncodeFrame(channel, data) == EncodeFrame(channel, data);
    }
  }

  lemma ReadTooLarge(cap: nat, channel: int, data: bytes, u: State, size: nat)
    requires 0 <= channel < 256 && cap < HEADER + |data| && |data| < 0x1_0000
    requires |u.held| <= cap && u.out == [] && u.held + u.input == EncodeFrame(channel, data)
    ensures var t := OneRead(cap, u, size);
            t.out == [] && t.held + t.input == EncodeFrame(channel, data)
  {
    hide EncodeFrame, Encoded, PayloadLength;
    var f := Filled(cap, u, size);
    assert f.held + f.input == u.held + u.input;
    OneFrame(channel, data);
    if f.held != [] { HeadOfFrames(f.held, f.input, [Packet(channel, data)]); }
  }

  lemma OneFrame(channel: int, data: bytes)
    ensures Encoded([Packet(channel, data)]) == EncodeFrame(channel, data)
  {
    assert [Packet(channel, data)][1..] == [];
    assert EncodeFrame(channel, data) + [] == EncodeFrame(channel, data);
  }
}
