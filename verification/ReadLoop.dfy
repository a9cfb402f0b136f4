/** The read loop itself: a fixed array that is filled by reads, cut from the front and shifted in
    place. It is proved to compute the state machine of `Demux`. */
module ReadLoop {
  import opened Bytes
  import opened Message
  import opened HeaderBlock
  import opened Demux

  class Reader {
    const buffer: array<byte>
    var length: nat
    /** What was handed to `dispatch` and to `HandleUpstreamResponse`, in order. */
    var out: seq<Item>
    var lost: seq<Gap>
    var end: End

    ghost predicate Valid()
      reads this
    {
      0 < buffer.Length < MAX_INT64 - 4 && length <= buffer.Length
    }

    ghost function State(): Reading
      reads this, buffer
      requires Valid()
    {
      Reading(buffer[..length], out, lost, end)
    }

    constructor (bufferSize: nat)
      requires 0 < bufferSize < MAX_INT64 - 4
      ensures Valid() && fresh(buffer) && buffer.Length == bufferSize && State() == START
    {
      buffer := new byte[bufferSize];
      length := 0;
      out, lost, end := [], [], Waiting;
    }

    /** `copy(buffer[0:], buffer[n:length])` and the shorter length. */
    method Shift(n: nat)
      requires Valid() && n <= length
      modifies this`length, buffer
      ensures Valid() && length == old(length) - n
      ensures buffer[..length] == old(buffer[n..length])
    {
      for i := 0 to length - n
        invariant length == old(length)
        invariant forall k | 0 <= k < i :: buffer[k] == old(buffer[n + k])
        invariant forall k | i <= k < buffer.Length :: buffer[k] == old(buffer[k])
      {
        buffer[i] := buffer[n + i];
      }
      length := length - n;
    }

    /** The `$` branch. */
    method TakeFrame() returns (more: bool)
      requires Valid() && length > 0 && end == Waiting && buffer[0] == '$'
      modifies this`length, this`out, this`end, buffer
      ensures Valid() && more == LookAt(old(buffer[..length])).Take?
      ensures more ==>
                var item := LookAt(old(buffer[..length])).item;
                && out == old(out) + [item] && end == Waiting
                && buffer[..length] == old(buffer[..length])[|Text(item)|..]
      ensures !more ==>
                && out == old(out) && buffer[..length] == old(buffer[..length])
                && Stops(LookAt(old(buffer[..length])), end)
    {
      hide MessageLength;
      ghost var buf := buffer[..length];
      if length < 4 {
        return false;
      }
      var pktLen := (buffer[2] as int) * 256 + (buffer[3] as int);
      if length < 4 + pktLen {
        return false;
      }
      assert FrameLength(buf) == 4 + pktLen;
      var packet := buffer[..4 + pktLen];
      assert packet == buf[..4 + pktLen];
      out := out + [Frame(packet)];
      Shift(4 + pktLen);
      assert buffer[..length] == buf[4 + pktLen..];
      return true;
    }

    /** The RTSP branch. */
    method TakeMessage() returns (more: bool)
      requires Valid() && length > 0 && end == Waiting && buffer[0] != '$'
      modifies this`length, this`out, this`end, buffer
      ensures Valid() && more == LookAt(old(buffer[..length])).Take?
      ensures more ==>
                var item := LookAt(old(buffer[..length])).item;
                && out == old(out) + [item] && end == Waiting
                && buffer[..length] == old(buffer[..length])[|Text(item)|..]
      ensures !more ==>
                && out == old(out) && buffer[..length] == old(buffer[..length])
                && Stops(LookAt(old(buffer[..length])), end)
    {
      hide ContentLength, Wrap64, FrameLength;
      ghost var buf := buffer[..length];
      var eol := IndexBytes(buffer[..length], END_OF_HEADERS);
      if eol == -1 {
        return false;
      }
      var headerPart := buffer[..eol];
      assert headerPart == buf[..eol];
      var contentLength := SharedParseContentLength(headerPart);
      var totalMsgLen := Wrap64(eol + 4 + contentLength);
      if length < totalMsgLen {
        return false;
      }
      if totalMsgLen < 0 {
        end := Panicked;
        return false;
      }
      if totalMsgLen == 0 {
        end := Spinning;
        return false;
      }
      var msg := buffer[..totalMsgLen];
      assert msg == buf[..totalMsgLen];
      out := out + [Msg(msg)];
      Shift(totalMsgLen);
      assert buffer[..length] == buf[totalMsgLen..];
      return true;
    }

    /** The inner loop: process everything currently in the buffer. */
    method Drain()
      requires Valid() && end == Waiting
      modifies this`length, this`out, this`end, buffer
      ensures Valid()
      ensures buffer[..length] == Parse(old(buffer[..length])).rest
      ensures out == old(out) + Parse(old(buffer[..length])).items
      ensures end == Parse(old(buffer[..length])).end
    {
      hide LookAt, Parse;
      ghost var whole := Parse(buffer[..length]);
      ghost var done: seq<Item> := [];
      var more := true;
      while length > 0 && more
        invariant Valid() && out == old(out) + done
        invariant more ==> end == Waiting
        invariant more ==> (var c := Parse(buffer[..length]); whole == Cut(done + c.items, c.rest, c.end))
        invariant !more ==> whole == Cut(done, buffer[..length], end)
        decreases more, length
      {
        ghost var buf := buffer[..length];
        if buffer[0] == '$' {
          more := TakeFrame();
        } else {
          more := TakeMessage();
        }
        if more {
          ParseTake(buf);
          ghost var item := LookAt(buf).item;
          assert done + ([item] + Parse(buffer[..length]).items) == done + [item] + Parse(buffer[..length]).items;
          done := done + [item];
        } else {
          ParseStop(buf);
        }
      }
      if more {
        assert buffer[..length] == [];
        ParseEmpty();
      }
    }

    /** `conn.Read(buffer[length:])` and the longer length. */
    method Fill(chunk: bytes)
      requires Valid() && length + |chunk| <= buffer.Length
      modifies this`length, buffer
      ensures Valid() && buffer[..length] == old(buffer[..length]) + chunk
    {
      ghost var before := buffer[..length];
      for i := 0 to |chunk|
        invariant length == old(length) && buffer[..length + i] == before + chunk[..i]
      {
        buffer[length + i] := chunk[i];
        assert buffer[..length + (i + 1)] == buffer[..length + i] + [chunk[i]];
      }
      length := length + |chunk|;
      assert chunk[..|chunk|] == chunk;
    }

    /** One turn of the outer loop: read what the network grants, drain, clear if full. */
    method Turn(stream: bytes, at: nat, size: nat) returns (next: nat)
      requires Valid() && at <= |stream| && |stream| + buffer.Length <= MAX_INT64 - 4
      modifies this, buffer
      ensures Valid()
      ensures var n := Granted(buffer.Length, old(State()), size, |stream| - at);
              && next == at + n <= |stream|
              && State() == Settle(buffer.Length, old(State()).(buf := old(State()).buf + stream[at..at + n]))
    {
      hide LookAt, Parse;
      if end != Waiting {
        assert stream[at..at] == [] && buffer[..length] + [] == buffer[..length];
        return at;
      }
      var room := buffer.Length - length;
      var n := if size < room then size else room;
      n := if n < |stream| - at then n else |stream| - at;
      Fill(stream[at..at + n]);
      Drain();
      if end == Waiting && length == buffer.Length {
        lost := lost + [Gap(|out|, buffer[..length])];
        length := 0;
      }
      next := at + n;
    }

    /** The whole loop: one turn for each read. */
    method Loop(stream: bytes, sizes: seq<nat>) returns (at: nat)
      requires Valid() && State() == START && |stream| + buffer.Length <= MAX_INT64 - 4
      modifies this, buffer
      ensures Valid() && (State(), at) == Run(buffer.Length, stream, sizes)
    {
      hide LookAt, Settle, Granted;
      at := 0;
      assert sizes[..0] == [];
      for i := 0 to |sizes|
        invariant Valid() && (State(), at) == Run(buffer.Length, stream, sizes[..i])
      {
        assert sizes[..i + 1][..i] == sizes[..i];
        at := Turn(stream, at, sizes[i]);
      }
      assert sizes[..|sizes|] == sizes;
    }
  }
}
