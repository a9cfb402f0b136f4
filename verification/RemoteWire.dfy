/** What a camera sees on the wire over whole runs: which credentials go with which request, and with
    which nonce counts. */
module RemoteWire {
  import opened Bytes
  import opened MixedStream
  import opened Remote

  // ---------------------------------------------------------------- everything written

  /** The Authorization fields of the requests written to one connection. */
  function Auths(w: seq<Written>): seq<Auth> {
    if w == [] then []
    else Auths(w[..|w| - 1]) + (if w[|w| - 1].Request? then [w[|w| - 1].auth] else [])
  }

  /** The same over all connections, in writing order. */
  function Sent(wires: seq<seq<Written>>): seq<Auth> {
    if wires == [] then [] else Sent(wires[..|wires| - 1]) + Auths(wires[|wires| - 1])
  }

  function CountOf(a: Auth): seq<int> { if a.Digest? && a.count.Counted? then [a.count.nc] else [] }

  /** The nonce counts that were sent. */
  function Counts(auths: seq<Auth>): seq<int> {
    if auths == [] then [] else Counts(auths[..|auths| - 1]) + CountOf(auths[|auths| - 1])
  }

  function Flat(xs: seq<seq<int>>): seq<int> {
    if xs == [] then [] else Flat(xs[..|xs| - 1]) + xs[|xs| - 1]
  }

  lemma SentOn(wires: seq<seq<Written>>, w: Written)
    requires wires != []
    ensures Sent(AppendLast(wires, w)) == Sent(wires) + (if w.Request? then [w.auth] else [])
  {
    var n := |wires| - 1;
    var last := wires[n];
    assert (last + [w])[..|last|] == last;
    assert AppendLast(wires, w)[..n] == wires[..n];
    assert AppendLast(wires, w)[n] == last + [w];
    var more := if w.Request? then [w.auth] else [];
    assert Sent(wires[..n]) + (Auths(last) + more) == Sent(wires[..n]) + Auths(last) + more;
  }

  lemma SentDial(wires: seq<seq<Written>>)
    ensures Sent(wires + [[]]) == Sent(wires)
  {
    assert (wires + [[]])[..|wires|] == wires;
    assert Sent(wires) + [] == Sent(wires);
  }

  lemma CountsOn(auths: seq<Auth>, a: Auth)
    ensures Counts(auths + [a]) == Counts(auths) + CountOf(a)
  {
    assert (auths + [a])[..|auths|] == auths;
  }

  lemma FlatOn(xs: seq<seq<int>>, x: int)
    requires xs != []
    ensures Flat(AppendLast(xs, x)) == Flat(xs) + [x]
    ensures Flat(xs + [[]]) == Flat(xs)
  {
    var n := |xs| - 1;
    assert AppendLast(xs, x)[..n] == xs[..n] && AppendLast(xs, x)[n] == xs[n] + [x];
    assert Flat(xs[..n]) + (xs[n] + [x]) == Flat(xs[..n]) + xs[n] + [x];
    FlatOpens(xs);
  }

  lemma FlatOpens(xs: seq<seq<int>>)
    ensures Flat(xs + [[]]) == Flat(xs)
  {
    assert (xs + [[]])[..|xs|] == xs;
    assert Flat(xs) + [] == Flat(xs);
  }

  // ---------------------------------------------------------------- one request

  /** The credentials of the i-th request from here on, as long as nothing changes them. */
  function Nth(r: Rem, i: nat): Auth { Credentials(r.(nc := (r.nc + i) % TWO_TO_THE_32)) }

  predicate SameAuth(r: Rem, t: Rem) {
    t.username == r.username && t.password == r.password && t.realm == r.realm && t.nonce == r.nonce && t.qop == r.qop
  }

  lemma IssueSends(r: Rem)
    requires r.wires != []
    ensures var t := Issued(r);
            && Sent(t.wires) == Sent(r.wires) + [Nth(r, 1)] && SameAuth(r, t) && t.queue == r.queue
            && t.connected == r.connected && t.wires != []
            && t.nc == (if CountsNonce(r) then (r.nc + 1) % TWO_TO_THE_32 else r.nc)
  {
    hide Lower, Sent;
    var a := Authenticated(r.(cseq := r.cseq + 1));
    SentOn(r.wires, Request(a.cseq, Credentials(a)));
  }

  // ---------------------------------------------------------------- counts on the wire

  predicate Agrees(r: Rem) { Counts(Sent(r.wires)) == Flat(r.epochs) }

  lemma IssueAgrees(r: Rem)
    requires Agrees(r) && r.wires != [] && EpochsOk(r)
    ensures Agrees(Issued(r))
  {
    hide Lower, Sent, Counts, Flat;
    IssueSends(r);
    CountsOn(Sent(r.wires), Nth(r, 1));
    if CountsNonce(r) { FlatOn(r.epochs, (r.nc + 1) % TWO_TO_THE_32); }
    assert Flat(r.epochs) + [] == Flat(r.epochs);
  }

  lemma BinaryAgrees(r: Rem, b: bytes)
    requires Agrees(r) && r.wires != []
    ensures Agrees(Wrote(r, Binary(b)))
  {
    hide Sent, Counts, Flat;
    SentOn(r.wires, Binary(b));
    assert Sent(r.wires) + [] == Sent(r.wires);
  }

  lemma OpKeepsAgrees(r: Rem, op: Op)
    requires Agrees(r) && WiresOk(r) && EpochsOk(r)
    ensures Agrees(Do(r, op))
  {
    hide Sent, Counts, Flat, FrameHeader, Issued, CSeqs, CountsUp, CountsUpMod;
    SentDial(r.wires);
    FlatOpens(r.epochs);
    match op
    case Send(dialOk, writeOk) =>
      if r.connected {
        IssueAgrees(r);
      } else if dialOk {
        IssueAgrees(Dialled(r));
      }
    case SendData(ch, data, h, d) =>
      if r.connected {
        BinaryAgrees(r, FrameHeader(ch, |data|));
        BinaryAgrees(r, EncodeFrame(ch, data));
      }
    case _ =>
  }

  /** In every run the nonce counts that the requests carry, in writing order over all connections, are
      the counts used with the first nonce installed, then those used with the second, and so on. */
  lemma {:induction false} CountsOnTheWire(username: bytes, password: bytes, ops: seq<Op>)
    ensures var r := Run(username, password, ops); Counts(Sent(r.wires)) == Flat(r.epochs)
  {
    hide WiresOk, EpochsOk, Do;
    if ops == [] {
    } else {
      CountsOnTheWire(username, password, ops[..|ops| - 1]);
      RunOk(username, password, ops[..|ops| - 1]);
      OpKeepsAgrees(Run(username, password, ops[..|ops| - 1]), ops[|ops| - 1]);
    }
  }

  lemma WrapIff(xs: seq<int>)
    requires CountsUpMod(xs)
    ensures CountsUp(xs) <==> |xs| < TWO_TO_THE_32
  {
    if |xs| < TWO_TO_THE_32 {
      forall i | 0 <= i < |xs| ensures xs[i] == i + 1 { NoWrap(i + 1); }
    } else {
      assert xs[TWO_TO_THE_32 - 1] == 0;
    }
  }

  lemma NoWrap(n: nat)
    requires n < TWO_TO_THE_32
    ensures n % TWO_TO_THE_32 == n
  {
  }

  lemma {:induction false} FlatHas(xs: seq<seq<int>>, k: nat)
    requires k < |xs|
    ensures var at := |Flat(xs[..k])|; at + |xs[k]| <= |Flat(xs)| && Flat(xs)[at..at + |xs[k]|] == xs[k]
  {
    var n := |xs| - 1;
    if k == n {
    } else {
      FlatHas(xs[..n], k);
      assert xs[..n][..k] == xs[..k];
    }
  }

  /** The nonce counts written with one nonce, from its installation until it is replaced or cleared,
      follow each other on the wire. They are 1, 2, 3, ... exactly as long as fewer than 2^32 were
      written; then the counter wraps to 0. */
  lemma NonceCountsUpIff(username: bytes, password: bytes, ops: seq<Op>, epoch: nat)
    requires epoch < |Run(username, password, ops).epochs|
    ensures var r := Run(username, password, ops);
            var counts, at, n := Counts(Sent(r.wires)), |Flat(r.epochs[..epoch])|, |r.epochs[epoch]|;
            && at + n <= |counts|
            && CountsUpMod(counts[at..at + n])
            && (CountsUp(counts[at..at + n]) <==> n < TWO_TO_THE_32)
  {
    hide Run, CountsUp, CountsUpMod, Flat, Counts, Sent;
    RunOk(username, password, ops);
    CountsOnTheWire(username, password, ops);
    FlatHas(Run(username, password, ops).epochs, epoch);
    WrapIff(Run(username, password, ops).epochs[epoch]);
  }

  // ---------------------------------------------------------------- credentials

  /** A challenge that is taken up: digest, or basic with a realm. */
  predicate Accepted(c: Challenge) { c.DigestChallenge? || (c.BasicChallenge? && c.realm != "") }

  /** What leaves credentials and connection alone: all but accepted challenges, timeouts and failures. */
  predicate Quiet(op: Op) {
    || op.Dial? || op.Enqueue? || (op.Send? && op.writeOk) || (op.SendData? && op.headerOk && op.dataOk)
    || (op.Challenge401? && !Accepted(op.challenge))
  }

  predicate AllQuiet(ops: seq<Op>) { forall i | 0 <= i < |ops| :: Quiet(ops[i]) }

  function Enqueued(ops: seq<Op>): seq<nat> {
    if ops == [] then []
    else Enqueued(ops[..|ops| - 1]) + (if ops[|ops| - 1].Enqueue? then [ops[|ops| - 1].id] else [])
  }

  function Sends(ops: seq<Op>): nat {
    if ops == [] then 0 else Sends(ops[..|ops| - 1]) + if ops[|ops| - 1].Send? then 1 else 0
  }

  predicate DialsSucceed(ops: seq<Op>) { forall i | 0 <= i < |ops| :: ops[i].Send? ==> ops[i].dialOk }

  /** From `r` on, `n` requests have been written and nothing but the nonce count has changed. */
  predicate Followed(r: Rem, t: Rem, n: nat) {
    && SameAuth(r, t)
    && t.nc == (if CountsNonce(r) then (r.nc + n) % TWO_TO_THE_32 else r.nc)
    && |Sent(t.wires)| == |Sent(r.wires)| + n && Sent(r.wires) <= Sent(t.wires)
    && forall i | |Sent(r.wires)| <= i < |Sent(t.wires)| :: Sent(t.wires)[i] == Nth(r, i - |Sent(r.wires)| + 1)
  }

  lemma CountOn(x: int, n: nat)
    requires 0 <= x < TWO_TO_THE_32
    ensures ((x + n) % TWO_TO_THE_32 + 1) % TWO_TO_THE_32 == (x + (n + 1)) % TWO_TO_THE_32
  {
  }

  lemma IssueFollows(r: Rem, t: Rem, n: nat)
    requires Followed(r, t, n) && t.wires != [] && (CountsNonce(r) ==> 0 <= r.nc < TWO_TO_THE_32)
    ensures Followed(r, Issued(t), n + 1)
  {
    hide Lower, Sent, Issued;
    IssueSends(t);
    if CountsNonce(r) { CountOn(r.nc, n); }
    assert Nth(t, 1) == Nth(r, n + 1);
  }

  lemma QuietFollows(r: Rem, t: Rem, n: nat, op: Op)
    requires Followed(r, t, n) && WiresOk(t) && (CountsNonce(r) ==> 0 <= r.nc < TWO_TO_THE_32) && Quiet(op)
    ensures Followed(r, Do(t, op), n + if op.Send? && (t.connected || op.dialOk) then 1 else 0)
    ensures Do(t, op).queue == t.queue + if op.Enqueue? then [op.id] else []
  {
    hide Sent, Issued, CSeqs, CountsUp, CountsNonce, Nth, FrameHeader;
    SentDial(t.wires);
    if op.Send? {
      var u := if t.connected then t else Dialled(t);
      if t.connected || op.dialOk {
        IssueFollows(r, u, n);
        IssueSends(u);
      }
    } else if op.SendData? {
      if t.connected {
        SentOn(t.wires, Binary(EncodeFrame(op.channel, op.data)));
        assert Sent(t.wires) + [] == Sent(t.wires);
      }
    }
    assert t.queue + [] == t.queue;
  }

  /** After any run, over quiet operations: the requests written carry the credentials the run left,
      counting on from its nonce count. */
  lemma {:induction false} QuietRun(username: bytes, password: bytes, pre: seq<Op>, post: seq<Op>) returns (n: nat)
    requires AllQuiet(post)
    ensures Followed(Run(username, password, pre), Run(username, password, pre + post), n)
    ensures DialsSucceed(post) ==> n == Sends(post)
    ensures Run(username, password, pre + post).queue == Run(username, password, pre).queue + Enqueued(post)
    decreases |post|
  {
    hide WiresOk, EpochsOk, Do, Followed;
    var r := Run(username, password, pre);
    RunOk(username, password, pre);
    CountInRange(r);
    if post == [] {
      assert pre + post == pre;
      n := 0;
      FollowsSelf(r);
      assert r.queue + [] == r.queue;
    } else {
      var m := |post| - 1;
      n := QuietRun(username, password, pre, post[..m]);
      assert (pre + post)[..|pre + post| - 1] == pre + post[..m];
      var t := Run(username, password, pre + post[..m]);
      RunOk(username, password, pre + post[..m]);
      QuietFollows(r, t, n, post[m]);
      n := n + if post[m].Send? && (t.connected || post[m].dialOk) then 1 else 0;
    }
  }

  lemma CountInRange(r: Rem)
    requires EpochsOk(r)
    ensures CountsNonce(r) ==> 0 <= r.nc < TWO_TO_THE_32
  {
  }

  lemma FollowsSelf(r: Rem)
    requires CountsNonce(r) ==> 0 <= r.nc < TWO_TO_THE_32
    ensures Followed(r, r, 0)
  {
  }

  /** The answer due in the i-th request after a challenge. One without a realm gets none, and a digest
      challenge without a nonce gets a basic answer. */
  function Due(username: bytes, password: bytes, c: Challenge, i: int): Auth
    requires Accepted(c)
  {
    if c.realm == "" then NoAuth
    else if c.DigestChallenge? && c.nonce != "" then
      Digest(username, c.realm, c.nonce, c.qop,
             if Lower(c.qop) == "auth" then Counted(i % TWO_TO_THE_32) else Uncounted)
    else Basic(username, password)
  }

  lemma ChallengeInstalls(r: Rem, c: Challenge, i: nat)
    requires r.username != "" && r.password != "" && Accepted(c)
    ensures Nth(Challenged(r, c), i) == Due(r.username, r.password, c, i)
    ensures Challenged(r, c).wires == r.wires
  {
  }

  lemma RunChallenge(username: bytes, password: bytes, pre: seq<Op>, op: Op)
    ensures Run(username, password, pre + [op]) == Do(Run(username, password, pre), op)
    ensures Run(username, password, pre).username == username && Run(username, password, pre).password == password
  {
    assert (pre + [op])[..|pre|] == pre;
    KeepsUser(username, password, pre);
  }

  lemma {:induction false} KeepsUser(username: bytes, password: bytes, ops: seq<Op>)
    ensures Run(username, password, ops).username == username && Run(username, password, ops).password == password
  {
    hide FrameHeader, Lower;
    if ops == [] {
    } else {
      KeepsUser(username, password, ops[..|ops| - 1]);
    }
  }

  /** In every run: after a challenge every request carries the answer to it, until another accepted one,
      a timeout or the end of the connection. The answer to a digest challenge names the camera's realm
      and nonce and, with qop=auth, counts 1, 2, 3, ... modulo 2^32 from the challenge on. With dials
      that succeed every send is a request written. */
  lemma ChallengeIsAnswered(username: bytes, password: bytes, pre: seq<Op>, c: Challenge, post: seq<Op>)
    requires username != "" && password != "" && Accepted(c) && AllQuiet(post)
    ensures var was := Sent(Run(username, password, pre).wires);
            var all := Sent(Run(username, password, pre + [Challenge401(c)] + post).wires);
            && was <= all
            && (forall i | |was| <= i < |all| :: all[i] == Due(username, password, c, i - |was| + 1))
            && (DialsSucceed(post) ==> |all| == |was| + Sends(post))
  {
    hide Run, Sent, Due, Nth, Sends;
    var n := QuietRun(username, password, pre + [Challenge401(c)], post);
    RunChallenge(username, password, pre, Challenge401(c));
    var r := Run(username, password, pre);
    forall i: nat ensures Nth(Challenged(r, c), i) == Due(username, password, c, i) { ChallengeInstalls(r, c, i); }
    assert Challenged(r, c).wires == r.wires by { ChallengeInstalls(r, c, 0); }
  }

  /** Ends the connection: a disconnect, or a failed write, be it on a connection dialled for it. */
  predicate Ends(r: Rem, op: Op) {
    || (r.connected && (op.Disconnect? || (op.SendData? && !(op.headerOk && op.dataOk))))
    || (op.Send? && (r.connected || op.dialOk) && !op.writeOk)
  }

  lemma EndClears(r: Rem, op: Op)
    requires Ends(r, op) || op.TimedOut?
    ensures var t := Do(r, op);
            && t.nonce == "" && t.nc == 0 && t.realm == r.realm && t.username == r.username && t.password == r.password
            && (Ends(r, op) ==> !t.connected && t.queue == [] && t.cseq == 0)
  {
    hide Lower, FrameHeader;
  }

  /** In every run: once the connection has ended or a request has timed out, the nonce is not used
      again. Until the next challenge requests carry plain credentials, if a realm was ever named, and
      none otherwise. When the connection ends the queue is emptied, and from then on holds just what
      was queued since. */
  lemma NonceIsForgotten(username: bytes, password: bytes, pre: seq<Op>, op: Op, post: seq<Op>)
    requires (Ends(Run(username, password, pre), op) || op.TimedOut?) && AllQuiet(post)
    ensures var r := Run(username, password, pre);
            var was := Sent(Run(username, password, pre + [op]).wires);
            var t := Run(username, password, pre + [op] + post);
            && was <= Sent(t.wires)
            && (forall i | |was| <= i < |Sent(t.wires)| ::
                  Sent(t.wires)[i] == if username != "" && password != "" && r.realm != ""
                                      then Basic(username, password) else NoAuth)
            && (Ends(r, op) ==> t.queue == Enqueued(post))
  {
    hide Run, Sent, Enqueued, Do;
    var n := QuietRun(username, password, pre + [op], post);
    RunChallenge(username, password, pre, op);
    EndClears(Run(username, password, pre), op);
    assert [] + Enqueued(post) == Enqueued(post);
  }

  /** Without user name and password, or before any challenge, requests carry no credentials. */
  lemma {:induction false} NothingUnasked(username: bytes, password: bytes, ops: seq<Op>)
    requires username == "" || password == "" || forall i | 0 <= i < |ops| :: !ops[i].Challenge401?
    ensures forall a <- Sent(Run(username, password, ops).wires) :: a == NoAuth
    ensures Run(username, password, ops).realm == ""
  {
    if ops == [] {
    } else {
      hide Sent, WiresOk, EpochsOk, CSeqs, Issued, FrameHeader;
      var r := Run(username, password, ops[..|ops| - 1]);
      var op := ops[|ops| - 1];
      NothingUnasked(username, password, ops[..|ops| - 1]);
      RunOk(username, password, ops[..|ops| - 1]);
      KeepsUser(username, password, ops[..|ops| - 1]);
      UnaskedOp(r, op);
    }
  }

  lemma UnaskedOp(r: Rem, op: Op)
    requires WiresOk(r) && r.realm == "" && (r.username == "" || r.password == "" || !op.Challenge401?)
    requires forall a <- Sent(r.wires) :: a == NoAuth
    ensures Do(r, op).realm == "" && forall a <- Sent(Do(r, op).wires) :: a == NoAuth
  {
    hide Sent, CSeqs, Issued, FrameHeader, CountsUp;
    SentDial(r.wires);
    if op.Send? && (r.connected || op.dialOk) {
      IssueSends(if r.connected then r else Dialled(r));
    }
    if op.SendData? && r.connected {
      SentOn(r.wires, Binary(EncodeFrame(op.channel, op.data)));
      SentOn(r.wires, Binary(FrameHeader(op.channel, |op.data|)));
    }
  }

  // ---------------------------------------------------------------- binary data

  /** In every run binary data on an open connection is written as one frame behind everything else:
      `$`, the low byte of the channel, the length modulo 2^16 and the data. */
  lemma DataIsFramed(username: bytes, password: bytes, ops: seq<Op>, channel: int, data: bytes)
    requires Run(username, password, ops).connected
    ensures var r := Run(username, password, ops);
            var t := Do(r, SendData(channel, data, true, true));
            var n := |r.wires| - 1;
            && n >= 0 && |t.wires| == n + 1 && t.wires[..n] == r.wires[..n] && |t.wires[n]| == |r.wires[n]| + 1
            && t.wires[n][..|r.wires[n]|] == r.wires[n]
            && var last := t.wires[n][|r.wires[n]|];
               && last.Binary? && |last.bytes| == 4 + |data| && last.bytes[0] == '$'
               && last.bytes[1] as int == channel % 256
               && (last.bytes[2] as int) * 256 + last.bytes[3] as int == |data| % 0x1_0000
               && last.bytes[4..] == data
  {
    hide Run, CSeqs, CountsUp;
    RunOk(username, password, ops);
    LengthBytes(|data|);
  }

  lemma LengthBytes(n: nat)
    ensures (n / 256 % 256) * 256 + n % 256 == n % 0x1_0000
  {
  }

  // ---------------------------------------------------------------- the counter does wrap

  const CHALLENGED := Challenge401(DigestChallenge("realm", "nonce", "auth"))
  const SEND := Send(true, true)

  /** One digest challenge, and then so many requests. */
  function Busy(n: nat): seq<Op> {
    if n == 0 then [CHALLENGED] else Busy(n - 1) + [SEND]
  }

  lemma SendCounts(r: Rem)
    requires CountsNonce(r) && |r.epochs| == 1
    ensures var t := AfterSend(r, true, true); CountsNonce(t) && |t.epochs| == 1 && |t.epochs[0]| == |r.epochs[0]| + 1
  {
    hide Lower;
  }

  lemma {:induction false} BusyCounts(n: nat)
    ensures var r := Run("user", "secret", Busy(n)); CountsNonce(r) && |r.epochs| == 1 && |r.epochs[0]| == n
  {
    hide CountsNonce, AfterSend;
    if n == 0 {
      ChallengeCounts();
    } else {
      BusyCounts(n - 1);
      assert Busy(n)[..|Busy(n)| - 1] == Busy(n - 1);
      SendCounts(Run("user", "secret", Busy(n - 1)));
    }
  }

  lemma ChallengeCounts()
    ensures var r := Run("user", "secret", [CHALLENGED]); CountsNonce(r) && |r.epochs| == 1 && |r.epochs[0]| == 0
  {
    assert Lower("auth") == "auth";
    assert [CHALLENGED][..0] == [];
    assert Run("user", "secret", []) == NewRem("user", "secret");
  }

  /** A run in which the nonce counts on the wire wrap: a camera that keeps accepting one nonce for 2^32
      requests. */
  lemma NonceCountWraps()
    ensures var r := Run("user", "secret", Busy(TWO_TO_THE_32));
            |r.epochs| == 1 && !CountsUp(Counts(Sent(r.wires)))
  {
    hide Run, Busy, Counts, Sent, Flat;
    BusyCounts(TWO_TO_THE_32);
    NonceCountsUpIff("user", "secret", Busy(TWO_TO_THE_32), 0);
  }
}
