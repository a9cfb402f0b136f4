/** The connection to a camera: dialling, disconnecting, sending requests and binary data, and
    answering authentication challenges, with the two counters that go on the wire: CSeq (section
    12.17 of RFC 2326) and the nonce count nc (section 3.2.2 of RFC 2617). */
module Remote {
  import opened Bytes
  import opened MixedStream

  const TWO_TO_THE_32: int := 0x1_0000_0000

  datatype Count = Uncounted | Counted(nc: int)

  /** The fields of the Authorization header. */
  datatype Auth =
    | NoAuth
    | Basic(username: bytes, password: bytes)
    | Digest(username: bytes, realm: bytes, nonce: bytes, qop: bytes, count: Count)

  /** What is written to a connection. */
  datatype Written = Request(cseq: int, auth: Auth) | Binary(bytes: bytes)

  /** A parsed WWW-Authenticate header. */
  datatype Challenge = DigestChallenge(realm: bytes, nonce: bytes, qop: bytes) | BasicChallenge(realm: bytes) | Unknown

  /** `wires` has an entry for every connection ever dialled, in order; `epochs` has, for every nonce
      ever installed, the nonce counts computed with it. */
  datatype Rem = Rem(
    username: bytes, password: bytes,
    connected: bool, cseq: int, queue: seq<nat>,
    realm: bytes, nonce: bytes, qop: bytes, nc: int,
    wires: seq<seq<Written>>, epochs: seq<seq<int>>)

  function NewRem(username: bytes, password: bytes): Rem {
    Rem(username, password, false, 0, [], "", "", "", 0, [], [])
  }

  function Dialled(r: Rem): Rem { r.(connected := true, cseq := 0, wires := r.wires + [[]]) }

  function Dropped(r: Rem): Rem {
    if r.connected then r.(connected := false, nonce := "", nc := 0, queue := [], cseq := 0) else r
  }

  function Cleared(r: Rem): Rem { r.(nonce := "", nc := 0) }

  function Challenged(r: Rem, c: Challenge): Rem {
    if r.username == "" || r.password == "" then r
    else
      match c
      case DigestChallenge(realm, nonce, qop) =>
        r.(realm := realm, nonce := nonce, qop := qop, nc := 0, epochs := r.epochs + [[]])
      case BasicChallenge(realm) => if realm == "" then r else r.(realm := realm, nonce := "")
      case Unknown => r
  }

  predicate AnswersDigest(r: Rem) { r.realm != "" && r.username != "" && r.password != "" && r.nonce != "" }

  /** `strings.EqualFold(qop, "auth")`, on ASCII. */
  predicate CountsNonce(r: Rem) { AnswersDigest(r) && Lower(r.qop) == "auth" }

  function AppendLast<T>(xs: seq<seq<T>>, x: T): seq<seq<T>> {
    if xs == [] then xs else xs[|xs| - 1 := xs[|xs| - 1] + [x]]
  }

  /** Computing the digest response with qop=auth advances the 32-bit nonce count. */
  function Authenticated(r: Rem): Rem {
    if CountsNonce(r) then
      var nc := (r.nc + 1) % TWO_TO_THE_32;
      r.(nc := nc, epochs := AppendLast(r.epochs, nc))
    else r
  }

  /** The header that goes with a request, once the nonce is counted. */
  function Credentials(r: Rem): Auth {
    if r.realm == "" || r.username == "" || r.password == "" then NoAuth
    else if r.nonce == "" then Basic(r.username, r.password)
    else Digest(r.username, r.realm, r.nonce, r.qop, if Lower(r.qop) == "auth" then Counted(r.nc) else Uncounted)
  }

  function Wrote(r: Rem, w: Written): Rem { r.(wires := AppendLast(r.wires, w)) }

  /** A request on an open connection, up to and including the write. */
  function Issued(r: Rem): Rem {
    var a := Authenticated(r.(cseq := r.cseq + 1));
    Wrote(a, Request(a.cseq, Credentials(a)))
  }

  function AfterSend(r: Rem, dialOk: bool, writeOk: bool): Rem {
    if !r.connected && !dialOk then r
    else
      var i := Issued(if r.connected then r else Dialled(r));
      if writeOk then i else Dropped(i)
  }

  function AfterBinary(r: Rem, channel: int, data: bytes, headerOk: bool, dataOk: bool): Rem {
    if !r.connected then r
    else if !headerOk then Dropped(r)
    else if !dataOk then Dropped(Wrote(r, Binary(FrameHeader(channel, |data|))))
    else Wrote(r, Binary(EncodeFrame(channel, data)))
  }

  // ---------------------------------------------------------------- the object

  class Remote {
    const username: bytes
    const password: bytes
    var connected: bool
    var currentCSeq: int
    var requests: seq<nat>
    var realm: bytes
    var nonce: bytes
    var qop: bytes
    var nc: int
    var wires: seq<seq<Written>>
    var epochs: seq<seq<int>>

    function Value(): Rem
      reads this
    {
      Rem(username, password, connected, currentCSeq, requests, realm, nonce, qop, nc, wires, epochs)
    }

    /** The counters are right for everything written so far. */
    ghost predicate Valid()
      reads this
    {
      WiresOk(Value()) && EpochsOk(Value())
    }

    constructor (username: bytes, password: bytes)
      ensures Valid() && Value() == NewRem(username, password)
    {
      this.username, this.password := username, password;
      connected, currentCSeq, requests := false, 0, [];
      realm, nonce, qop, nc := "", "", "", 0;
      wires, epochs := [], [];
    }

    method DialLocked(dialOk: bool) returns (ok: bool)
      requires Valid()
      modifies this
      ensures Valid() && ok == dialOk && Value() == if dialOk then Dialled(old(Value())) else old(Value())
    {
      if !dialOk {
        return false;
      }
      DialKeepsWires(Value());
      IssueKeepsEpochs(Value());
      connected := true;
      wires := wires + [[]];
      currentCSeq := 0;
      return true;
    }

    method DisconnectLocked()
      requires Valid()
      modifies this
      ensures Valid() && Value() == Dropped(old(Value()))
    {
      if connected {
        connected := false;
        nonce := "";
        nc := 0;
        requests := [];
        currentCSeq := 0;
      }
    }

    method HandleAuthenticationFailure(c: Challenge) returns (ok: bool)
      requires Valid()
      modifies this
      ensures Valid() && Value() == Challenged(old(Value()), c)
      ensures ok <==> username != "" && password != "" && (c.DigestChallenge? || (c.BasicChallenge? && c.realm != ""))
    {
      OpKeepsWires(Value(), Challenge401(c));
      OpKeepsEpochs(Value(), Challenge401(c));
      if username == "" || password == "" {
        return false;
      }
      match c {
        case DigestChallenge(r, n, q) =>
          realm := r;
          nonce := n;
          qop := q;
          nc := 0;
          epochs := epochs + [[]];
          return true;
        case BasicChallenge(r) =>
          if r != "" {
            realm := r;
            nonce := "";
            return true;
          }
          return false;
        case Unknown =>
          return false;
      }
    }

    method CreateAuthenticator() returns (auth: Auth)
      modifies this
      ensures Value() == Authenticated(old(Value())) && auth == Credentials(Value())
    {
      if realm == "" || username == "" || password == "" {
        return NoAuth;
      }
      if nonce != "" {
        var count := Uncounted;
        if Lower(qop) == "auth" {
          nc := (nc + 1) % TWO_TO_THE_32;
          epochs := AppendLast(epochs, nc);
          count := Counted(nc);
        }
        return Digest(username, realm, nonce, qop, count);
      }
      return Basic(username, password);
    }

    method SendRequest(dialOk: bool, writeOk: bool) returns (ok: bool)
      requires Valid()
      modifies this
      ensures Valid() && Value() == AfterSend(old(Value()), dialOk, writeOk)
      ensures ok <==> (old(connected) || dialOk) && writeOk
    {
      if !connected {
        var dialled := DialLocked(dialOk);
        if !dialled {
          return false;
        }
      }
      ghost var open := Value();
      currentCSeq := currentCSeq + 1;
      var auth := CreateAuthenticator();
      wires := AppendLast(wires, Request(currentCSeq, auth));
      assert Value() == Issued(open);
      IssueKeepsWires(open);
      IssueKeepsEpochs(open);
      if !writeOk {
        DisconnectLocked();
        return false;
      }
      return true;
    }

    method SendBinary(channel: int, data: bytes, headerOk: bool, dataOk: bool) returns (ok: bool)
      requires Valid()
      modifies this
      ensures Valid() && Value() == AfterBinary(old(Value()), channel, data, headerOk, dataOk)
      ensures ok <==> old(connected) && headerOk && dataOk
    {
      if !connected {
        return false;
      }
      var header := ['$', ToByte(channel), ToByte(|data| / 256), ToByte(|data|)];
      BinaryKeepsWires(Value(), FrameHeader(channel, |data|));
      BinaryKeepsWires(Value(), EncodeFrame(channel, data));
      if !headerOk {
        DisconnectLocked();
        return false;
      }
      if !dataOk {
        wires := AppendLast(wires, Binary(header));
        DisconnectLocked();
        return false;
      }
      wires := AppendLast(wires, Binary(header + data));
      return true;
    }

    /** The caller's reaction to a first timeout. */
    method ClearNonce()
      requires Valid()
      modifies this
      ensures Valid() && Value() == Cleared(old(Value()))
    {
      nonce := "";
      nc := 0;
    }
  }

  // ---------------------------------------------------------------- counters over whole runs

  datatype Op =
    | Dial(ok: bool) | Disconnect | Enqueue(id: nat)
    | Send(dialOk: bool, writeOk: bool)
    | SendData(channel: int, data: bytes, headerOk: bool, dataOk: bool)
    | Challenge401(challenge: Challenge) | TimedOut

  function Do(r: Rem, op: Op): Rem {
    match op
    case Dial(ok) => if ok then Dialled(r) else r
    case Disconnect => Dropped(r)
    case Enqueue(id) => r.(queue := r.queue + [id])
    case Send(dialOk, writeOk) => AfterSend(r, dialOk, writeOk)
    case SendData(ch, data, h, d) => AfterBinary(r, ch, data, h, d)
    case Challenge401(c) => Challenged(r, c)
    case TimedOut => Cleared(r)
  }

  function Run(username: bytes, password: bytes, ops: seq<Op>): Rem {
    if ops == [] then NewRem(username, password)
    else Do(Run(username, password, ops[..|ops| - 1]), ops[|ops| - 1])
  }

  /** The CSeq values written to one connection. */
  function CSeqs(w: seq<Written>): seq<int> {
    if w == [] then []
    else CSeqs(w[..|w| - 1]) + (if w[|w| - 1].Request? then [w[|w| - 1].cseq] else [])
  }

  predicate CountsUp(xs: seq<int>) { forall i | 0 <= i < |xs| :: xs[i] == i + 1 }

  predicate CountsUpMod(xs: seq<int>) { forall i | 0 <= i < |xs| :: xs[i] == (i + 1) % TWO_TO_THE_32 }

  predicate WiresOk(r: Rem) {
    && (forall i | 0 <= i < |r.wires| :: CountsUp(CSeqs(r.wires[i])))
    && (if r.connected then r.wires != [] && r.cseq == |CSeqs(r.wires[|r.wires| - 1])| else r.cseq == 0)
  }

  predicate EpochsOk(r: Rem) {
    && (forall i | 0 <= i < |r.epochs| :: CountsUpMod(r.epochs[i]))
    && (r.nonce != "" ==> r.epochs != [] && r.nc == |r.epochs[|r.epochs| - 1]| % TWO_TO_THE_32)
  }

  lemma CSeqsSnoc(w: seq<Written>, x: Written)
    ensures CSeqs(w + [x]) == CSeqs(w) + (if x.Request? then [x.cseq] else [])
  {
    assert (w + [x])[..|w|] == w;
  }

  lemma IssueKeepsWires(r: Rem)
    requires WiresOk(r) && r.connected
    ensures WiresOk(Issued(r)) && Issued(r).connected
  {
    hide CSeqs, CountsNonce, Credentials;
    var last := r.wires[|r.wires| - 1];
    CSeqsSnoc(last, Request(r.cseq + 1, Credentials(Authenticated(r.(cseq := r.cseq + 1)))));
  }

  lemma BinaryKeepsWires(r: Rem, b: bytes)
    requires WiresOk(r) && r.connected
    ensures WiresOk(Wrote(r, Binary(b))) && Wrote(r, Binary(b)).connected
  {
    hide CSeqs;
    var last := r.wires[|r.wires| - 1];
    CSeqsSnoc(last, Binary(b));
    assert CSeqs(last) + [] == CSeqs(last);
  }

  lemma DialKeepsWires(r: Rem)
    requires WiresOk(r)
    ensures WiresOk(Dialled(r))
  {
  }

  lemma OpKeepsWires(r: Rem, op: Op)
    requires WiresOk(r)
    ensures WiresOk(Do(r, op))
  {
    hide CSeqs, FrameHeader, Issued, CountsUp;
    match op
    case Dial(_) => DialKeepsWires(r);
    case Send(dialOk, writeOk) =>
      if r.connected || dialOk {
        if !r.connected { DialKeepsWires(r); }
        IssueKeepsWires(if r.connected then r else Dialled(r));
      }
    case SendData(ch, data, h, d) =>
      if r.connected {
        BinaryKeepsWires(r, FrameHeader(ch, |data|));
        BinaryKeepsWires(r, EncodeFrame(ch, data));
      }
    case _ =>
  }

  lemma IssueKeepsEpochs(r: Rem)
    requires EpochsOk(r)
    ensures EpochsOk(Issued(r)) && EpochsOk(Dialled(r))
  {
    if CountsNonce(r) {
      var last := r.epochs[|r.epochs| - 1];
      WrapSucc(|last|);
    }
  }

  lemma WrapSucc(n: nat)
    ensures (n % TWO_TO_THE_32 + 1) % TWO_TO_THE_32 == (n + 1) % TWO_TO_THE_32
  {
  }

  lemma OpKeepsEpochs(r: Rem, op: Op)
    requires EpochsOk(r)
    ensures EpochsOk(Do(r, op))
  {
    hide FrameHeader, Issued;
    match op
    case Send(dialOk, writeOk) =>
      IssueKeepsEpochs(r);
      IssueKeepsEpochs(Dialled(r));
    case _ =>
  }

  lemma {:induction false} RunOk(username: bytes, password: bytes, ops: seq<Op>)
    ensures WiresOk(Run(username, password, ops)) && EpochsOk(Run(username, password, ops))
  {
    hide WiresOk, EpochsOk, Do;
    if ops == [] {
      NewOk(username, password);
    } else {
      RunOk(username, password, ops[..|ops| - 1]);
      OpKeepsWires(Run(username, password, ops[..|ops| - 1]), ops[|ops| - 1]);
      OpKeepsEpochs(Run(username, password, ops[..|ops| - 1]), ops[|ops| - 1]);
    }
  }

  lemma NewOk(username: bytes, password: bytes)
    ensures WiresOk(NewRem(username, password)) && EpochsOk(NewRem(username, password))
  {
  }

  /** On every connection of every run, across redials, failed writes, challenges and resends, the
      CSeq values written are exactly 1, 2, 3, ... in order. */
  lemma CSeqCountsUp(username: bytes, password: bytes, ops: seq<Op>, conn: nat)
    requires conn < |Run(username, password, ops).wires|
    ensures CountsUp(CSeqs(Run(username, password, ops).wires[conn]))
  {
    RunOk(username, password, ops);
  }
}
