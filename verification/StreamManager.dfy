/** The registry of streams: one stream per camera URL and credentials, under a text key. */
module StreamManager {
  import opened Bytes

  datatype Ident = Ident(host: bytes, username: bytes, password: bytes, path: bytes)

  function Join(username: bytes, password: bytes, rest: bytes): bytes {
    username + ([':'] + (password + (['@'] + rest)))
  }

  function Key(id: Ident): bytes { Join(id.username, id.password, id.host + id.path) }

  /** Hosts and paths as they come out of a request URL. */
  predicate FromUrl(id: Ident) { '/' !in id.host && (id.path == [] || id.path[0] == '/') }

  // ---------------------------------------------------------------- when a key names one stream

  /** The separators the key format relies on do not occur where they would mislead. */
  predicate Unambiguous(id: Ident) {
    ':' !in id.username && ':' !in id.password && '@' !in id.password && '@' !in id.host && '@' !in id.path
  }

  /** No other identity from a URL has the same key. */
  ghost predicate KeyIsUnique(id: Ident) {
    forall other: Ident | FromUrl(other) && Key(other) == Key(id) :: other == id
  }

  /** Splitting the rest of a key into host and path. */
  function HostOf(rest: bytes): bytes { if rest == [] || rest[0] == '/' then [] else [rest[0]] + HostOf(rest[1..]) }

  lemma {:induction false} HostOfSplits(rest: bytes)
    ensures |HostOf(rest)| <= |rest| && HostOf(rest) == rest[..|HostOf(rest)|] && '/' !in HostOf(rest)
    ensures |HostOf(rest)| < |rest| ==> rest[|HostOf(rest)|] == '/'
  {
    if rest == [] || rest[0] == '/' {
    } else {
      HostOfSplits(rest[1..]);
    }
  }

  lemma {:induction false} HostIs(host: bytes, path: bytes)
    requires '/' !in host && (path == [] || path[0] == '/')
    ensures HostOf(host + path) == host
  {
    if host == [] {
    } else {
      assert (host + path)[1..] == host[1..] + path;
      HostIs(host[1..], path);
    }
  }

  /** A user name, a password and the rest of a key give an identity with that key. */
  lemma Reading(username: bytes, password: bytes, rest: bytes) returns (id: Ident)
    ensures FromUrl(id) && id.username == username && id.password == password && id.host + id.path == rest
    ensures Key(id) == Join(username, password, rest)
  {
    HostOfSplits(rest);
    id := Ident(HostOf(rest), username, password, rest[|HostOf(rest)|..]);
    assert rest == id.host + id.path;
  }

  /** Split at an occurrence. */
  lemma SplitAt(s: bytes, x: byte) returns (a: bytes, b: bytes)
    requires x in s
    ensures s == a + [x] + b
  {
    var i :| 0 <= i < |s| && s[i] == x;
    a, b := s[..i], s[i + 1..];
  }

  lemma SameParts(id: Ident, other: Ident)
    requires FromUrl(id) && FromUrl(other) && id.username == other.username && id.password == other.password
    requires id.host + id.path == other.host + other.path
    ensures id == other
  {
    HostIs(id.host, id.path);
    HostIs(other.host, other.path);
    assert id.path == (id.host + id.path)[|id.host|..];
    assert other.path == (other.host + other.path)[|other.host|..];
  }

  /** Where the colon and the at-sign of an unambiguous key are. */
  lemma OnlyPair(id: Ident, i: nat, j: nat)
    requires Unambiguous(id) && i < j < |Key(id)| && Key(id)[i] == ':' && Key(id)[j] == '@'
    ensures i == |id.username| && j == |id.username| + 1 + |id.password|
  {
    var k := Key(id);
    var n, at := |id.username|, |id.username| + 1 + |id.password|;
    assert forall l | 0 <= l < n :: k[l] == id.username[l];
    assert forall l | n < l < at :: k[l] == id.password[l - n - 1];
    assert forall l | at < l < |k| :: k[l] == (id.host + id.path)[l - at - 1];
    assert k[n] == ':' && k[at] == '@';
    assert forall l | at < l < |k| :: k[l] != '@';
  }

  lemma JoinParts(username: bytes, password: bytes, rest: bytes)
    ensures var k := Join(username, password, rest);
            var i, j := |username|, |username| + 1 + |password|;
            && i < j < |k| && k[i] == ':' && k[j] == '@'
            && k[..i] == username && k[i + 1..j] == password && k[j + 1..] == rest
  {
  }

  lemma UnambiguousIsUnique(id: Ident, other: Ident)
    requires FromUrl(id) && FromUrl(other) && Unambiguous(id) && Key(other) == Key(id)
    ensures other == id
  {
    hide Join, FromUrl, Unambiguous;
    JoinParts(other.username, other.password, other.host + other.path);
    JoinParts(id.username, id.password, id.host + id.path);
    OnlyPair(id, |other.username|, |other.username| + 1 + |other.password|);
    SameParts(id, other);
  }

  /** A colon in the user name or password can be read as the separator, and so can an at-sign behind
      the colon. */
  lemma OtherColon(a: bytes, b: bytes, c: bytes, rest: bytes)
    ensures Join(a + [':'] + b, c, rest) == Join(a, b + [':'] + c, rest)
  {
  }

  lemma OtherAt(username: bytes, a: bytes, b: bytes, c: bytes)
    ensures Join(username, a + ['@'] + b, c) == Join(username, a, b + ['@'] + c)
  {
  }

  /** A misleading separator gives a second reading of the key. */
  lemma SecondReading(id: Ident) returns (other: Ident)
    requires FromUrl(id) && !Unambiguous(id)
    ensures FromUrl(other) && Key(other) == Key(id) && other != id
  {
    hide Join, FromUrl;
    var a, b;
    var rest := id.host + id.path;
    if ':' in id.username {
      a, b := SplitAt(id.username, ':');
      OtherColon(a, b, id.password, rest);
      other := Reading(a, b + [':'] + id.password, rest);
    } else if ':' in id.password {
      a, b := SplitAt(id.password, ':');
      OtherColon(id.username, a, b, rest);
      other := Reading(id.username + [':'] + a, b, rest);
    } else if '@' in id.password {
      a, b := SplitAt(id.password, '@');
      OtherAt(id.username, a, b, rest);
      other := Reading(id.username, a, b + ['@'] + rest);
    } else {
      a, b := SplitAt(rest, '@');
      OtherAt(id.username, id.password, a, b);
      other := Reading(id.username, id.password + ['@'] + a, b);
    }
  }

  /** A key names one identity exactly when neither user name nor password has a colon and neither
      password, host nor path an at-sign. */
  lemma KeyUniqueIff(id: Ident)
    requires FromUrl(id)
    ensures KeyIsUnique(id) <==> Unambiguous(id)
  {
    hide Key, FromUrl, Unambiguous;
    if Unambiguous(id) {
      forall other: Ident | FromUrl(other) && Key(other) == Key(id) ensures other == id {
        UnambiguousIsUnique(id, other);
      }
    } else {
      var other := SecondReading(id);
    }
  }

  /** Two identities with one key. */
  lemma KeysCollide()
    ensures Key(Ident("h", "a:b", "c", "/")) == Key(Ident("h", "a", "b:c", "/"))
  {
    OtherColon("a", "b", "c", "h/");
  }

  /** Two identities whose user names have no colon and whose passwords have no at-sign never share
      a key, whatever else they contain. */
  lemma KeyInjective(a: Ident, b: Ident)
    requires FromUrl(a) && FromUrl(b)
    requires ':' !in a.username && ':' !in b.username && '@' !in a.password && '@' !in b.password
    ensures Key(a) == Key(b) <==> a == b
  {
    if Key(a) == Key(b) {
      FirstSplit(a.username, ':', a.password + (['@'] + (a.host + a.path)),
                 b.username, b.password + (['@'] + (b.host + b.path)));
      FirstSplit(a.password, '@', a.host + a.path, b.password, b.host + b.path);
      SameParts(a, b);
    }
  }

  lemma FirstSplit(a: bytes, x: byte, rest: bytes, b: bytes, more: bytes)
    requires x !in a && x !in b && a + ([x] + rest) == b + ([x] + more)
    ensures a == b && rest == more
  {
    var s := a + ([x] + rest);
    NotShorter(a, x, rest, b, more);
    NotShorter(b, x, more, a, rest);
    assert a == s[..|a|] && b == s[..|b|];
    assert rest == s[|a| + 1..] && more == s[|b| + 1..];
  }

  lemma NotShorter(a: bytes, x: byte, rest: bytes, b: bytes, more: bytes)
    requires x !in b && a + ([x] + rest) == b + ([x] + more)
    ensures |b| <= |a|
  {
    assert (a + ([x] + rest))[|a|] == x;
    assert forall i | 0 <= i < |b| :: (b + ([x] + more))[i] == b[i];
  }

  // ---------------------------------------------------------------- the registry

  /** `made` has the identity of every stream ever created, a stream being its number; `ended` lists
      the streams whose destruction removed their key, `counted` how many of these have been taken
      off the gauge, and `missed` how many found their key not there. */
  datatype Registry = Registry(streams: map<bytes, nat>, gauge: int,
                               made: seq<Ident>, ended: seq<nat>, counted: nat, missed: nat)

  const EMPTY := Registry(map[], 0, [], [], 0, 0)

  function AfterGet(r: Registry, id: Ident): Registry {
    if Key(id) in r.streams then r
    else r.(streams := r.streams[Key(id) := |r.made|], gauge := r.gauge + 1, made := r.made + [id])
  }

  function Found(r: Registry, id: Ident): nat { if Key(id) in r.streams then r.streams[Key(id)] else |r.made| }

  function AfterRemove(r: Registry, s: nat): Registry
    requires s < |r.made|
  {
    r.(streams := r.streams - {Key(r.made[s])}, ended := r.ended + [s],
       missed := r.missed + if Key(r.made[s]) in r.streams then 0 else 1)
  }

  function AfterCount(r: Registry): Registry { r.(gauge := r.gauge - 1, counted := r.counted + 1) }

  class Manager {
    var streams: map<bytes, nat>
    var gauge: int
    var made: seq<Ident>
    var ended: seq<nat>
    var counted: nat
    var missed: nat

    function Value(): Registry
      reads this
    {
      Registry(streams, gauge, made, ended, counted, missed)
    }

    /** Keys, gauge and map agree, and while no stream was destroyed twice the map has exactly the live
        streams. */
    ghost predicate Valid()
      reads this
    {
      Inv(Value())
    }

    constructor ()
      ensures Valid() && Value() == EMPTY
    {
      streams, gauge, made, ended, counted, missed := map[], 0, [], [], 0, 0;
    }

    method GetStream(id: Ident) returns (s: nat)
      requires Valid()
      modifies this
      ensures Valid() && Value() == AfterGet(old(Value()), id) && s == Found(old(Value()), id)
    {
      hide Inv;
      var key := id.username + [':'] + id.password + ['@'] + id.host + id.path;
      assert key == Key(id);
      GetKeepsInv(Value(), id);
      if key in streams {
        return streams[key];
      }
      s := |made|;
      made := made + [id];
      streams := streams[key := s];
      gauge := gauge + 1;
    }

    /** The first half of a stream's destroy callback. */
    method RemoveStream(s: nat)
      requires Valid() && s < |made|
      modifies this
      ensures Valid() && Value() == AfterRemove(old(Value()), s)
    {
      hide Inv;
      RemoveKeepsInv(Value(), s);
      var key := Key(made[s]);
      if key !in streams {
        missed := missed + 1;
      }
      streams := streams - {key};
      ended := ended + [s];
    }

    /** The second half. */
    method CountDown()
      requires Valid() && counted < |ended|
      modifies this
      ensures Valid() && Value() == AfterCount(old(Value()))
    {
      hide Inv;
      CountKeepsInv(Value());
      gauge := gauge - 1;
      counted := counted + 1;
    }
  }

  /** Lookups and the two halves of destroy callbacks, of any streams, interleaved at will. */
  datatype Event = Get(id: Ident) | Remove(stream: nat) | Count

  predicate Can(r: Registry, e: Event) {
    match e
    case Get(_) => true
    case Remove(s) => s < |r.made|
    case Count => r.counted < |r.ended|
  }

  function Do(r: Registry, e: Event): Registry
    requires Can(r, e)
  {
    match e
    case Get(id) => AfterGet(r, id)
    case Remove(s) => AfterRemove(r, s)
    case Count => AfterCount(r)
  }

  predicate Possible(es: seq<Event>)
    decreases |es|, 0
  {
    es == [] || (Possible(es[..|es| - 1]) && Can(Exec(es[..|es| - 1]), es[|es| - 1]))
  }

  function Exec(es: seq<Event>): Registry
    requires Possible(es)
    decreases |es|, 1
  {
    if es == [] then EMPTY else Do(Exec(es[..|es| - 1]), es[|es| - 1])
  }

  /** No stream was destroyed twice. */
  predicate Once(ended: seq<nat>) { forall i, j | 0 <= i < j < |ended| :: ended[i] != ended[j] }

  predicate Live(r: Registry, s: nat) { s < |r.made| && s !in r.ended }

  predicate Sound(r: Registry) {
    && (forall k <- r.streams :: r.streams[k] < |r.made| && Key(r.made[r.streams[k]]) == k)
    && (forall i | 0 <= i < |r.ended| :: r.ended[i] < |r.made|)
    && r.counted <= |r.ended|
    && r.gauge == |r.made| - r.counted
    && |r.streams| + |r.ended| == |r.made| + r.missed
  }

  /** While no stream was destroyed twice, the streams in the map are exactly the live ones, each under
      its own key. */
  predicate Exact(r: Registry) {
    && (forall s | 0 <= s < |r.made| && Live(r, s) :: Key(r.made[s]) in r.streams && r.streams[Key(r.made[s])] == s)
    && (forall k <- r.streams :: r.streams[k] !in r.ended)
    && r.missed == 0
  }

  predicate Inv(r: Registry) { Sound(r) && (Once(r.ended) ==> Exact(r)) }

  lemma Smaller(m: map<bytes, nat>, k: bytes)
    ensures |m - {k}| == |m| - if k in m then 1 else 0
  {
    assert (m - {k}).Keys == m.Keys - {k};
    assert |m.Keys| == |m| && |(m - {k}).Keys| == |m - {k}|;
  }

  lemma Larger(m: map<bytes, nat>, k: bytes, s: nat)
    requires k !in m
    ensures |m[k := s]| == |m| + 1
  {
    assert m[k := s].Keys == m.Keys + {k};
    assert |m.Keys| == |m| && |m[k := s].Keys| == |m[k := s]|;
  }

  lemma GetKeepsInv(r: Registry, id: Ident)
    requires Inv(r)
    ensures Inv(AfterGet(r, id))
  {
    hide Key, Once;
    var t := AfterGet(r, id);
    if Key(id) !in r.streams {
      Larger(r.streams, Key(id), |r.made|);
      if Once(r.ended) {
        forall s: nat | Live(t, s) ensures Key(t.made[s]) in t.streams && t.streams[Key(t.made[s])] == s {
          if s < |r.made| { assert Live(r, s); }
        }
      }
    }
  }

  lemma RemoveKeepsSound(r: Registry, s: nat)
    requires Sound(r) && s < |r.made|
    ensures Sound(AfterRemove(r, s))
  {
    hide Key;
    Smaller(r.streams, Key(r.made[s]));
  }

  lemma OnceMeansFirst(ended: seq<nat>, s: nat)
    requires Once(ended + [s])
    ensures Once(ended) && s !in ended
  {
    var more := ended + [s];
    assert more[|ended|] == s;
    assert forall i | 0 <= i < |ended| :: more[i] == ended[i];
  }

  lemma RemoveKeepsExact(r: Registry, s: nat)
    requires Sound(r) && Exact(r) && Live(r, s)
    ensures Exact(AfterRemove(r, s))
  {
    hide Key;
    var t := AfterRemove(r, s);
    forall x: nat | Live(t, x) ensures Key(t.made[x]) in t.streams && t.streams[Key(t.made[x])] == x {
      assert s in t.ended;
      assert Live(r, x) && x != s;
    }
  }

  lemma RemoveKeepsInv(r: Registry, s: nat)
    requires Inv(r) && s < |r.made|
    ensures Inv(AfterRemove(r, s))
  {
    hide Sound, Exact, Once;
    RemoveKeepsSound(r, s);
    if Once(r.ended + [s]) {
      OnceMeansFirst(r.ended, s);
      RemoveKeepsExact(r, s);
    }
  }

  lemma {:induction false} RunInv(es: seq<Event>)
    requires Possible(es)
    ensures Inv(Exec(es))
  {
    hide Inv, AfterGet, AfterRemove;
    if es == [] {
      EmptyInv();
    } else {
      RunInv(es[..|es| - 1]);
      var r := Exec(es[..|es| - 1]);
      match es[|es| - 1]
      case Get(id) => GetKeepsInv(r, id);
      case Remove(s) => RemoveKeepsInv(r, s);
      case Count => CountKeepsInv(r);
    }
  }

  lemma EmptyInv()
    ensures Inv(EMPTY)
  {
  }

  lemma CountKeepsInv(r: Registry)
    requires Inv(r) && r.counted < |r.ended|
    ensures Inv(AfterCount(r))
  {
  }

  /** In every run the gauge differs from the size of the map by the callbacks under way and the
      removals that found nothing. So between callbacks it is right exactly when there was no such
      removal, and there is none as long as no stream is destroyed twice. */
  lemma GaugeIff(es: seq<Event>)
    requires Possible(es)
    ensures var r := Exec(es);
            && r.gauge == |r.streams| + (|r.ended| - r.counted) - r.missed
            && (r.counted == |r.ended| ==> (r.gauge == |r.streams| <==> r.missed == 0))
            && (Once(r.ended) ==> r.missed == 0)
  {
    hide Exec;
    RunInv(es);
  }

  /** As long as no stream is destroyed twice, a lookup gets a live stream exactly when it asks for
      the identity that stream was created for, for user names without a colon and passwords without
      an at-sign. */
  lemma SharedIff(es: seq<Event>, s: nat, id: Ident)
    requires Possible(es) && Once(Exec(es).ended) && Live(Exec(es), s)
    requires FromUrl(Exec(es).made[s]) && FromUrl(id)
    requires ':' !in Exec(es).made[s].username && ':' !in id.username
    requires '@' !in Exec(es).made[s].password && '@' !in id.password
    ensures Found(Exec(es), id) == s <==> id == Exec(es).made[s]
  {
    hide Exec, Key, FromUrl;
    RunInv(es);
    KeyInjective(Exec(es).made[s], id);
  }

  /** The same for any identity whatever, if the stream's own is unambiguous. */
  lemma SharedUnambiguousIff(es: seq<Event>, s: nat, id: Ident)
    requires Possible(es) && Once(Exec(es).ended) && Live(Exec(es), s)
    requires FromUrl(Exec(es).made[s]) && FromUrl(id) && Unambiguous(Exec(es).made[s])
    ensures Found(Exec(es), id) == s <==> id == Exec(es).made[s]
  {
    hide Exec, Key, FromUrl, Unambiguous;
    RunInv(es);
    var r := Exec(es);
    if Found(r, id) == s { UnambiguousIsUnique(r.made[s], id); }
  }

  /** As long as no stream is destroyed twice, no two live streams have the same key. */
  lemma LiveKeysDiffer(es: seq<Event>, s: nat, t: nat)
    requires Possible(es) && Once(Exec(es).ended) && Live(Exec(es), s) && Live(Exec(es), t) && s != t
    ensures Key(Exec(es).made[s]) != Key(Exec(es).made[t])
  {
    hide Exec, Key;
    RunInv(es);
  }

  // ---------------------------------------------------------------- what a second destroy does

  const CAM := Ident("h", "u", "p", "/")

  lemma ExecOn(es: seq<Event>, e: Event)
    requires Possible(es) && Can(Exec(es), e)
    ensures Possible(es + [e]) && Exec(es + [e]) == Do(Exec(es), e)
  {
    assert (es + [e])[..|es|] == es;
  }

  /** Destroying a stream twice can leave two live streams for the same camera and credentials. */
  lemma TwiceDestroyedSplits() returns (es: seq<Event>)
    ensures Possible(es) && Live(Exec(es), 1) && Live(Exec(es), 2) && Exec(es).made[1] == Exec(es).made[2] == CAM
  {
    hide Exec, Possible, Key;
    es := [];
    Nothing();
    ExecOn(es, Get(CAM)); es := es + [Get(CAM)];
    ExecOn(es, Remove(0)); es := es + [Remove(0)];
    ExecOn(es, Get(CAM)); es := es + [Get(CAM)];
    ExecOn(es, Remove(0)); es := es + [Remove(0)];
    ExecOn(es, Get(CAM)); es := es + [Get(CAM)];
    assert Exec(es).made == [CAM, CAM, CAM] && Exec(es).ended == [0, 0];
  }

  /** And it can leave the gauge wrong for good. */
  lemma TwiceDestroyedMiscounts() returns (es: seq<Event>)
    ensures Possible(es) && Exec(es).counted == |Exec(es).ended| && Exec(es).gauge == -1 && |Exec(es).streams| == 0
  {
    hide Exec, Possible, Key;
    es := [];
    Nothing();
    ExecOn(es, Get(CAM)); es := es + [Get(CAM)];
    ExecOn(es, Remove(0)); es := es + [Remove(0)];
    ExecOn(es, Count); es := es + [Count];
    ExecOn(es, Remove(0)); es := es + [Remove(0)];
    ExecOn(es, Count); es := es + [Count];
    assert Exec(es).streams == map[];
  }

  lemma Nothing()
    ensures Possible([]) && Exec([]) == EMPTY
  {
  }
}
