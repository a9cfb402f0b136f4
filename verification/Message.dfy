/** The shared RTSP text helpers: line splitting, header keys, header values, header lookup and
    the byte scanner for Content-Length. Each loop is a method proved against a function; the
    laws are stated about the functions. */
module Message {
  import opened Bytes

  type Headers = map<bytes, bytes>

  // ---------------------------------------------------------------- lines

  /** Position of the first CR or LF, or the length when there is none. */
  function EolIndex(s: bytes): (i: nat)
    ensures i <= |s| && NoEol(s[..i]) && (i < |s| ==> IsEol(s[i]))
  {
    if s == [] || IsEol(s[0]) then 0 else 1 + EolIndex(s[1..])
  }

  function FirstLine(s: bytes): bytes { s[..EolIndex(s)] }

  function AfterLine(s: bytes): (r: bytes)
    ensures |r| <= |s| && (s != [] ==> |r| < |s|)
  {
    var i := EolIndex(s);
    if i == |s| then []
    else if s[i] == '\r' && i + 1 < |s| && s[i + 1] == '\n' then s[i + 2..]
    else s[i + 1..]
  }

  method SharedLineSplit(buf: bytes) returns (rest: bytes, line: bytes)
    ensures line == FirstLine(buf) && rest == AfterLine(buf)
    ensures NoEol(line) && line <= buf
  {
    var i := 0;
    while i < |buf|
      invariant i <= |buf| && NoEol(buf[..i])
    {
      var c := buf[i];
      if c == '\r' || c == '\n' {
        EolIndexIs(buf, i);
        line := buf[..i];
        if c == '\r' && i + 1 < |buf| && buf[i + 1] == '\n' {
          rest := buf[i + 2..];
        } else {
          rest := buf[i + 1..];
        }
        return;
      }
      i := i + 1;
    }
    EolIndexIs(buf, |buf|);
    assert buf[..|buf|] == buf;
    rest, line := [], buf;
  }

  lemma {:induction false} EolIndexIs(s: bytes, i: nat)
    requires i <= |s| && NoEol(s[..i]) && (i < |s| ==> IsEol(s[i]))
    ensures EolIndex(s) == i
  {
    if i == 0 {
    } else {
      assert !IsEol(s[..i][0]) && s[1..][..i - 1] == s[..i][1..];
      EolIndexIs(s[1..], i - 1);
    }
  }

  /** A CR/LF-free line followed by CRLF is split off exactly. */
  lemma SplitCrlf(line: bytes, rest: bytes)
    requires NoEol(line)
    ensures FirstLine(line + "\r\n" + rest) == line
    ensures AfterLine(line + "\r\n" + rest) == rest
  {
    var s := line + "\r\n" + rest;
    assert s[..|line|] == line;
    EolIndexIs(s, |line|);
  }

  /** A CR/LF-free line is split off at any of the three line ends, which goes with it: a lone CR is one
      unless a LF follows. A text without a line end is one line. */
  lemma SplitAnyEnd(line: bytes, end: bytes, rest: bytes)
    requires NoEol(line)
    requires end == "\r\n" || end == "\n" || (end == "\r" && (rest == [] || rest[0] != '\n'))
    ensures FirstLine(line + end + rest) == line && AfterLine(line + end + rest) == rest
    ensures FirstLine(line) == line && AfterLine(line) == []
  {
    var s := line + end + rest;
    assert s[..|line|] == line;
    assert s[|line| + |end|..] == rest;
    EolIndexIs(s, |line|);
    assert line[..|line|] == line;
    EolIndexIs(line, |line|);
  }

  // ---------------------------------------------------------------- header keys

  function CanonByte(s: bytes, i: nat): byte
    requires i < |s|
  {
    if i == 0 || s[i - 1] == '-' then UpperByte(s[i]) else LowerByte(s[i])
  }

  function Canon(s: bytes): (r: bytes)
    ensures |r| == |s| && forall i | 0 <= i < |s| :: r[i] == CanonByte(s, i)
  {
    seq(|s|, i requires 0 <= i < |s| => CanonByte(s, i))
  }

  function CanonicalKey(s: bytes): bytes { Canon(TrimSpace(s)) }

  method CanonicalHeaderKey(s: bytes) returns (r: bytes)
    ensures r == CanonicalKey(s)
  {
    var t := TrimSpace(s);
    if t == [] {
      return t;
    }
    var b := new byte[|t|](i requires 0 <= i < |t| => t[i]);
    var upper := true;
    for i := 0 to b.Length
      invariant upper == (i == 0 || t[i - 1] == '-')
      invariant forall k | 0 <= k < i :: b[k] == CanonByte(t, k)
      invariant forall k | i <= k < |t| :: b[k] == t[k]
    {
      var c := b[i];
      if upper && 'a' <= c <= 'z' {
        b[i] := ((c as int) - 32) as char;
      } else if !upper && 'A' <= c <= 'Z' {
        b[i] := ((c as int) + 32) as char;
      }
      upper := c == '-';
    }
    r := b[..];
  }

  /** A canonical key is the trimmed key with each letter in upper case at the start and after a dash,
      and in lower case elsewhere. */
  lemma CanonicalKeyShape(s: bytes)
    ensures Lower(CanonicalKey(s)) == Lower(TrimSpace(s))
    ensures var k := CanonicalKey(s);
            forall i | 0 <= i < |k| ::
              if i == 0 || k[i - 1] == '-' then !('a' <= k[i] <= 'z') else !('A' <= k[i] <= 'Z')
  {
    hide TrimSpace, Lower;
    var t := TrimSpace(s);
    CanonLower(t);
    forall i | 0 <= i < |t|
      ensures if i == 0 || Canon(t)[i - 1] == '-' then !('a' <= Canon(t)[i] <= 'z') else !('A' <= Canon(t)[i] <= 'Z')
    {
      CanonAt(t, i);
    }
  }

  lemma CanonAt(t: bytes, i: nat)
    requires i < |t|
    ensures if i == 0 || Canon(t)[i - 1] == '-' then !('a' <= Canon(t)[i] <= 'z') else !('A' <= Canon(t)[i] <= 'Z')
  {
    assert Canon(t)[i] == CanonByte(t, i);
    if i > 0 { assert Canon(t)[i - 1] == CanonByte(t, i - 1); }
  }

  lemma CanonLower(s: bytes)
    ensures Lower(Canon(s)) == Lower(s)
    ensures Canon(Lower(s)) == Canon(s)
    ensures Canon(Canon(s)) == Canon(s)
  {
    forall i | 0 <= i < |s|
      ensures Lower(Canon(s))[i] == Lower(s)[i]
      ensures Canon(Lower(s))[i] == Canon(s)[i]
      ensures Canon(Canon(s))[i] == Canon(s)[i]
    {
      CanonByteLower(s, i);
    }
  }

  lemma CanonByteLower(s: bytes, i: nat)
    requires i < |s|
    ensures LowerByte(CanonByte(s, i)) == LowerByte(s[i])
    ensures CanonByte(Lower(s), i) == CanonByte(s, i)
    ensures CanonByte(Canon(s), i) == CanonByte(s, i)
  {
    if i > 0 {
      assert Lower(s)[i - 1] == LowerByte(s[i - 1]);
      assert Canon(s)[i - 1] == CanonByte(s, i - 1);
      assert Canon(s)[i - 1] == '-' <==> s[i - 1] == '-';
    }
  }

  lemma CanonTrimmed(s: bytes)
    ensures Trimmed(s) ==> Trimmed(Canon(s))
  {
  }

  /** Two keys canonicalise alike exactly when they match ignoring case after trimming. */
  lemma CanonicalKeysAgree(a: bytes, b: bytes)
    ensures CanonicalKey(a) == CanonicalKey(b) <==> Lower(TrimSpace(a)) == Lower(TrimSpace(b))
  {
    CanonLower(TrimSpace(a));
    CanonLower(TrimSpace(b));
  }

  lemma CanonicalKeyIdempotent(s: bytes)
    ensures CanonicalKey(CanonicalKey(s)) == CanonicalKey(s)
    ensures Trimmed(CanonicalKey(s))
  {
    TrimSpaceTrimmed(s);
    CanonTrimmed(TrimSpace(s));
    TrimSpaceTrimmed(CanonicalKey(s));
    CanonLower(TrimSpace(s));
  }

  // ---------------------------------------------------------------- header lookup

  /** What the three-step lookup may answer, whatever order the map is ranged over in. */
  ghost predicate MayAnswer(headers: Headers, key: bytes, v: bytes) {
    if key in headers then v == headers[key]
    else if CanonicalKey(key) in headers then v == headers[CanonicalKey(key)]
    else
      || (exists k | k in headers :: Lower(k) == Lower(key) && v == headers[k])
      || ((forall k | k in headers :: Lower(k) != Lower(key)) && v == "")
  }

  method HeaderGet(headers: Headers, key: bytes) returns (v: bytes)
    ensures MayAnswer(headers, key, v)
  {
    if key in headers {
      return headers[key];
    }
    var canon := CanonicalHeaderKey(key);
    if canon in headers {
      return headers[canon];
    }
    var lower := Lower(key);
    var todo := headers.Keys;
    while todo != {}
      invariant todo <= headers.Keys
      invariant forall k | k in headers && k !in todo :: Lower(k) != Lower(key)
    {
      var k :| k in todo;
      if Lower(k) == lower {
        return headers[k];
      }
      todo := todo - {k};
    }
    return "";
  }

  predicate CanonicalMap(headers: Headers) {
    forall k | k in headers :: CanonicalKey(k) == k
  }

  /** The case-insensitive search: the value of the key that matches `key`, or nothing. */
  function Lookup(headers: Headers, key: bytes): bytes {
    if CanonicalKey(key) in headers then headers[CanonicalKey(key)] else ""
  }

  /** On a map of canonical keys the lookup is a case-insensitive linear search: it answers the
      value of a key exactly when that key matches after trimming, at most one key does, and the
      order in which the fallback ranges over the map cannot be observed. */
  lemma HeaderGetIsCaseInsensitive(headers: Headers, key: bytes, v: bytes)
    requires CanonicalMap(headers) && MayAnswer(headers, key, v)
    ensures v == Lookup(headers, key)
    ensures forall k | k in headers ::
              Lower(k) == Lower(TrimSpace(key)) <==> k == CanonicalKey(key)
    ensures forall k | k in headers && Lower(k) == Lower(TrimSpace(key)) :: v == headers[k]
    ensures (forall k | k in headers :: Lower(k) != Lower(TrimSpace(key))) ==> v == ""
  {
    forall k | k in headers
      ensures Lower(k) == Lower(TrimSpace(key)) <==> k == CanonicalKey(key)
    {
      CanonicalKeyIdempotent(k);
      TrimSpaceTrimmed(k);
      CanonicalKeysAgree(k, key);
    }
    if key !in headers && CanonicalKey(key) !in headers {
      forall k | k in headers ensures Lower(k) != Lower(key) {
        if Lower(k) == Lower(key) {
          TrimSpaceLower(k);
          TrimSpaceLower(key);
          CanonicalKeysAgree(k, key);
        }
      }
    }
  }

  // ---------------------------------------------------------------- header values

  function SkipBlanks(s: bytes): (r: bytes)
    ensures |r| <= |s| && (r == [] || !IsBlank(r[0]))
  {
    if s != [] && IsBlank(s[0]) then SkipBlanks(s[1..]) else s
  }

  /** The value scanner: outside `skip` it drops tabs and line ends, and after a `;` it drops
      white space up to the next character, which it keeps whatever it is. */
  function ScanValue(s: bytes, skip: bool): bytes {
    if s == [] then []
    else if skip then
      if IsBlank(s[0]) || IsEol(s[0]) then ScanValue(s[1..], true)
      else [s[0]] + ScanValue(s[1..], false)
    else if s[0] == '\t' || IsEol(s[0]) then ScanValue(s[1..], false)
    else [s[0]] + ScanValue(s[1..], s[0] == ';')
  }

  function Normalize(v: bytes): bytes { ScanValue(SkipBlanks(v), false) }

  datatype HeaderLine = HeaderLine(key: bytes, value: bytes) | NoColon

  function ParseHeader(line: bytes): HeaderLine {
    var colon := IndexOf(line, ":");
    if colon < 0 then NoColon
    else HeaderLine(CanonicalKey(line[..colon]), Normalize(line[colon + 1..]))
  }

  /** The loop over the blanks after the colon. */
  method SkipLeading(line: bytes, from: nat) returns (i: nat)
    requires from <= |line|
    ensures from <= i <= |line| && line[i..] == SkipBlanks(line[from..])
  {
    i := from;
    while i < |line| && (line[i] == ' ' || line[i] == '\t')
      invariant from <= i <= |line|
      invariant SkipBlanks(line[i..]) == SkipBlanks(line[from..])
    {
      assert line[i..][1..] == line[i + 1..];
      i := i + 1;
    }
  }

  lemma ScanStep(line: bytes, i: nat, skip: bool)
    requires i < |line|
    ensures var c, rest := line[i], line[i + 1..];
            ScanValue(line[i..], skip) ==
            if c == '\t' || IsEol(c) || (skip && c == ' ') then ScanValue(rest, skip)
            else [c] + ScanValue(rest, !skip && c == ';')
  {
    assert line[i..][1..] == line[i + 1..] && line[i..][0] == line[i];
  }

  lemma ScanNone(s: bytes, skip: bool)
    requires s == []
    ensures ScanValue(s, skip) == []
  {
  }

  lemma Regroup(b: bytes, c: byte, rest: bytes)
    ensures b + ([c] + rest) == b + [c] + rest
  {
  }

  /** The value loop, with its two states. */
  method CollectValue(line: bytes, from: nat) returns (b: bytes)
    requires from <= |line|
    ensures b == ScanValue(line[from..], false)
  {
    hide ScanValue;
    b := [];
    var skip := false;
    for i := from to |line|
      invariant b + ScanValue(line[i..], skip) == ScanValue(line[from..], false)
    {
      var c := line[i];
      ScanStep(line, i, skip);
      Regroup(b, c, ScanValue(line[i + 1..], !skip && c == ';'));
      if !skip {
        if !(c == '\t' || c == '\r' || c == '\n') {
          b := b + [c];
          skip := c == ';';
        }
      } else if c != ' ' && c != '\t' && c != '\r' && c != '\n' {
        b := b + [c];
        skip := false;
      }
    }
    ScanNone(line[|line|..], skip);
    assert b + [] == b;
  }

  method SharedParseHeader(line: bytes) returns (r: HeaderLine)
    ensures r == ParseHeader(line)
  {
    var colon := IndexBytes(line, ":");
    if colon < 0 {
      return NoColon;
    }
    var key := CanonicalHeaderKey(line[..colon]);
    var i := SkipLeading(line, colon + 1);
    var value := CollectValue(line, i);
    r := HeaderLine(key, value);
  }

  lemma {:induction false} ScanValueIdempotent(s: bytes, skip: bool)
    ensures ScanValue(ScanValue(s, skip), skip) == ScanValue(s, skip)
    ensures NoEol(ScanValue(s, skip))
  {
    if s == [] {
    } else {
      ScanValueIdempotent(s[1..], false);
      ScanValueIdempotent(s[1..], true);
      if (skip && !IsBlank(s[0]) && !IsEol(s[0])) || (!skip && s[0] != '\t' && !IsEol(s[0])) {
        assert ScanValue(s, skip)[1..] == ScanValue(s[1..], !skip && s[0] == ';');
      }
    }
  }

  /** The first byte the scanner keeps, if any: tabs and line ends before it are dropped. */
  function FirstKept(s: bytes): (r: bytes)
    ensures |r| <= 1
  {
    if s == [] then [] else if s[0] == '\t' || IsEol(s[0]) then FirstKept(s[1..]) else [s[0]]
  }

  lemma {:induction false} FirstKeptIs(s: bytes)
    ensures FirstKept(s) <= ScanValue(s, false)
    ensures FirstKept(s) == [] <==> ScanValue(s, false) == []
    ensures FirstKept(s) != "\t" && (NoEol(s) && (s == [] || !IsBlank(s[0])) ==> FirstKept(s) != " ")
  {
    if s == [] {
    } else if s[0] == '\t' || IsEol(s[0]) {
      FirstKeptIs(s[1..]);
    }
  }

  /** White space inside a value: blanks and line ends. */
  predicate AllWhite(w: bytes) { forall i | 0 <= i < |w| :: IsBlank(w[i]) || IsEol(w[i]) }

  predicate AllBlank(w: bytes) { forall i | 0 <= i < |w| :: IsBlank(w[i]) }

  /** The text without its tabs and line ends. */
  function Kept(s: bytes): bytes {
    if s == [] then []
    else if s[0] == '\t' || s[0] == '\r' || s[0] == '\n' then Kept(s[1..])
    else [s[0]] + Kept(s[1..])
  }

  /** The text after the first parameter: each further one has a `;` and some white space before it. */
  function Further(gaps: seq<bytes>, params: seq<bytes>): bytes
    requires |gaps| == |params|
  {
    if params == [] then [] else [';'] + (gaps[0] + (params[0] + Further(gaps[1..], params[1..])))
  }

  function KeptFurther(params: seq<bytes>): bytes {
    if params == [] then [] else [';'] + (Kept(params[0]) + KeptFurther(params[1..]))
  }

  /** No `;` inside, and no white space at the start. */
  predicate IsParam(p: bytes) { ';' !in p && (p == [] || !(IsBlank(p[0]) || IsEol(p[0]))) }

  lemma {:induction false} SkipBlanksOver(w: bytes, t: bytes)
    requires AllBlank(w) && (t == [] || !IsBlank(t[0]))
    ensures SkipBlanks(w + t) == t
  {
    if w == [] {
      assert w + t == t;
    } else {
      assert (w + t)[1..] == w[1..] + t;
      SkipBlanksOver(w[1..], t);
    }
  }

  lemma {:induction false} ScanKeeps(p: bytes, t: bytes)
    requires ';' !in p
    ensures ScanValue(p + t, false) == Kept(p) + ScanValue(t, false)
  {
    if p == [] {
      assert p + t == t;
    } else {
      assert (p + t)[1..] == p[1..] + t;
      ScanKeeps(p[1..], t);
    }
  }

  /** After a `;` the white space goes, and the byte behind it stays. */
  lemma {:induction false} ScanSkips(w: bytes, u: bytes)
    requires AllWhite(w) && u != [] && !(IsBlank(u[0]) || IsEol(u[0]))
    ensures ScanValue(w + u, true) == [u[0]] + ScanValue(u[1..], false)
  {
    if w == [] {
      assert w + u == u;
    } else {
      assert (w + u)[1..] == w[1..] + u;
      ScanSkips(w[1..], u);
    }
  }

  lemma ScanParam(w: bytes, p: bytes, t: bytes)
    requires AllWhite(w) && IsParam(p) && p != []
    ensures ScanValue(w + (p + t), true) == Kept(p) + ScanValue(t, false)
  {
    hide ScanValue;
    ScanSkips(w, p + t);
    assert (p + t)[1..] == p[1..] + t;
    ScanKeeps(p[1..], t);
    assert [p[0]] + (Kept(p[1..]) + ScanValue(t, false)) == [p[0]] + Kept(p[1..]) + ScanValue(t, false);
  }

  lemma {:induction false} ScanSkipsAll(w: bytes)
    requires AllWhite(w)
    ensures ScanValue(w, true) == []
  {
    if w == [] {
    } else {
      ScanSkipsAll(w[1..]);
    }
  }

  lemma {:induction false} ScanFurther(gaps: seq<bytes>, params: seq<bytes>)
    requires |gaps| == |params|
    requires forall i | 0 <= i < |gaps| :: AllWhite(gaps[i]) && IsParam(params[i])
    requires forall i | 0 <= i < |params| - 1 :: params[i] != []
    ensures ScanValue(Further(gaps, params), false) == KeptFurther(params)
  {
    if params == [] {
    } else {
      var t := Further(gaps[1..], params[1..]);
      ScanOpens(gaps[0] + (params[0] + t));
      ScanFurther(gaps[1..], params[1..]);
      hide ScanValue;
      if params[0] == [] {
        assert gaps[0] + (params[0] + t) == gaps[0];
        ScanSkipsAll(gaps[0]);
      } else {
        ScanParam(gaps[0], params[0], t);
      }
    }
  }

  lemma ScanOpens(u: bytes)
    ensures ScanValue([';'] + u, false) == [';'] + ScanValue(u, true)
  {
    assert ([';'] + u)[1..] == u;
  }

  lemma FurtherStarts(gaps: seq<bytes>, params: seq<bytes>)
    requires |gaps| == |params|
    ensures Further(gaps, params) == [] || Further(gaps, params)[0] == ';'
  {
  }

  /** A value with parameters: the blanks before it and all white space after each `;` go, and so do
      tabs and line ends anywhere; nothing else does. The last parameter may be missing. */
  lemma ParametersNormalize(lead: bytes, first: bytes, gaps: seq<bytes>, params: seq<bytes>)
    requires AllBlank(lead) && ';' !in first && (first == [] || !IsBlank(first[0]))
    requires |gaps| == |params|
    requires forall i | 0 <= i < |gaps| :: AllWhite(gaps[i]) && IsParam(params[i])
    requires forall i | 0 <= i < |params| - 1 :: params[i] != []
    ensures Normalize(lead + (first + Further(gaps, params))) == Kept(first) + KeptFurther(params)
  {
    FurtherStarts(gaps, params);
    ScanFurther(gaps, params);
    hide ScanValue, SkipBlanks, Further, Kept, KeptFurther, AllWhite, IsParam;
    var t := Further(gaps, params);
    SkipBlanksOver(lead, first + t);
    ScanKeeps(first, t);
  }

  /** Without a `;`, exactly the leading blanks and all tabs and line ends disappear. */
  lemma PlainNormalizes(lead: bytes, text: bytes)
    requires AllBlank(lead) && ';' !in text && (text == [] || !IsBlank(text[0]))
    ensures Normalize(lead + text) == Kept(text)
  {
    ParametersNormalize(lead, text, [], []);
    assert text + Further([], []) == text && Kept(text) + KeptFurther([]) == Kept(text);
  }

  /** Only one `;` opens a gap: a second one right behind it is kept as a parameter's first byte would
      be, and the spaces after it stay. */
  lemma SecondSeparatorIsKept(first: bytes, gap: bytes, text: bytes)
    requires ';' !in first && (first == [] || !IsBlank(first[0])) && AllWhite(gap) && ';' !in text
    ensures Normalize(first + ";" + gap + ";" + text) == Kept(first) + ";;" + Kept(text)
  {
    hide ScanValue, SkipBlanks, Kept, AllWhite;
    var u := gap + ";" + text;
    RegroupGap(first, gap, text);
    SkipBlanksOver([], first + ([';'] + u));
    assert [] + (first + ([';'] + u)) == first + ([';'] + u);
    ScanKeeps(first, [';'] + u);
    ScanOpens(u);
    ScanSecond(gap, text);
    assert Kept(first) + ([';'] + (";" + Kept(text))) == Kept(first) + ";;" + Kept(text);
  }

  lemma RegroupGap(first: bytes, gap: bytes, text: bytes)
    ensures first + ";" + gap + ";" + text == first + ([';'] + (gap + ";" + text))
  {
  }

  lemma {:induction false} ScanSecond(gap: bytes, text: bytes)
    requires AllWhite(gap) && ';' !in text
    ensures ScanValue(gap + ";" + text, true) == ";" + Kept(text)
  {
    if gap == [] {
      assert gap + ";" + text == [';'] + text;
      ScanKeeps(text, []);
      assert text + [] == text && Kept(text) + [] == Kept(text);
    } else {
      assert (gap + ";" + text)[1..] == gap[1..] + ";" + text;
      ScanSecond(gap[1..], text);
    }
  }

  /** Normalising twice changes nothing if and only if, after the leading blanks, the first byte that
      is not a tab, CR or LF is not a space. */
  lemma NormalizeIdempotentIff(v: bytes)
    ensures Normalize(Normalize(v)) == Normalize(v) <==> FirstKept(SkipBlanks(v)) != " "
    ensures NoEol(Normalize(v))
  {
    var n := Normalize(v);
    ScanValueIdempotent(SkipBlanks(v), false);
    FirstKeptIs(SkipBlanks(v));
    if n != [] && n[0] == ' ' {
      assert |SkipBlanks(n)| <= |n[1..]|;
      ScanValueShrinks(SkipBlanks(n), false);
    }
  }

  lemma {:induction false} ScanValueShrinks(s: bytes, skip: bool)
    ensures |ScanValue(s, skip)| <= |s|
  {
    if s == [] {
    } else {
      ScanValueShrinks(s[1..], false);
      ScanValueShrinks(s[1..], true);
    }
  }

  /** On the lines the parser really meets, which hold no CR and no LF, one pass is enough. */
  lemma NormalizeIdempotent(v: bytes)
    requires NoEol(v)
    ensures Normalize(Normalize(v)) == Normalize(v)
  {
    NormalizeIdempotentIff(v);
    SkipBlanksNoEol(v);
    FirstKeptIs(SkipBlanks(v));
  }

  lemma {:induction false} SkipBlanksNoEol(v: bytes)
    requires NoEol(v)
    ensures NoEol(SkipBlanks(v))
  {
    if v == [] || !IsBlank(v[0]) {
    } else {
      SkipBlanksNoEol(v[1..]);
    }
  }

  /** Without the CR/LF restriction it is not: the first pass can uncover a leading space. */
  lemma NormalizeNotIdempotent()
    ensures Normalize(Normalize("\r a")) != Normalize("\r a")
  {
    var v: bytes := "\r a";
    assert v[1..] == " a";
    assert SkipBlanks(v) == v;
    assert FirstKept(v) == " ";
    NormalizeIdempotentIff(v);
  }

  /** A printed header line is read back as it was exactly when the key is canonical and free of
      colons and the value is in normal form. */
  lemma HeaderLineRoundTrip(key: bytes, value: bytes)
    ensures ParseHeader(key + ": " + value) == HeaderLine(key, value) <==>
            (':' !in key && CanonicalKey(key) == key && Normalize(value) == value)
  {
    var line := key + ": " + value;
    IndexOfByte(key, ':');
    if ':' in key {
      var c := IndexOf(key, ":");
      assert line == key + (": " + value);
      IndexOfStable(key, ": " + value, ":");
      assert |TrimSpace(line[..c])| <= c by { TrimShrinks(line[..c]); }
    } else {
      assert line[|key|..|key| + 1] == ":";
      forall i | 0 <= i < |key| ensures !MatchAt(line, ":", i) {
        assert line == key + (": " + value);
        MatchAtPrefix(key, ": " + value, ":", i);
      }
      IndexOfIs(line, ":", |key|);
      assert line[..|key|] == key;
      assert line[|key| + 1..] == " " + value;
      assert (" " + value)[1..] == value;
    }
  }

  lemma {:induction false} TrimShrinks(s: bytes)
    ensures |TrimLeft(s)| <= |s| && |TrimSpace(s)| <= |s|
  {
    if s == [] || !IsSpace(s[0]) {
    } else {
      TrimShrinks(s[1..]);
    }
  }

  // ---------------------------------------------------------------- searching and Content-Length

  method IndexBytes(haystack: bytes, needle: bytes) returns (r: int)
    ensures r == IndexOf(haystack, needle)
    ensures -1 <= r && r + |needle| <= |haystack| + |needle|
  {
    if |needle| == 0 {
      return 0;
    }
    var i := 0;
    while i + |needle| <= |haystack|
      invariant 0 <= i <= |haystack| + 1
      invariant forall k | 0 <= k < i :: !MatchAt(haystack, needle, k)
    {
      var hit := true;
      var j := 0;
      while j < |needle|
        invariant 0 <= j <= |needle|
        invariant hit
        invariant haystack[i..i + j] == needle[..j]
      {
        if haystack[i + j] != needle[j] {
          hit := false;
          break;
        }
        j := j + 1;
      }
      if hit {
        IndexOfIs(haystack, needle, i);
        return i;
      }
      assert haystack[i..i + |needle|][j] != needle[j];
      i := i + 1;
    }
    return -1;
  }

  const NEEDLE: bytes := "content-length:"

  /** What the text after the needle denotes: the first line of it, trimmed, as a number. */
  function LengthAfter(rest: bytes): int {
    var end := IndexOf(rest, "\r\n");
    Atoi(TrimSpace(if end < 0 then rest else rest[..end])).n
  }

  /** The scanner looks at the first occurrence of the needle anywhere in the block. */
  function ContentLength(block: bytes): (n: int)
    ensures -TWO_TO_THE_63 <= n <= MAX_INT64
  {
    var i := IndexOf(Lower(block), NEEDLE);
    if i < 0 then 0 else LengthAfter(block[i + |NEEDLE|..])
  }

  /** The inner loop: does the needle occur at `i`, ignoring ASCII case? */
  method NeedleAt(headerPart: bytes, i: nat) returns (hit: bool)
    requires i + |NEEDLE| <= |headerPart|
    ensures hit == MatchAt(Lower(headerPart), NEEDLE, i)
  {
    var needle := NEEDLE;
    ghost var low := Lower(headerPart);
    for j := 0 to |needle|
      invariant forall k | 0 <= k < j :: low[i + k] == needle[k]
    {
      var c1 := headerPart[i + j];
      if 'A' <= c1 <= 'Z' {
        c1 := ((c1 as int) + 32) as char;
      }
      if c1 != needle[j] {
        Mismatch(low, needle, i, j);
        return false;
      }
    }
    assert low[i..i + |needle|] == needle;
    return true;
  }

  lemma NoHit(hay: bytes, i: nat)
    requires i + |NEEDLE| > |hay| && forall k | 0 <= k < i :: !MatchAt(hay, NEEDLE, k)
    ensures IndexOf(hay, NEEDLE) < 0
  {
  }

  method SharedParseContentLength(headerPart: bytes) returns (n: int)
    ensures n == ContentLength(headerPart)
  {
    hide IndexOf, MatchAt, Atoi, TrimSpace, Lower;
    var i := 0;
    while i + |NEEDLE| <= |headerPart|
      invariant 0 <= i <= |headerPart| + 1
      invariant forall k | 0 <= k < i :: !MatchAt(Lower(headerPart), NEEDLE, k)
    {
      var hit := NeedleAt(headerPart, i);
      if hit {
        IndexOfIs(Lower(headerPart), NEEDLE, i);
        var rest := headerPart[i + |NEEDLE|..];
        var lineEnd := IndexBytes(rest, "\r\n");
        if lineEnd < 0 {
          lineEnd := |rest|;
        }
        assert rest[..|rest|] == rest;
        return Atoi(TrimSpace(rest[..lineEnd])).n;
      }
      i := i + 1;
    }
    NoHit(Lower(headerPart), i);
    return 0;
  }
}
