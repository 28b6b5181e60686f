/** The websocket URL value: tokenising, parsing, port arithmetic and endpoints. */
module Urls {
  import opened Seqs
  import opened Wrappers

  const SEPARATOR := '/'
  const PREFIX := "ws:"
  const STANDARD_PORT := "80"
  const INT_MAX := 0x7FFF_FFFF

  /** `address` is the text of the address literal it was made from. */
  datatype Endpoint = Endpoint(address: string, port: nat)

  datatype Url = Url(host: string, port: string, path: string, endpoints: seq<Endpoint>)

  const BLANK := Url("", "", "", [])

  datatype ErrorCode = FAIL | SUCCESS

  /** A constructor or setter either finishes or leaves with an exception. */
  datatype Outcome<T> = Done(value: T) | Threw

  /** Which texts the address library accepts: as IPv4, and as any address. */
  datatype Literals = Literals(v4: string -> bool, any: string -> bool)

  // ---------- ports

  predicate IsDigit(c: char) {
    '0' <= c <= '9'
  }

  predicate IsNumber(s: string) {
    |s| > 0 && forall i :: 0 <= i < |s| ==> IsDigit(s[i])
  }

  function Value(s: string): nat
    requires forall i :: 0 <= i < |s| ==> IsDigit(s[i])
  {
    if |s| == 0 then 0
    else
      assert IsDigit(s[|s| - 1]);
      10 * Value(s[..|s| - 1]) + (s[|s| - 1] as int - '0' as int)
  }

  /** std::stoi on a digit string; None is the out_of_range exception. */
  function Stoi(s: string): Option<nat>
    requires IsNumber(s)
  {
    if Value(s) <= INT_MAX then Some(Value(s)) else None
  }

  function HasPort(port: string): Option<bool> {
    if !IsNumber(port) then Some(false)
    else match Stoi(port)
      case None => None
      case Some(v) => Some(v <= 65535)
  }

  function Port(port: string): Option<string> {
    match HasPort(port)
    case None => None
    case Some(has) => Some(if has then port else STANDARD_PORT)
  }

  /** Narrowing to a signed, then to an unsigned 16-bit integer. */
  function ToShort(v: int): int {
    var r := v % 0x1_0000;
    if r >= 0x8000 then r - 0x1_0000 else r
  }

  function ToUnsigned16(v: int): nat {
    v % 0x1_0000
  }

  function PortInt(port: string, orStandard: bool): Option<int> {
    match HasPort(port)
    case None => None
    case Some(true) => Some(ToShort(Value(port)))
    case Some(false) => Some(if orStandard then 80 else 0)
  }

  function EndpointsFor(lits: Literals, host: string, port: int): Option<seq<Endpoint>> {
    if lits.any(host) then Some([Endpoint(host, ToUnsigned16(port))]) else None
  }

  /** What every setter recomputes; an exception leaves the endpoints as they were. */
  function Rederive(lits: Literals, u: Url): (Url, Outcome<()>) {
    match PortInt(u.port, true)
    case None => (u, Threw)
    case Some(p) =>
      match EndpointsFor(lits, u.host, p)
      case None => (u, Threw)
      case Some(es) => (u.(endpoints := es), Done(()))
  }

  predicate Valid(u: Url) {
    |u.host| > 0 && (|u.port| == 0 || IsNumber(u.port))
  }

  predicate IsResolved(u: Url) {
    |u.endpoints| > 0
  }

  /** What session::connect asserts of its URL. */
  predicate Connectable(u: Url) {
    Valid(u) && IsResolved(u)
  }

  // ---------- tokens

  function SegmentLength(s: string): (n: nat)
    ensures n <= |s|
    ensures forall i :: 0 <= i < n ==> s[i] != SEPARATOR
    ensures n < |s| ==> s[n] == SEPARATOR
  {
    if |s| == 0 || s[0] == SEPARATOR then 0 else 1 + SegmentLength(s[1..])
  }

  /** The non-empty pieces between separators. */
  function Tokens(s: string): seq<string>
    decreases |s|
  {
    if |s| == 0 then []
    else if s[0] == SEPARATOR then Tokens(s[1..])
    else [s[..SegmentLength(s)]] + Tokens(s[SegmentLength(s)..])
  }

  function Find(s: string, c: char): (n: nat)
    ensures n <= |s|
    ensures c !in s[..n]
    ensures n < |s| ==> s[n] == c
  {
    if |s| == 0 || s[0] == c then 0 else 1 + Find(s[1..], c)
  }

  function Join(tokens: seq<string>): string {
    if |tokens| == 0 then "" else [SEPARATOR] + tokens[0] + Join(tokens[1..])
  }

  // ---------- parsing

  /** Host and port of a host token; the port is absent without a colon. */
  function HostOf(token: string): string {
    token[..Find(token, ':')]
  }

  function PortOf(token: string): Option<string> {
    var n := Find(token, ':');
    if n < |token| then Some(token[n + 1..]) else None
  }

  function PathOf(tokens: seq<string>): string {
    if |tokens| > 0 then Join(tokens) else [SEPARATOR]
  }

  function AfterPrefix(tokens: seq<string>): seq<string>
    requires |tokens| > 0
  {
    if tokens[0] == PREFIX then tokens[1..] else tokens
  }

  /** The last step of the constructor: an IP host gets its endpoint at once. */
  function Complete(lits: Literals, u: Url): (Url, Outcome<ErrorCode>) {
    if lits.v4(u.host) then
      var (v, r) := Rederive(lits, u);
      (v, if r.Threw? then Threw else Done(SUCCESS))
    else (u, Done(SUCCESS))
  }

  function ParseTokens(lits: Literals, tokens: seq<string>): (Url, Outcome<ErrorCode>) {
    if |tokens| == 0 then (BLANK, Done(FAIL))
    else
      var host := HostOf(tokens[0]);
      match PortOf(tokens[0])
      case None => Complete(lits, Url(host, "", PathOf(tokens[1..]), []))
      case Some(port) =>
        if IsNumber(port) then Complete(lits, Url(host, port, PathOf(tokens[1..]), []))
        else (Url(host, port, "", []), Done(FAIL))
  }

  /** A text without a token makes the constructor read past its tokens. */
  function Parse(lits: Literals, s: string): (Url, Outcome<ErrorCode>)
    requires |Tokens(s)| > 0
  {
    ParseTokens(lits, AfterPrefix(Tokens(s)))
  }

  // ---------- token lemmas

  lemma SplitBefore(a: string, b: string, n: nat)
    requires n <= |a|
    ensures (a + [SEPARATOR] + b)[..n] == a[..n]
    ensures (a + [SEPARATOR] + b)[n..] == a[n..] + [SEPARATOR] + b
  {
  }

  lemma SameSegment(a: string, b: string)
    ensures SegmentLength(a + [SEPARATOR] + b) == SegmentLength(a)
  {
    SegmentLengthUnique(a + [SEPARATOR] + b, SegmentLength(a));
  }

  lemma {:induction false} TokensOfConcat(a: string, b: string)
    ensures Tokens(a + [SEPARATOR] + b) == Tokens(a) + Tokens(b)
    decreases |a|
  {
    var s := a + [SEPARATOR] + b;
    if |a| == 0 {
      assert s[0] == SEPARATOR && s[1..] == b;
    } else if a[0] == SEPARATOR {
      SplitBefore(a, b, 1);
      TokensOfConcat(a[1..], b);
    } else {
      var n := SegmentLength(a);
      SameSegment(a, b);
      SplitBefore(a, b, n);
      TokensOfConcat(a[n..], b);
      assert s[0] == a[0] && Tokens(s) == [a[..n]] + Tokens(s[n..]);
      ConcatAssociates([a[..n]], Tokens(a[n..]), Tokens(b));
    }
  }

  lemma {:induction false} SegmentLengthUnique(s: string, n: nat)
    requires n <= |s| && (forall i :: 0 <= i < n ==> s[i] != SEPARATOR)
    requires n < |s| ==> s[n] == SEPARATOR
    ensures SegmentLength(s) == n
  {
  }

  predicate IsToken(t: string) {
    |t| > 0 && SEPARATOR !in t
  }

  lemma TokensOfToken(t: string)
    requires IsToken(t)
    ensures Tokens(t) == [t]
  {
    SegmentLengthUnique(t, |t|);
    assert t[..|t|] == t;
  }

  lemma {:induction false} TokensAreTokens(s: string)
    ensures forall i :: 0 <= i < |Tokens(s)| ==> IsToken(Tokens(s)[i])
    decreases |s|
  {
    if |s| > 0 {
      if s[0] == SEPARATOR {
        TokensAreTokens(s[1..]);
      } else {
        TokensAreTokens(s[SegmentLength(s)..]);
      }
    }
  }

  lemma {:induction false} TokensOfJoin(ts: seq<string>)
    requires forall i :: 0 <= i < |ts| ==> IsToken(ts[i])
    ensures Tokens(Join(ts)) == ts
    decreases |ts|, 0
  {
    if |ts| > 0 {
      assert Join(ts)[1..] == ts[0] + Join(ts[1..]);
      TokensOfJoined(ts[0], ts[1..]);
    }
  }

  lemma JoinAfter(t: string, ts: seq<string>)
    requires |ts| > 0
    ensures t + Join(ts) == t + [SEPARATOR] + (ts[0] + Join(ts[1..]))
  {
    ConcatAssociates([SEPARATOR], ts[0], Join(ts[1..]));
    ConcatAssociates(t, [SEPARATOR], ts[0] + Join(ts[1..]));
  }

  lemma {:induction false} TokensOfJoined(t: string, ts: seq<string>)
    requires IsToken(t) && forall i :: 0 <= i < |ts| ==> IsToken(ts[i])
    ensures Tokens(t + Join(ts)) == [t] + ts
    decreases |ts|, 1
  {
    TokensOfToken(t);
    if |ts| == 0 {
      assert t + Join(ts) == t;
    } else {
      var tail := ts[0] + Join(ts[1..]);
      TokensOfJoined(ts[0], ts[1..]);
      assert Tokens(tail) == ts;
      TokensOfConcat(t, tail);
      JoinAfter(t, ts);
    }
  }

  // ---------- separators never matter

  lemma RepeatedSeparatorsDoNotMatter(lits: Literals, a: string, b: string)
    ensures Tokens(a + "//" + b) == Tokens(a + "/" + b)
    ensures Tokens(a + "/") == Tokens(a)
    ensures |Tokens(a)| > 0 ==> Parse(lits, a + "/") == Parse(lits, a)
    ensures |Tokens(a + "/" + b)| > 0 ==> Parse(lits, a + "//" + b) == Parse(lits, a + "/" + b)
  {
    assert a + "//" + b == a + [SEPARATOR] + ([SEPARATOR] + b);
    TokensOfConcat(a, [SEPARATOR] + b);
    assert ([SEPARATOR] + b)[1..] == b;
    TokensOfConcat(a, b);
    assert a + "/" == a + [SEPARATOR] + "";
    TokensOfConcat(a, "");
  }

  // ---------- normal form

  function HostToken(host: string, port: Option<string>): string {
    host + match port case None => "" case Some(p) => ":" + p
  }

  /** The text a URL is written back as, with an optional port. */
  function Write(host: string, port: Option<string>, path: string): string {
    PREFIX + "//" + HostToken(host, port) + path
  }

  lemma FindUnique(s: string, c: char, n: nat)
    requires n <= |s| && c !in s[..n] && (n < |s| ==> s[n] == c)
    ensures Find(s, c) == n
  {
  }

  lemma HostTokenParses(host: string, port: Option<string>)
    requires ':' !in host
    ensures HostOf(HostToken(host, port)) == host
    ensures PortOf(HostToken(host, port)) == port
  {
    var t := HostToken(host, port);
    assert t[..|host|] == host;
    FindUnique(t, ':', |host|);
    if port.Some? {
      assert t[|host| + 1..] == port.value;
    }
  }

  lemma TokensAfterHost(t: string, ts: seq<string>)
    requires forall i :: 0 <= i < |ts| ==> IsToken(ts[i])
    requires SEPARATOR !in t
    ensures Tokens(t + PathOf(ts)) == (if |t| > 0 then [t] else []) + ts
  {
    if |ts| == 0 {
      assert t + [SEPARATOR] == t + [SEPARATOR] + "";
      TokensOfConcat(t, "");
      if |t| > 0 {
        TokensOfToken(t);
      }
    } else if |t| == 0 {
      assert t + Join(ts) == Join(ts);
      TokensOfJoin(ts);
    } else {
      TokensOfJoined(t, ts);
    }
  }

  /** Writing back and tokenising gives the prefix, the host token and the path. */
  lemma TokensOfWritten(host: string, port: Option<string>, ts: seq<string>)
    requires forall i :: 0 <= i < |ts| ==> IsToken(ts[i])
    requires SEPARATOR !in HostToken(host, port)
    ensures var t := HostToken(host, port);
            Tokens(Write(host, port, PathOf(ts))) == [PREFIX] + ((if |t| > 0 then [t] else []) + ts)
  {
    var rest := HostToken(host, port) + PathOf(ts);
    TokensAfterHost(HostToken(host, port), ts);
    TokensAfterPrefix(rest);
    WriteIsPrefixed(host, port, PathOf(ts));
  }

  lemma WriteIsPrefixed(host: string, port: Option<string>, path: string)
    ensures Write(host, port, path) == PREFIX + "//" + (HostToken(host, port) + path)
  {
  }

  lemma TokensAfterPrefix(rest: string)
    ensures Tokens(PREFIX + "//" + rest) == [PREFIX] + Tokens(rest)
  {
    var tail := [SEPARATOR] + rest;
    assert PREFIX + "//" + rest == PREFIX + [SEPARATOR] + tail;
    TokensOfConcat(PREFIX, tail);
    TokensOfToken(PREFIX);
    assert tail[1..] == rest;
  }

  /** What a successful parse says about the parts it read. */
  lemma SuccessfulParts(lits: Literals, s: string, u: Url)
    requires |Tokens(s)| > 0 && Parse(lits, s) == (u, Done(SUCCESS))
    ensures '/' !in u.host && ':' !in u.host
    ensures u.port == "" || IsNumber(u.port)
    ensures u.host != "" || u.port != ""
    ensures Complete(lits, u.(endpoints := [])) == (u, Done(SUCCESS))
    ensures var ts := AfterPrefix(Tokens(s));
            |ts| > 0 && u.path == PathOf(ts[1..]) && forall i :: 0 <= i < |ts| ==> IsToken(ts[i])
  {
    TokensAreTokens(s);
    var t := AfterPrefix(Tokens(s))[0];
    assert IsToken(t);
    HostHasNoSeparator(t);
    assert u.host == HostOf(t);
  }

  lemma HostHasNoSeparator(t: string)
    requires IsToken(t)
    ensures '/' !in HostOf(t) && ':' !in HostOf(t)
    ensures PortOf(t).None? ==> HostOf(t) == t
  {
  }

  function AsOption(port: string): Option<string> {
    if port == "" then None else Some(port)
  }

  /** Parsing what was written back reads the same parts again. */
  lemma ParseWritten(lits: Literals, host: string, port: string, ts: seq<string>)
    requires forall i :: 0 <= i < |ts| ==> IsToken(ts[i])
    requires '/' !in host && ':' !in host
    requires port == "" || IsNumber(port)
    requires host != "" || port != ""
    ensures |Tokens(Write(host, AsOption(port), PathOf(ts)))| > 0
    ensures Parse(lits, Write(host, AsOption(port), PathOf(ts))) == Complete(lits, Url(host, port, PathOf(ts), []))
  {
    var t := HostToken(host, AsOption(port));
    HostTokenParses(host, AsOption(port));
    NumbersHaveNoSeparator(port);
    TokensOfWritten(host, AsOption(port), ts);
    assert ([PREFIX] + ([t] + ts))[1..] == [t] + ts;
    assert ([t] + ts)[1..] == ts;
  }

  lemma TokensOfPlain(host: string, port: Option<string>, ts: seq<string>)
    requires forall i :: 0 <= i < |ts| ==> IsToken(ts[i])
    requires SEPARATOR !in HostToken(host, port) && HostToken(host, port) != ""
    ensures Tokens(HostToken(host, port) + PathOf(ts)) == [HostToken(host, port)] + ts
  {
    TokensAfterHost(HostToken(host, port), ts);
  }

  lemma HostTokenIsNoPrefix(host: string, port: string)
    requires ':' !in host && (port == "" || IsNumber(port))
    ensures HostToken(host, AsOption(port)) != PREFIX
  {
    var t := HostToken(host, AsOption(port));
    if port != "" {
      assert t[|t| - 1] == port[|port| - 1] && IsDigit(port[|port| - 1]);
    } else {
      assert t == host;
    }
  }

  /** The prefix is optional: a text that begins with the host reads the same parts. */
  lemma ParsePlain(lits: Literals, host: string, port: string, ts: seq<string>)
    requires forall i :: 0 <= i < |ts| ==> IsToken(ts[i])
    requires '/' !in host && ':' !in host
    requires port == "" || IsNumber(port)
    requires host != "" || port != ""
    ensures |Tokens(HostToken(host, AsOption(port)) + PathOf(ts))| > 0
    ensures Parse(lits, HostToken(host, AsOption(port)) + PathOf(ts))
         == Complete(lits, Url(host, port, PathOf(ts), []))
  {
    var t := HostToken(host, AsOption(port));
    HostTokenParses(host, AsOption(port));
    NumbersHaveNoSeparator(port);
    HostTokenIsNoPrefix(host, port);
    TokensOfPlain(host, AsOption(port), ts);
    assert ([t] + ts)[1..] == ts;
  }

  /** A host token whose port is no number is refused, with or without the prefix; what was
      read so far stays in the object. */
  lemma BadPortFails(lits: Literals, host: string, port: string, ts: seq<string>)
    requires forall i :: 0 <= i < |ts| ==> IsToken(ts[i])
    requires '/' !in host && ':' !in host && '/' !in port && !IsNumber(port)
    ensures var s := Write(host, Some(port), PathOf(ts));
            |Tokens(s)| > 0 && Parse(lits, s) == (Url(host, port, "", []), Done(FAIL))
    ensures HostToken(host, Some(port)) != PREFIX ==>
              var s := HostToken(host, Some(port)) + PathOf(ts);
              |Tokens(s)| > 0 && Parse(lits, s) == (Url(host, port, "", []), Done(FAIL))
  {
    var t := HostToken(host, Some(port));
    HostTokenParses(host, Some(port));
    TokensOfWritten(host, Some(port), ts);
    TokensOfPlain(host, Some(port), ts);
    assert ([PREFIX] + ([t] + ts))[1..] == [t] + ts;
  }

  /** And so is a text that holds nothing but the prefix. */
  lemma BarePrefixFails(lits: Literals)
    ensures |Tokens("ws:")| > 0 && Parse(lits, "ws:") == (Url("", "", "", []), Done(FAIL))
  {
    TokensOfToken("ws:");
  }

  lemma NumbersHaveNoSeparator(s: string)
    requires s == "" || IsNumber(s)
    ensures SEPARATOR !in s
  {
  }

  /** Normal form: writing a parsed URL back and parsing it again gives the very same
      host, port, path and endpoints. */
  lemma NormalForm(lits: Literals, s: string, u: Url)
    requires |Tokens(s)| > 0 && Parse(lits, s) == (u, Done(SUCCESS))
    ensures var t := Write(u.host, AsOption(u.port), u.path);
            |Tokens(t)| > 0 && Parse(lits, t) == (u, Done(SUCCESS))
  {
    SuccessfulParts(lits, s, u);
    ParseWritten(lits, u.host, u.port, AfterPrefix(Tokens(s))[1..]);
  }

  /** The text a caller can build from the public accessors alone. */
  function PublicText(u: Url): string {
    Write(u.host, if HasPort(u.port) == Some(true) then Some(u.port) else None, u.path)
  }

  predicate SameToCallers(u: Url, v: Url) {
    u.host == v.host && Port(u.port) == Port(v.port) && u.path == v.path && u.endpoints == v.endpoints
  }

  lemma JoinGrows(ts: seq<string>)
    requires |ts| > 0 && IsToken(ts[0])
    ensures |PathOf(ts[1..])| < |PathOf(ts)|
  {
  }

  lemma NamelessPublicTextDiffers(lits: Literals, u: Url, ts: seq<string>)
    requires forall i :: 0 <= i < |ts| ==> IsToken(ts[i])
    requires u.host == "" && HasPort(u.port) == Some(false) && u.path == PathOf(ts)
    ensures |Tokens(PublicText(u))| > 0
    ensures !(exists v :: Parse(lits, PublicText(u)) == (v, Done(SUCCESS)) && SameToCallers(u, v))
  {
    TokensOfWritten("", None, ts);
    assert Tokens(PublicText(u)) == [PREFIX] + ts;
    assert ([PREFIX] + ts)[1..] == ts;
    if |ts| > 0 {
      JoinGrows(ts);
    }
  }

  lemma NamedPublicTextAgrees(lits: Literals, s: string, u: Url)
    requires |Tokens(s)| > 0 && Parse(lits, s) == (u, Done(SUCCESS))
    requires HasPort(u.port).Some? && (u.host != "" || HasPort(u.port) == Some(true))
    ensures |Tokens(PublicText(u))| > 0
    ensures var (v, r) := Parse(lits, PublicText(u)); r == Done(SUCCESS) && SameToCallers(u, v)
  {
    SuccessfulParts(lits, s, u);
    var port := if HasPort(u.port) == Some(true) then u.port else "";
    ParseWritten(lits, u.host, port, AfterPrefix(Tokens(s))[1..]);
    assert PortInt(port, true) == PortInt(u.port, true);
  }

  /** The public accessors suffice to write an equal URL back exactly when there is a
      host or a usable port; the port must fit an int, or the accessors throw. */
  lemma PublicNormalForm(lits: Literals, s: string, u: Url)
    requires |Tokens(s)| > 0 && Parse(lits, s) == (u, Done(SUCCESS))
    requires HasPort(u.port).Some?
    ensures |Tokens(PublicText(u))| > 0
    ensures (exists v :: Parse(lits, PublicText(u)) == (v, Done(SUCCESS)) && SameToCallers(u, v))
       <==> (u.host != "" || HasPort(u.port) == Some(true))
  {
    if u.host != "" || HasPort(u.port) == Some(true) {
      NamedPublicTextAgrees(lits, s, u);
      var v := Parse(lits, PublicText(u)).0;
      assert SameToCallers(u, v);
    } else {
      SuccessfulParts(lits, s, u);
      NamelessPublicTextDiffers(lits, u, AfterPrefix(Tokens(s))[1..]);
    }
  }

  /** A path is the tokens with one separator before each: none is doubled, and none ends
      it unless it is all there is. */
  lemma {:induction false} PathShape(ts: seq<string>)
    requires forall i :: 0 <= i < |ts| ==> IsToken(ts[i])
    ensures |PathOf(ts)| > 0 && PathOf(ts)[0] == '/'
    ensures |ts| == 0 ==> PathOf(ts) == "/"
    ensures |ts| > 0 ==> forall i :: 0 <= i < |PathOf(ts)| && PathOf(ts)[i] == '/' ==>
              i + 1 < |PathOf(ts)| && PathOf(ts)[i + 1] != '/'
    decreases |ts|
  {
    if |ts| > 0 {
      var rest := Join(ts[1..]);
      assert PathOf(ts) == [SEPARATOR] + ts[0] + rest;
      if |ts| > 1 {
        PathShape(ts[1..]);
      }
      forall i | 0 <= i < |PathOf(ts)| && PathOf(ts)[i] == '/'
        ensures i + 1 < |PathOf(ts)| && PathOf(ts)[i + 1] != '/'
      {
        var n := 1 + |ts[0]|;
        if i == 0 {
          assert PathOf(ts)[1] == ts[0][0];
        } else if i >= n {
          assert PathOf(ts)[i] == rest[i - n] && PathOf(ts[1..]) == rest;
          assert PathOf(ts)[i + 1] == rest[i - n + 1];
        }
      }
    }
  }

  /** valid() holds exactly for a URL that can be written down and read back: it has a host,
      and its port is a number if there is one. */
  lemma ValidExact(lits: Literals, u: Url, ts: seq<string>)
    requires forall i :: 0 <= i < |ts| ==> IsToken(ts[i])
    requires '/' !in u.host && ':' !in u.host && '/' !in u.port && u.path == PathOf(ts)
    ensures u.host != "" ==> |Tokens(Write(u.host, AsOption(u.port), u.path))| > 0
    ensures Valid(u) <==> u.host != "" && Parse(lits, Write(u.host, AsOption(u.port), u.path)).1 != Done(FAIL)
    ensures Valid(u) ==>
              var v := Parse(lits, Write(u.host, AsOption(u.port), u.path)).0;
              v.host == u.host && v.port == u.port && v.path == u.path
  {
    if u.host != "" {
      if u.port == "" || IsNumber(u.port) {
        ParseWritten(lits, u.host, u.port, ts);
      } else {
        BadPortFails(lits, u.host, u.port, ts);
      }
    }
  }

  // ---------- port arithmetic

  lemma DigitsAreDigits(c: char)
    ensures IsDigit(c) <==> c in "0123456789"
  {
    if IsDigit(c) {
      var k := c as int - '0' as int;
      assert "0123456789"[k] == c;
    }
  }

  /** port() throws exactly for a number above the range of an int. */
  lemma PortThrowsExact(port: string)
    ensures Port(port).None? <==> IsNumber(port) && Value(port) > 2147483647
  {
  }

  /** port_int() is a signed 16-bit number: the port, or the port less 65536; without a port
      it is 80, or 0 if the caller wants no default. */
  lemma PortIntIsShort(port: string, orStandard: bool)
    requires HasPort(port).Some?
    ensures var p := PortInt(port, orStandard);
            && p.Some? && -32768 <= p.value <= 32767
            && (if IsNumber(port) && Value(port) <= 65535
                then p.value == (if Value(port) <= 32767 then Value(port) else Value(port) - 65536)
                else p.value == (if orStandard then 80 else 0))
  {
  }

  lemma StandardPortValue()
    ensures IsNumber(STANDARD_PORT) && Value(STANDARD_PORT) == 80
  {
    assert STANDARD_PORT[..1] == "8";
    assert "8"[..0] == "";
  }

  lemma ShortAndBack(v: nat)
    requires v <= 65535
    ensures ToUnsigned16(ToShort(v)) == v
  {
    assert v % 0x1_0000 == v;
    if v >= 0x8000 {
      assert (v - 0x1_0000) % 0x1_0000 == v;
    }
  }

  /** port() denotes the stored number when it is a port and 80 otherwise, and the way
      through a signed and an unsigned 16-bit integer gives that number back. */
  lemma PortArithmetic(port: string)
    requires HasPort(port).Some?
    ensures var p := Port(port).value;
            && IsNumber(p)
            && Value(p) == (if IsNumber(port) && Value(port) <= 65535 then Value(port) else 80)
            && PortInt(port, true).Some?
            && ToUnsigned16(PortInt(port, true).value) == Value(p)
  {
    StandardPortValue();
    ShortAndBack(Value(Port(port).value));
    assert 80 % 0x1_0000 == 80;
  }

  // ---------- texts that show the limits

  lemma ValueAppend(s: string, d: char, t: string)
    requires (forall i :: 0 <= i < |s| ==> IsDigit(s[i])) && IsDigit(d) && t == s + [d]
    ensures (forall i :: 0 <= i < |t| ==> IsDigit(t[i])) && Value(t) == 10 * Value(s) + (d as int - '0' as int)
  {
    assert t[..|s|] == s;
  }

  const OVERFLOWING := "2147483648"

  /** One more than the largest int. */
  lemma OverflowingValue()
    ensures IsNumber(OVERFLOWING) && Value(OVERFLOWING) == INT_MAX + 1 && Port(OVERFLOWING).None?
  {
    ValueAppend("", '2', "2");
    ValueAppend("2", '1', "21");
    ValueAppend("21", '4', "214");
    ValueAppend("214", '7', "2147");
    ValueAppend("2147", '4', "21474");
    ValueAppend("21474", '8', "214748");
    ValueAppend("214748", '3', "2147483");
    ValueAppend("2147483", '6', "21474836");
    ValueAppend("21474836", '4', "214748364");
    ValueAppend("214748364", '8', "2147483648");
  }

  lemma OverflowingText()
    ensures Write("h", Some(OVERFLOWING), PathOf([])) == "ws://h:2147483648/"
  {
    assert HostToken("h", Some(OVERFLOWING)) == "h:2147483648";
    assert PREFIX + "//" == "ws://";
    assert PREFIX + "//" + "h:2147483648" == "ws://h:2147483648";
  }

  /** A text that parses to a valid URL whose port() throws. */
  lemma OverflowingTextParses(lits: Literals)
    requires !lits.v4("h")
    ensures |Tokens("ws://h:2147483648/")| > 0
    ensures Parse(lits, "ws://h:2147483648/") == (Url("h", OVERFLOWING, "/", []), Done(SUCCESS))
    ensures Valid(Url("h", OVERFLOWING, "/", [])) && Port(OVERFLOWING).None?
  {
    OverflowingValue();
    ParseWritten(lits, "h", OVERFLOWING, []);
    OverflowingText();
  }

  const TOO_LARGE := "70000"

  lemma TooLargeValue()
    ensures IsNumber(TOO_LARGE) && HasPort(TOO_LARGE) == Some(false)
  {
    ValueAppend("", '7', "7");
    ValueAppend("7", '0', "70");
    ValueAppend("70", '0', "700");
    ValueAppend("700", '0', "7000");
    ValueAppend("7000", '0', "70000");
  }

  lemma TooLargeText()
    ensures Write("", Some(TOO_LARGE), PathOf([])) == "ws://:70000/"
  {
    assert HostToken("", Some(TOO_LARGE)) == ":70000";
    assert PREFIX + "//" == "ws://";
    assert PREFIX + "//" + ":70000" == "ws://:70000";
  }

  /** A text that parses and that the public accessors cannot write back. */
  lemma NamelessTextIsLost(lits: Literals)
    requires !lits.v4("")
    ensures |Tokens("ws://:70000/")| > 0
    ensures var u := Url("", TOO_LARGE, "/", []);
            && Parse(lits, "ws://:70000/") == (u, Done(SUCCESS))
            && HasPort(u.port).Some? && |Tokens(PublicText(u))| > 0
            && !(exists v :: Parse(lits, PublicText(u)) == (v, Done(SUCCESS)) && SameToCallers(u, v))
  {
    TooLargeValue();
    ParseWritten(lits, "", TOO_LARGE, []);
    TooLargeText();
    PublicNormalForm(lits, "ws://:70000/", Url("", TOO_LARGE, "/", []));
  }

  /** A setter throws exactly if port() does or the host is no address, and then the
      endpoints stay as they were. */
  lemma SetterThrowsExact(lits: Literals, u: Url)
    ensures Rederive(lits, u).1.Threw? <==> Port(u.port).None? || !lits.any(u.host)
    ensures Rederive(lits, u).1.Threw? ==> Rederive(lits, u).0 == u
  {
  }

  /** The constructor throws exactly for an IPv4 host whose port overflows, or that the
      library takes for no address; any other written URL parses. */
  lemma ParseThrowsExact(lits: Literals, host: string, port: string, ts: seq<string>)
    requires forall i :: 0 <= i < |ts| ==> IsToken(ts[i])
    requires '/' !in host && ':' !in host
    requires port == "" || IsNumber(port)
    requires host != "" || port != ""
    ensures |Tokens(Write(host, AsOption(port), PathOf(ts)))| > 0
    ensures var r := Parse(lits, Write(host, AsOption(port), PathOf(ts))).1;
            && (r == Threw <==> lits.v4(host) && (Port(port).None? || !lits.any(host)))
            && (r != Threw ==> r == Done(SUCCESS))
  {
    ParseWritten(lits, host, port, ts);
    SetterThrowsExact(lits, Url(host, port, PathOf(ts), []));
  }

  /** The constructor gives a URL whose host is an IPv4 address the one endpoint of that host
      and port, and any other URL none. */
  lemma ParsedEndpoints(lits: Literals, s: string, u: Url)
    requires |Tokens(s)| > 0 && Parse(lits, s) == (u, Done(SUCCESS))
    ensures lits.v4(u.host) ==>
              && lits.any(u.host) && Port(u.port).Some? && IsNumber(Port(u.port).value)
              && u.endpoints == [Endpoint(u.host, Value(Port(u.port).value))]
    ensures !lits.v4(u.host) ==> u.endpoints == []
  {
    SuccessfulParts(lits, s, u);
    if lits.v4(u.host) {
      EndpointAgrees(lits, u.(endpoints := []));
      SetterThrowsExact(lits, u.(endpoints := []));
    }
  }

  /** After any setter that did not throw, the one endpoint agrees with host and port. */
  lemma EndpointAgrees(lits: Literals, u: Url)
    requires Rederive(lits, u).1.Done?
    ensures Port(u.port).Some? && IsNumber(Port(u.port).value)
    ensures Rederive(lits, u).0 == u.(endpoints := [Endpoint(u.host, Value(Port(u.port).value))])
  {
    PortArithmetic(u.port);
  }
}

/** The class of the URL header. */
module NetUrls {
  import opened Seqs
  import opened Wrappers
  import opened Urls

  class NetUrl {
    const lits: Literals
    var hostname: string
    var port: string
    var path: string
    var endpointSeq: seq<Endpoint>

    ghost function View(): Url
      reads this
    {
      Url(hostname, port, path, endpointSeq)
    }

    constructor (lits: Literals)
      ensures View() == BLANK && this.lits == lits
    {
      this.lits := lits;
      hostname, port, path, endpointSeq := "", "", "", [];
    }

    /** The body of the string constructor, run on a blank object. */
    method ParseString(url: string) returns (r: Outcome<ErrorCode>)
      requires View() == BLANK && |Tokens(url)| > 0
      modifies this
      ensures r == Parse(lits, url).1
      ensures r.Done? ==> View() == Parse(lits, url).0
    {
      var tok := Tokens(url);
      var tokenIt := if tok[0] == PREFIX then 1 else 0;
      ghost var left := AfterPrefix(tok);
      assert tok[tokenIt..] == left;
      if tokenIt == |tok| {
        return Done(FAIL);
      }
      var ok := ReadHostAndPort(tok[tokenIt]);
      if !ok {
        return Done(FAIL);
      }
      assert tok[tokenIt + 1..] == left[1..];
      if tokenIt + 1 != |tok| {
        ReadPath(tok, tokenIt + 1);
      } else {
        path := [SEPARATOR];
      }
      ghost var u := View();
      assert u == Url(HostOf(left[0]), u.port, PathOf(left[1..]), []);
      if lits.v4(hostname) {
        var derived := RederiveEndpoints();
        if !derived {
          return Threw;
        }
      }
      return Done(SUCCESS);
    }

    /** The first legit token may be a host:port combination. */
    method ReadHostAndPort(token: string) returns (ok: bool)
      requires View() == BLANK
      modifies this`hostname, this`port
      ensures hostname == HostOf(token)
      ensures port == match PortOf(token) case None => "" case Some(p) => p
      ensures ok <==> (PortOf(token).Some? ==> IsNumber(port))
    {
      var portPos := Find(token, ':');
      if portPos != |token| {
        hostname := token[..portPos];
        port := token[portPos + 1..];
        ok := CheckNumber(port);
      } else {
        hostname := token;
        ok := true;
      }
    }

    /** Collects the remaining tokens, then appends each with its separator. */
    method ReadPath(tok: seq<string>, start: nat)
      requires start < |tok| && path == ""
      modifies this`path
      ensures path == Join(tok[start..])
    {
      var address: seq<string> := [];
      var tokenIt := start;
      while tokenIt != |tok|
        invariant start <= tokenIt <= |tok|
        invariant address == tok[start..tokenIt]
        decreases |tok| - tokenIt
      {
        address := address + [tok[tokenIt]];
        tokenIt := tokenIt + 1;
      }
      assert address == tok[start..] && address[0..] == address;
      var k := 0;
      while k < |address|
        invariant 0 <= k <= |address|
        invariant path + Join(address[k..]) == Join(address)
      {
        assert address[k..][1..] == address[k + 1..];
        ConcatAssociates([SEPARATOR], address[k], Join(address[k + 1..]));
        ConcatAssociates(path, [SEPARATOR], address[k] + Join(address[k + 1..]));
        ConcatAssociates(path + [SEPARATOR], address[k], Join(address[k + 1..]));
        path := path + [SEPARATOR] + address[k];
        k := k + 1;
      }
    }

    /** endpoint_seq_from_string(host(), port_int()); false stands for an exception. */
    method RederiveEndpoints() returns (ok: bool)
      modifies this`endpointSeq
      ensures View() == Rederive(lits, old(View())).0
      ensures ok <==> Rederive(lits, old(View())).1.Done?
    {
      var p := GetPortInt(true);
      if p.None? {
        return false;
      }
      if !lits.any(hostname) {
        return false;
      }
      endpointSeq := [Endpoint(hostname, ToUnsigned16(p.value))];
      return true;
    }

    method SetHost(host: string) returns (ok: bool)
      modifies this
      ensures View() == Rederive(lits, old(View()).(host := host)).0
      ensures ok <==> Rederive(lits, old(View()).(host := host)).1.Done?
    {
      hostname := host;
      ok := RederiveEndpoints();
    }

    /** A text that is not a number is refused and changes nothing. */
    method SetPort(newPort: string) returns (r: Outcome<bool>)
      modifies this
      ensures !IsNumber(newPort) ==> r == Done(false) && View() == old(View())
      ensures IsNumber(newPort) ==>
                && View() == Rederive(lits, old(View()).(port := newPort)).0
                && r == (if Rederive(lits, old(View()).(port := newPort)).1.Done? then Done(true) else Threw)
    {
      var number := CheckNumber(newPort);
      if number {
        port := newPort;
        var ok := RederiveEndpoints();
        return if ok then Done(true) else Threw;
      } else {
        return Done(false);
      }
    }

    method SetResolverResults(results: seq<Endpoint>)
      modifies this
      ensures View() == old(View()).(endpoints := results)
    {
      endpointSeq := [];
      var i := 0;
      while i < |results|
        invariant 0 <= i <= |results|
        invariant endpointSeq == results[..i]
        invariant hostname == old(hostname) && port == old(port) && path == old(path)
      {
        endpointSeq := endpointSeq + [results[i]];
        i := i + 1;
      }
    }

    method Clear()
      modifies this
      ensures View() == Url("", "", "", [])
    {
      port := "";
      hostname := "";
      path := "";
      endpointSeq := [];
    }

    /** The search for a character that is not a digit. */
    method CheckNumber(s: string) returns (r: bool)
      ensures r <==> IsNumber(s)
    {
      var i := 0;
      while i < |s| && IsDigit(s[i])
        invariant 0 <= i <= |s|
        invariant forall j :: 0 <= j < i ==> IsDigit(s[j])
      {
        i := i + 1;
      }
      r := |s| > 0 && i == |s|;
    }

    method GetHasPort() returns (r: Option<bool>)
      ensures r == HasPort(port)
    {
      var number := CheckNumber(port);
      if number {
        var v := Stoi(port);
        return if v.None? then None else Some(|port| > 0 && v.value <= 65535);
      } else {
        return Some(false);
      }
    }

    method GetPort() returns (r: Option<string>)
      ensures r == Port(port)
    {
      var has := GetHasPort();
      if has.None? {
        return None;
      }
      if has.value {
        return Some(port);
      } else {
        return Some(STANDARD_PORT);
      }
    }

    method GetPortInt(orStandard: bool) returns (r: Option<int>)
      ensures r == PortInt(port, orStandard)
    {
      var has := GetHasPort();
      if has.None? {
        return None;
      }
      if has.value {
        var p := GetPort();
        return Some(ToShort(Value(p.value)));
      } else if orStandard {
        StandardPortValue();
        return Some(ToShort(Value(STANDARD_PORT)));
      } else {
        return Some(0);
      }
    }
  }
}
