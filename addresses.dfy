/** The strings the benchmark client builds before any peer exists: the STUN server
    URL, the signaling WebSocket URL, the decision on the remote id typed by the
    user, and the random local id. Each builder has a parser beside it, and a
    round-trip lemma shows that the built string carries exactly its parts. */
module Addresses {
  import opened Wrappers

  const StunScheme: string := "stun:"
  const WebSocketScheme: string := "ws://"

  /** `s.substr(pos, len)` of std::string, for `pos <= |s|`: at most `len` characters. */
  function Substr(s: string, pos: nat, len: nat): string
    requires pos <= |s|
  {
    if |s| - pos < len then s[pos..] else s[pos..pos + len]
  }

  /** main.cpp's `if (s.substr(0, 5).compare(prefix) != 0) prepend prefix`: the scheme
      is added exactly when `s` does not already start with it, so the result always
      starts with it and an already-prefixed input comes back unchanged. */
  function WithPrefix(prefix: string, s: string): (r: string)
    requires |prefix| == 5
    ensures prefix <= r
    ensures prefix <= s ==> r == s
    ensures !(prefix <= s) ==> r == prefix + s
  {
    if Substr(s, 0, 5) != prefix then prefix + s else s
  }

  /** Normalising twice is normalising once: no second scheme is ever added. */
  lemma WithPrefixIdempotent(prefix: string, s: string)
    requires |prefix| == 5
    ensures WithPrefix(prefix, WithPrefix(prefix, s)) == WithPrefix(prefix, s)
  {
  }

  // ---------------------------------------------------------------------------
  // Decimal rendering of `std::to_string(int)` and its inverse

  function DigitChar(d: nat): (c: char)
    requires d < 10
    ensures '0' <= c <= '9'
  {
    ('0' as int + d) as char
  }

  function DigitValue(c: char): (d: nat)
    requires '0' <= c <= '9'
    ensures d < 10 && DigitChar(d) == c
  {
    c as int - '0' as int
  }

  /** The decimal digits of `n`, most significant first, without leading zero. */
  function NatToString(n: nat): (s: string)
    ensures |s| >= 1
    ensures forall i :: 0 <= i < |s| ==> '0' <= s[i] <= '9'
    ensures n > 0 ==> s[0] != '0'
    decreases n
  {
    if n < 10 then [DigitChar(n)] else NatToString(n / 10) + [DigitChar(n % 10)]
  }

  /** `std::to_string` of a signed integer: a minus sign, then the digits of |n|. */
  function IntToString(n: int): (s: string)
    ensures ':' !in s && '/' !in s
  {
    if n < 0 then "-" + NatToString(-n) else NatToString(n)
  }

  /** Reads a nonempty string of decimal digits; anything else is rejected. */
  function ParseDigits(s: string): Option<nat>
    decreases |s|
  {
    if s == [] || !('0' <= s[|s| - 1] <= '9') then None
    else if |s| == 1 then Some(DigitValue(s[0]))
    else match ParseDigits(s[..|s| - 1])
      case None => None
      case Some(v) => Some(10 * v + DigitValue(s[|s| - 1]))
  }

  function ParseInt(s: string): Option<int> {
    if |s| > 0 && s[0] == '-' then
      match ParseDigits(s[1..])
      case None => None
      case Some(v) => Some(0 - v as int)
    else ParseDigits(s)
  }

  lemma {:induction false} ParseNatToString(n: nat)
    ensures ParseDigits(NatToString(n)) == Some(n)
    decreases n
  {
    if n >= 10 {
      var s := NatToString(n);
      ParseNatToString(n / 10);
      assert s[..|s| - 1] == NatToString(n / 10);
    }
  }

  lemma {:induction false} NegativeRoundTrip(n: int)
    requires n < 0
    ensures ParseInt(IntToString(n)) == Some(n)
  {
    var s := IntToString(n);
    ParseNatToString(-n);
    assert s[0] == '-' && s[1..] == NatToString(-n);
    assert ParseDigits(s[1..]) == Some(-n);
  }

  /** Rendering a port number and reading it back gives the same number. */
  lemma {:induction false} IntToStringRoundTrip(n: int)
    ensures ParseInt(IntToString(n)) == Some(n)
  {
    if n < 0 {
      NegativeRoundTrip(n);
    } else {
      var s := IntToString(n);
      ParseNatToString(n);
      assert s == NatToString(n) && s[0] != '-';
    }
  }

  // ---------------------------------------------------------------------------
  // Splitting at the last occurrence of a separator

  function LastIndexOf(s: string, c: char): (r: Option<nat>)
    ensures r.Some? ==> r.value < |s| && s[r.value] == c && c !in s[r.value + 1..]
    ensures r.None? ==> c !in s
    decreases |s|
  {
    if s == [] then None
    else if s[|s| - 1] == c then Some(|s| - 1)
    else
      var r := LastIndexOf(s[..|s| - 1], c);
      assert r.Some? ==> s[r.value + 1..] == s[..|s| - 1][r.value + 1..] + [s[|s| - 1]];
      assert s == s[..|s| - 1] + [s[|s| - 1]];
      r
  }

  function SplitAtLast(s: string, c: char): Option<(string, string)> {
    match LastIndexOf(s, c)
    case None => None
    case Some(i) => Some((s[..i], s[i + 1..]))
  }

  /** A separator that does not occur in the right part splits the join back apart,
      whatever the left part contains. */
  lemma SplitAtLastJoin(a: string, c: char, b: string)
    requires c !in b
    ensures SplitAtLast(a + [c] + b, c) == Some((a, b))
  {
    var s := a + [c] + b;
    assert s[|a|] == c;
    assert s[..|a|] == a && s[|a| + 1..] == b;
  }

  // ---------------------------------------------------------------------------
  // The two URLs

  /** `host:port`, the STUN entry put into the ICE server list. */
  function StunServerUrl(server: string, port: int): (url: string)
    ensures StunScheme <= url
    ensures |IntToString(port)| < |url| && url[|url| - |IntToString(port)|..] == IntToString(port)
  {
    WithPrefix(StunScheme, server) + ":" + IntToString(port)
  }

  /** `ws://host:port/localId`, the signaling URL opened by the client. */
  function WebSocketUrl(server: string, port: int, localId: string): (url: string)
    ensures WebSocketScheme <= url
    ensures |localId| < |url| && url[|url| - |localId|..] == localId
  {
    WithPrefix(WebSocketScheme, server) + ":" + IntToString(port) + "/" + localId
  }

  datatype HostPort = HostPort(host: string, port: int)
  datatype Endpoint = Endpoint(host: string, port: int, path: string)

  function ParseHostPort(s: string): Option<HostPort> {
    match SplitAtLast(s, ':')
    case None => None
    case Some((h, p)) =>
      match ParseInt(p)
      case None => None
      case Some(n) => Some(HostPort(h, n))
  }

  function ParseWebSocketUrl(url: string): Option<Endpoint> {
    match SplitAtLast(url, '/')
    case None => None
    case Some((rest, path)) =>
      match ParseHostPort(rest)
      case None => None
      case Some(hp) => Some(Endpoint(hp.host, hp.port, path))
  }

  /** `host:port` splits back into its parts, whatever colons the host holds. */
  lemma {:induction false} HostPortRoundTrip(host: string, port: int)
    ensures ParseHostPort(host + [':'] + IntToString(port)) == Some(HostPort(host, port))
  {
    SplitAtLastJoin(host, ':', IntToString(port));
    IntToStringRoundTrip(port);
  }

  /** The STUN URL starts with exactly one `stun:` scheme and splits back into the
      normalised server and the port. */
  lemma {:induction false} StunServerUrlRoundTrip(server: string, port: int)
    ensures StunScheme <= StunServerUrl(server, port)
    ensures ParseHostPort(StunServerUrl(server, port)) == Some(HostPort(WithPrefix(StunScheme, server), port))
  {
    var host := WithPrefix(StunScheme, server);
    assert StunServerUrl(server, port) == host + [':'] + IntToString(port);
    HostPortRoundTrip(host, port);
  }

  /** The WebSocket URL starts with exactly one `ws://` scheme and splits back into
      the normalised server, the port and the local id, provided the id holds no
      slash (a generated id never does). */
  lemma {:induction false} WebSocketUrlRoundTrip(server: string, port: int, localId: string)
    requires '/' !in localId
    ensures WebSocketScheme <= WebSocketUrl(server, port, localId)
    ensures ParseWebSocketUrl(WebSocketUrl(server, port, localId))
         == Some(Endpoint(WithPrefix(WebSocketScheme, server), port, localId))
  {
    var host := WithPrefix(WebSocketScheme, server);
    var rest := host + [':'] + IntToString(port);
    assert WebSocketUrl(server, port, localId) == rest + ['/'] + localId;
    SplitAtLastJoin(rest, '/', localId);
    HostPortRoundTrip(host, port);
  }

  // ---------------------------------------------------------------------------
  // The remote id typed by the user

  datatype OfferDecision =
    | NothingToDo            // empty input: exit 0 without offering
    | OwnId                  // the local id itself: exit 0 without offering
    | OfferTo(remoteId: string)

  /** An offer is made exactly when the id is nonempty and not the local id. */
  function CheckRemoteId(id: string, localId: string): (d: OfferDecision)
    ensures d.OfferTo? <==> id != "" && id != localId
    ensures d.OfferTo? ==> d.remoteId == id
    ensures d == NothingToDo <==> id == ""
  {
    if id == "" then NothingToDo
    else if id == localId then OwnId
    else OfferTo(id)
  }

  // ---------------------------------------------------------------------------
  // The local id

  /** The alphabet of `randomId`, `"0123456789ABCDEFGHIJKLMNOPQRSTUVWXYZabcdefghijklmnopqrstuvwxyz"`,
      written as its three runs. */
  const Digits: string := "0123456789"
  const UpperCase: string := "ABCDEFGHIJKLMNOPQRSTUVWXYZ"
  const LowerCase: string := "abcdefghijklmnopqrstuvwxyz"
  const Characters: string := Digits + UpperCase + LowerCase

  lemma DigitsHaveNoSlash() ensures '/' !in Digits {}
  lemma UpperCaseHasNoSlash() ensures '/' !in UpperCase {}
  lemma LowerCaseHasNoSlash() ensures '/' !in LowerCase {}

  /** No alphabet character is the path separator of the signaling URL. */
  lemma AlphabetHasNoSlash()
    ensures |Characters| == 62 && '/' !in Characters
  {
    DigitsHaveNoSlash();
    UpperCaseHasNoSlash();
    LowerCaseHasNoSlash();
  }

  /** `randomId(length)` given the values `draws` of the uniform distribution over
      `[0, |Characters| - 1]`: one alphabet character per draw. */
  function RandomId(length: nat, draws: seq<nat>): (id: string)
    requires |draws| == length
    requires forall i :: 0 <= i < |draws| ==> draws[i] < |Characters|
    ensures |id| == length
    ensures forall i :: 0 <= i < |id| ==> id[i] in Characters && id[i] == Characters[draws[i]]
    ensures '/' !in id
  {
    AlphabetHasNoSlash();
    seq(length, i requires 0 <= i < length => Characters[draws[i]])
  }

  /** The signaling URL built from the generated local id (`localId = randomId(4)`)
      always splits back into the normalised server, the port and that id. */
  lemma {:induction false} GeneratedWebSocketUrlRoundTrip(server: string, port: int, draws: seq<nat>)
    requires |draws| == 4
    requires forall i :: 0 <= i < |draws| ==> draws[i] < |Characters|
    ensures ParseWebSocketUrl(WebSocketUrl(server, port, RandomId(4, draws)))
         == Some(Endpoint(WithPrefix(WebSocketScheme, server), port, RandomId(4, draws)))
  {
    WebSocketUrlRoundTrip(server, port, RandomId(4, draws));
  }
}
