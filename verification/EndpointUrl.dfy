// src/transport/endpoint_config.cpp: trimming, the console's URL and the Host
// header it is printed as.
module EndpointUrl {
  import opened ByteText

  const DEFAULT_PORT := 80
  const DEFAULT_PATH := "/plugin"

  datatype Endpoint = Endpoint(
    host: string, port: nat, path: string,
    authToken: string, clientId: string, simbriefId: string, capabilities: seq<string>)

  const DEFAULT := Endpoint("atc.zoal.app", DEFAULT_PORT, DEFAULT_PATH, "", "", "", [])

  datatype Fault =
    | EmptyUrl | NeedsTls | UnsupportedScheme | NoHost
    | UnterminatedLiteral | TextAfterLiteral
    | EmptyPort | PortNotNumber | PortOutOfRange | PortZero
    | UnsafeToken | UnsafeId
  datatype Result<+T> = Success(value: T) | Failure(fault: Fault)

  // ---------------------------------------------------------------- trimming

  function TrimFront(s: string): string {
    if s != "" && IsSpace(s[0]) then TrimFront(s[1..]) else s
  }

  function TrimBack(s: string): string {
    if s != "" && IsSpace(s[|s| - 1]) then TrimBack(s[..|s| - 1]) else s
  }

  function Trim(s: string): string {
    TrimBack(TrimFront(s))
  }

  predicate Trimmed(s: string) {
    s == "" || (!IsSpace(s[0]) && !IsSpace(s[|s| - 1]))
  }

  method TrimText(text: string) returns (r: string)
    ensures r == Trim(text)
  {
    r := text;
    while r != "" && IsSpace(r[0])
      invariant TrimFront(r) == TrimFront(text)
      decreases |r|
    {
      r := r[1..];
    }
    while r != "" && IsSpace(r[|r| - 1])
      invariant TrimBack(r) == Trim(text)
      decreases |r|
    {
      r := r[..|r| - 1];
    }
  }

  predicate AllSpace(s: string) {
    forall i :: 0 <= i < |s| ==> IsSpace(s[i])
  }

  lemma {:induction false} TrimFrontIs(before: string, s: string)
    requires AllSpace(before) && (s == "" || !IsSpace(s[0]))
    ensures TrimFront(before + s) == s
  {
    if before == "" {
      assert before + s == s;
    } else {
      assert (before + s)[1..] == before[1..] + s;
      TrimFrontIs(before[1..], s);
    }
  }

  lemma {:induction false} TrimBackIs(s: string, after: string)
    requires AllSpace(after) && (s == "" || !IsSpace(s[|s| - 1]))
    ensures TrimBack(s + after) == s
  {
    if after == "" {
      assert s + after == s;
    } else {
      assert (s + after)[..|s + after| - 1] == s + after[..|after| - 1];
      TrimBackIs(s, after[..|after| - 1]);
    }
  }

  /** Trimming finds the one text that has no space at its ends. */
  lemma TrimIs(before: string, s: string, after: string)
    requires AllSpace(before) && AllSpace(after) && Trimmed(s)
    ensures Trim(before + s + after) == s
  {
    if s == "" {
      assert AllSpace(before + after);
      TrimFrontIs(before + after, "");
      assert before + s + after == before + after + "";
    } else {
      assert before + s + after == before + (s + after);
      TrimFrontIs(before, s + after);
      TrimBackIs(s, after);
    }
  }

  lemma {:induction false} TrimFrontParts(s: string) returns (before: string)
    ensures AllSpace(before) && s == before + TrimFront(s) && (TrimFront(s) == "" || !IsSpace(TrimFront(s)[0]))
  {
    before := "";
    if s != "" && IsSpace(s[0]) {
      var more := TrimFrontParts(s[1..]);
      before := [s[0]] + more;
    }
  }

  lemma {:induction false} TrimBackParts(s: string) returns (after: string)
    ensures AllSpace(after) && s == TrimBack(s) + after
    ensures TrimBack(s) == "" || !IsSpace(TrimBack(s)[|TrimBack(s)| - 1])
  {
    after := "";
    if s != "" && IsSpace(s[|s| - 1]) {
      var more := TrimBackParts(s[..|s| - 1]);
      after := more + [s[|s| - 1]];
    }
  }

  lemma TrimParts(s: string) returns (before: string, after: string)
    ensures AllSpace(before) && AllSpace(after) && Trimmed(Trim(s)) && s == before + Trim(s) + after
  {
    before := TrimFrontParts(s);
    after := TrimBackParts(TrimFront(s));
    if Trim(s) != "" {
      assert TrimFront(s)[0] == Trim(s)[0];
    }
  }

  // ----------------------------------------------------------------- the port

  function DigitsOf(text: string): (k: nat)
    ensures k <= |text| && AllDigits(text[..k]) && (k < |text| ==> !IsDigit(text[k]))
  {
    if text != "" && IsDigit(text[0]) then 1 + DigitsOf(text[1..]) else 0
  }

  /** The leading digits decide first; a port past 65535 is refused before a later stray character is seen. */
  function PortOf(text: string): Result<nat> {
    var k := DigitsOf(text);
    if text == "" then Failure(EmptyPort)
    else if NumberOf(text[..k]) > 65535 then Failure(PortOutOfRange)
    else if k < |text| then Failure(PortNotNumber)
    else if NumberOf(text[..k]) == 0 then Failure(PortZero)
    else Success(NumberOf(text[..k]))
  }

  lemma {:induction false} DigitsOfIs(text: string, k: nat)
    requires k <= |text| && AllDigits(text[..k]) && (k < |text| ==> !IsDigit(text[k]))
    ensures DigitsOf(text) == k
  {
    if k > 0 {
      assert text[0] == text[..k][0];
      assert text[1..][..k - 1] == text[..k][1..];
      DigitsOfIs(text[1..], k - 1);
    }
  }

  method ParsePort(text: string) returns (port: Result<nat>)
    ensures port == PortOf(text)
  {
    if text == "" {
      return Failure(EmptyPort);
    }
    var value := 0;
    ghost var k := DigitsOf(text);
    for i := 0 to |text|
      invariant i <= k && AllDigits(text[..i]) && value == NumberOf(text[..i]) <= 65535
    {
      if !IsDigit(text[i]) {
        DigitsOfIs(text, i);
        return Failure(PortNotNumber);
      }
      assert i < k;
      assert text[..i + 1][..i] == text[..i];
      value := value * 10 + DigitValue(text[i]);
      if value > 65535 {
        assert text[..k][..i + 1] == text[..i + 1];
        PrefixDenotesNoMore(text[..k], i + 1);
        return Failure(PortOutOfRange);
      }
    }
    return if value == 0 then Failure(PortZero) else Success(value);
  }

  // ------------------------------------------------------------------ the URL

  function LastColon(s: string): (r: Option<nat>)
    ensures r.Some? ==> r.value < |s| && s[r.value] == ':' && ':' !in s[r.value + 1..]
    ensures r.None? ==> ':' !in s
  {
    if s == "" then None
    else if s[|s| - 1] == ':' then Some(|s| - 1)
    else LastColon(s[..|s| - 1])
  }

  datatype Authority = Authority(host: string, port: string)

  /** The bracket form keeps an IPv6 literal's colons out of the search for the port. */
  function SplitAuthority(authority: string): Result<Authority> {
    if authority != "" && authority[0] == '[' then
      var close := Find(authority, ']', 0);
      if close == |authority| then Failure(UnterminatedLiteral)
      else
        var host, rest := authority[1..close], authority[close + 1..];
        if rest == "" then Success(Authority(host, ""))
        else if rest[0] != ':' then Failure(TextAfterLiteral)
        else Success(Authority(host, rest[1..]))
    else
      match LastColon(authority)
      case None => Success(Authority(authority, ""))
      case Some(colon) => Success(Authority(authority[..colon], authority[colon + 1..]))
  }

  function SchemeEnd(s: string): (r: Option<nat>)
    ensures r.Some? ==> r.value + 3 <= |s| && s[r.value..r.value + 3] == "://"
  {
    if |s| < 3 then None
    else if s[..3] == "://" then Some(0)
    else match SchemeEnd(s[1..])
         case None => None
         case Some(at) => Some(at + 1)
  }

  function AfterScheme(trimmed: string): Result<string> {
    match SchemeEnd(trimmed)
    case None => Success(trimmed)
    case Some(end) =>
      var scheme := Lower(trimmed[..end]);
      if scheme == "wss" || scheme == "https" then Failure(NeedsTls)
      else if scheme != "ws" then Failure(UnsupportedScheme)
      else Success(trimmed[end + 3..])
  }

  datatype Location = Location(authority: string, path: string)

  function Locate(rest: string): Result<Location>
    requires rest != ""
  {
    var from := if rest[0] == '[' then Find(rest, ']', 0) else 0;
    if from == |rest| then Failure(UnterminatedLiteral)
    else
      var slash := Find(rest, '/', from);
      Success(Location(rest[..slash], if slash == |rest| then DEFAULT_PATH else rest[slash..]))
  }

  function EndpointAt(authority: Authority, path: string): Result<Endpoint> {
    if authority.host == "" then Failure(NoHost)
    else if authority.port == "" then Success(DEFAULT.(host := authority.host, path := path))
    else match PortOf(authority.port)
         case Failure(fault) => Failure(fault)
         case Success(port) => Success(DEFAULT.(host := authority.host, port := port, path := path))
  }

  function Reach(rest: string): Result<Endpoint> {
    if rest == "" then Failure(NoHost)
    else match Locate(rest)
         case Failure(fault) => Failure(fault)
         case Success(location) =>
           match SplitAuthority(location.authority)
           case Failure(fault) => Failure(fault)
           case Success(authority) => EndpointAt(authority, location.path)
  }

  function ParseWebSocketUrl(url: string): Result<Endpoint> {
    if Trim(url) == "" then Failure(EmptyUrl)
    else match AfterScheme(Trim(url))
         case Failure(fault) => Failure(fault)
         case Success(rest) => Reach(rest)
  }

  function HostHeader(e: Endpoint): string {
    var host := if ':' in e.host then "[" + e.host + "]" else e.host;
    if e.port == DEFAULT_PORT then host else host + ":" + Decimal(e.port)
  }

  // --------------------------------------------------------------- round trip

  predicate Addressable(e: Endpoint) {
    && e.host != "" && '/' !in e.host && '[' !in e.host && ']' !in e.host
    && 1 <= e.port <= 65535
    && e.path != "" && e.path[0] == '/' && !IsSpace(e.path[|e.path| - 1])
  }

  function Url(e: Endpoint): string {
    "ws://" + HostHeader(e) + e.path
  }

  lemma DecimalPort(port: nat)
    requires 1 <= port <= 65535
    ensures PortOf(Decimal(port)) == Success(port)
  {
    var text := Decimal(port);
    DecimalDenotes(port);
    DigitsOfIs(text, |text|);
    assert text[..|text|] == text;
  }

  lemma {:induction false} LastColonIs(s: string, after: string)
    requires ':' !in after
    ensures LastColon(s + ":" + after) == Some(|s|)
  {
    var whole := s + ":" + after;
    if after != "" {
      assert whole[|whole| - 1] == after[|after| - 1];
      assert whole[..|whole| - 1] == s + ":" + after[..|after| - 1];
      LastColonIs(s, after[..|after| - 1]);
    }
  }

  function PortPart(e: Endpoint): string {
    if e.port == DEFAULT_PORT then "" else ":" + Decimal(e.port)
  }

  lemma HeaderSplits(e: Endpoint)
    requires Addressable(e)
    ensures SplitAuthority(HostHeader(e))
            == Success(Authority(e.host, if e.port == DEFAULT_PORT then "" else Decimal(e.port)))
  {
    if ':' in e.host {
      BracketedSplits(e);
    } else {
      BareSplits(e);
    }
  }

  lemma BracketedSplits(e: Endpoint)
    requires Addressable(e) && ':' in e.host
    ensures SplitAuthority(HostHeader(e))
            == Success(Authority(e.host, if e.port == DEFAULT_PORT then "" else Decimal(e.port)))
  {
    var port := PortPart(e);
    assert HostHeader(e) == "[" + e.host + "]" + port;
    SplitBracketed(e.host, port);
    assert port != "" ==> port[1..] == Decimal(e.port);
  }

  lemma SplitBracketed(host: string, port: string)
    requires ']' !in host && (port == "" || port[0] == ':')
    ensures SplitAuthority("[" + host + "]" + port) == Success(Authority(host, if port == "" then "" else port[1..]))
  {
    BracketCloses(host, port);
  }

  lemma BracketCloses(host: string, port: string)
    requires ']' !in host
    ensures var header := "[" + host + "]" + port;
            && header[0] == '[' && Find(header, ']', 0) == |host| + 1 < |header|
            && header[1..|host| + 1] == host && header[|host| + 2..] == port
  {
    var header := "[" + host + "]" + port;
    assert forall i :: 1 <= i < |host| + 1 ==> header[i] == host[i - 1];
    FindIs(header, ']', 0, |host| + 1);
  }

  lemma BareSplits(e: Endpoint)
    requires Addressable(e) && ':' !in e.host
    ensures SplitAuthority(HostHeader(e))
            == Success(Authority(e.host, if e.port == DEFAULT_PORT then "" else Decimal(e.port)))
  {
    if e.port != DEFAULT_PORT {
      BareWithPort(e.host, Decimal(e.port));
    }
  }

  lemma BareWithPort(host: string, port: string)
    requires host != "" && host[0] != '[' && ':' !in port
    ensures SplitAuthority(host + ":" + port) == Success(Authority(host, port))
  {
    var header := host + ":" + port;
    LastColonIs(host, port);
    assert header[0] == host[0] && header[..|host|] == host && header[|host| + 1..] == port;
  }

  lemma HeaderHasNoSlash(e: Endpoint)
    requires Addressable(e)
    ensures '/' !in HostHeader(e) && HostHeader(e) != ""
    ensures HostHeader(e)[0] == '[' <==> ':' in e.host
    ensures ':' in e.host ==> Find(HostHeader(e), ']', 0) < |HostHeader(e)|
  {
    var header := HostHeader(e);
    if ':' in e.host {
      assert header == "[" + e.host + "]" + PortPart(e);
      assert header[|e.host| + 1] == ']';
    } else {
      assert header == e.host + PortPart(e);
      assert header[0] == e.host[0];
    }
  }

  lemma {:induction false} FindInPrefix(s: string, after: string, c: char, from: nat)
    requires from <= |s| && Find(s, c, from) < |s|
    ensures Find(s + after, c, from) == Find(s, c, from)
  {
    FindIs(s + after, c, from, Find(s, c, from));
  }

  lemma RestIsLocated(e: Endpoint)
    requires Addressable(e)
    ensures HostHeader(e) + e.path != ""
    ensures Locate(HostHeader(e) + e.path) == Success(Location(HostHeader(e), e.path))
  {
    var header := HostHeader(e);
    var rest := header + e.path;
    HeaderHasNoSlash(e);
    var from := if rest[0] == '[' then Find(rest, ']', 0) else 0;
    if ':' in e.host {
      FindInPrefix(header, e.path, ']', 0);
    }
    assert from < |header|;
    assert rest[|header|] == e.path[0];
    assert forall i :: from <= i < |header| ==> rest[i] == header[i];
    FindIs(rest, '/', from, |header|);
    assert rest[..|header|] == header && rest[|header|..] == e.path;
  }

  lemma WsIsStripped(rest: string)
    ensures AfterScheme("ws://" + rest) == Success(rest)
  {
    var url := "ws://" + rest;
    assert url[..3] == "ws:" && url[1..][..3] == "s:/" && url[2..][..3] == "://";
    assert url[1..][1..] == url[2..];
    assert SchemeEnd(url[2..]) == Some(0);
    assert SchemeEnd(url[1..]) == Some(1);
    assert SchemeEnd(url) == Some(2);
    assert url[..2] == "ws" && Lower("ws") == "ws";
    assert url[5..] == rest;
  }

  /** Printing an endpoint as a URL and parsing it gives its host, port and path back. */
  lemma UrlReadsBack(e: Endpoint)
    requires Addressable(e)
    ensures ParseWebSocketUrl(Url(e)) == Success(DEFAULT.(host := e.host, port := e.port, path := e.path))
  {
    UrlIsTrimmed(e);
    SchemeThenRest(HostHeader(e), e.path);
    WsIsStripped(HostHeader(e) + e.path);
    RestIsReached(e);
    TrimmedIsReached(Url(e), HostHeader(e) + e.path);
  }

  lemma SchemeThenRest(header: string, path: string)
    ensures "ws://" + header + path == "ws://" + (header + path)
  {}

  lemma TrimmedIsReached(url: string, rest: string)
    requires url != "" && Trim(url) == url && AfterScheme(url) == Success(rest)
    ensures ParseWebSocketUrl(url) == Reach(rest)
  {}

  lemma UrlIsTrimmed(e: Endpoint)
    requires Addressable(e)
    ensures Url(e) != "" && Trim(Url(e)) == Url(e)
  {
    var url := Url(e);
    assert url[0] == 'w' && url[|url| - 1] == e.path[|e.path| - 1];
    TrimIs("", url, "");
    assert "" + url + "" == url;
  }

  lemma RestIsReached(e: Endpoint)
    requires Addressable(e)
    ensures Reach(HostHeader(e) + e.path) == Success(DEFAULT.(host := e.host, port := e.port, path := e.path))
  {
    RestIsLocated(e);
    HeaderSplits(e);
    if e.port != DEFAULT_PORT {
      DecimalPort(e.port);
    }
  }
}
