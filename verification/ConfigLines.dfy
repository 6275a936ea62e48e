// What any one line of the config file does, and any URL in it, by the
// characters that are written there.
module ConfigLines {
  import opened ByteText
  import opened EndpointUrl
  import opened EndpointConfig

  // ------------------------------------------------------------------- a line

  lemma TrimAround(before: string, s: string, after: string)
    requires AllSpace(before) && AllSpace(after)
    ensures Trim(before + s + after) == Trim(s)
  {
    var head, tail := TrimParts(s);
    assert before + s + after == (before + head) + Trim(s) + (tail + after);
    TrimIs(before + head, Trim(s), tail + after);
  }

  predicate Parts(c: char) {
    c == '=' || c == ':'
  }

  predicate Unparted(s: string) {
    forall i :: 0 <= i < |s| ==> !Parts(s[i])
  }

  /** A line means nothing when it is blank, begins with `#` or `;`, or has neither `=`
      nor `:`; else the first of these parts the key from the value. */
  lemma EveryLineMeans(raw: string) returns (at: nat)
    ensures MeaningOf(raw).Nothing? <==>
              Trim(raw) == "" || Trim(raw)[0] == '#' || Trim(raw)[0] == ';' || Unparted(raw)
    ensures MeaningOf(raw).Assigns? ==>
              && at < |raw| && Parts(raw[at]) && Unparted(raw[..at])
              && MeaningOf(raw) == Assigns(Lower(Trim(raw[..at])), Trim(raw[at + 1..]))
  {
    var before, after := TrimParts(raw);
    var line := Trim(raw);
    at := |before| + Separator(line);
    SeparatorInside(before, line, after, raw, Separator(line));
    if Separator(line) < |line| {
      KeyAndValue(before, line, after, Separator(line));
    }
  }

  lemma SeparatorInside(before: string, line: string, after: string, raw: string, n: nat)
    requires AllSpace(before) && AllSpace(after) && raw == before + line + after && n == Separator(line)
    ensures Unparted(raw[..|before| + n])
    ensures n < |line| ==> Parts(raw[|before| + n]) && !Unparted(raw)
    ensures n == |line| ==> Unparted(raw)
  {
    SpacePartsNothing(before);
    SpacePartsNothing(after);
    Cut(before, line, after, n);
    AllUnparted(before, line[..n]);
    if n == |line| {
      AllUnparted(before + line, after);
    } else {
      PartedAt(raw, |before| + n);
    }
  }

  lemma PartedAt(s: string, at: nat)
    requires at < |s| && Parts(s[at])
    ensures !Unparted(s)
  {}

  lemma SpacePartsNothing(s: string)
    requires AllSpace(s)
    ensures Unparted(s)
  {}

  lemma AllUnparted(a: string, b: string)
    requires Unparted(a) && Unparted(b)
    ensures Unparted(a + b)
  {}

  lemma Cut(before: string, line: string, after: string, n: nat)
    requires n <= |line|
    ensures var raw := before + line + after;
            && raw[..|before| + n] == before + line[..n]
            && (n < |line| ==> raw[|before| + n] == line[n]) && (n == |line| ==> line[..n] == line)
  {}

  lemma KeyAndValue(before: string, line: string, after: string, n: nat)
    requires AllSpace(before) && AllSpace(after) && n < |line|
    ensures var raw := before + line + after;
            && Trim(raw[..|before| + n]) == Trim(line[..n])
            && Trim(raw[|before| + n + 1..]) == Trim(line[n + 1..])
  {
    var raw := before + line + after;
    assert raw[..|before| + n] == before + line[..n] + "";
    assert raw[|before| + n + 1..] == "" + line[n + 1..] + after;
    TrimAround(before, line[..n], "");
    TrimAround("", line[n + 1..], after);
  }

  predicate IsControl(c: char) {
    c < ' ' || c == 127 as char
  }

  predicate IsFenced(c: char) {
    IsControl(c) || c == '"' || c == '\\'
  }

  /** What a line that assigns does, by its key: `url` and `console_url` move the
      console, `token` and `auth_token` set the token, which holds no control
      character, `client_id` and the two of simbrief an id, which holds no quote or
      backslash either; any other key is passed over. */
  lemma EveryLineDoes(e: Endpoint, raw: string)
    requires MeaningOf(raw).Assigns?
    ensures var key, value, r := MeaningOf(raw).key, MeaningOf(raw).value, ApplyLine(e, raw);
            if key == "url" || key == "console_url" then
              var url := ParseWebSocketUrl(value);
              if url.Success? then
                r == Success(e.(host := url.value.host, port := url.value.port, path := url.value.path,
                                capabilities := []))
              else r == Failure(url.fault)
            else if key == "token" || key == "auth_token" then
              if exists c :: c in value && IsControl(c) then r == Failure(UnsafeToken)
              else r == Success(e.(authToken := value))
            else if key == "client_id" then
              if exists c :: c in value && IsFenced(c) then r == Failure(UnsafeId)
              else r == Success(e.(clientId := value))
            else if key == "simbrief_id" || key == "simbrief_pilot_id" then
              if exists c :: c in value && IsFenced(c) then r == Failure(UnsafeId)
              else r == Success(e.(simbriefId := value))
            else r == Success(e)
  {
    var key, value := MeaningOf(raw).key, MeaningOf(raw).value;
    UrlHasNoIdentity(value);
    assert TokenIsSafe(value) <==> !exists c :: c in value && IsControl(c);
    assert IdIsSafe(value) <==> !exists c :: c in value && IsFenced(c);
  }

  lemma UrlHasNoIdentity(url: string)
    ensures ParseWebSocketUrl(url).Success? ==> ParseWebSocketUrl(url).value.capabilities == []
  {}

  // -------------------------------------------------------------------- a URL

  lemma {:induction false} FirstSchemeEnd(scheme: string, rest: string)
    requires ':' !in scheme
    ensures SchemeEnd(scheme + "://" + rest) == Some(|scheme|)
  {
    var url := scheme + "://" + rest;
    if scheme == "" {
      assert url[..3] == "://";
    } else {
      assert url[0] == scheme[0] && url[..3][0] != "://"[0];
      assert url[1..] == scheme[1..] + "://" + rest;
      FirstSchemeEnd(scheme[1..], rest);
    }
  }

  /** An address behind a scheme is reached when that is `ws`, in any case; `wss` and
      `https` need what the plugin has not. */
  lemma EverySchemeIsJudged(e: Endpoint, scheme: string)
    requires Addressable(e) && ':' !in scheme && (scheme == "" || !IsSpace(scheme[0]))
    ensures ParseWebSocketUrl(scheme + "://" + HostHeader(e) + e.path)
            == if Lower(scheme) == "wss" || Lower(scheme) == "https" then Failure(NeedsTls)
               else if Lower(scheme) != "ws" then Failure(UnsupportedScheme)
               else Success(DEFAULT.(host := e.host, port := e.port, path := e.path))
  {
    HeaderHasNoSlash(e);
    PathIsLast(scheme + "://", HostHeader(e), e.path);
    SchemeIsJudged(scheme, HostHeader(e) + e.path);
    RestIsReached(e);
  }

  lemma PathIsLast(before: string, header: string, path: string)
    requires path != ""
    ensures before + header + path == before + (header + path)
    ensures (header + path)[|header + path| - 1] == path[|path| - 1]
  {}

  lemma StaysTrimmed(url: string)
    requires url != "" && !IsSpace(url[0]) && !IsSpace(url[|url| - 1])
    ensures Trim(url) == url
  {
    TrimIs("", url, "");
    assert "" + url + "" == url;
  }

  lemma SchemeIsJudged(scheme: string, rest: string)
    requires ':' !in scheme && (scheme == "" || !IsSpace(scheme[0])) && rest != "" && !IsSpace(rest[|rest| - 1])
    ensures ParseWebSocketUrl(scheme + "://" + rest)
            == if Lower(scheme) == "wss" || Lower(scheme) == "https" then Failure(NeedsTls)
               else if Lower(scheme) != "ws" then Failure(UnsupportedScheme)
               else Reach(rest)
  {
    var url := scheme + "://" + rest;
    StaysTrimmed(url);
    FirstSchemeEnd(scheme, rest);
    assert url[..|scheme|] == scheme && url[|scheme| + 3..] == rest;
  }

  /** The port is printed exactly when it is not 80, and brackets exactly around a host that has a colon. */
  lemma HeaderIsPrinted(e: Endpoint)
    ensures HostHeader(e)
            == (if ':' in e.host then "[" + e.host + "]" else e.host)
               + (if e.port == 80 then "" else ":" + Decimal(e.port))
  {}

  lemma HeaderEnds(e: Endpoint)
    requires Addressable(e) && !IsSpace(e.host[|e.host| - 1])
    ensures HostHeader(e) != "" && !IsSpace(HostHeader(e)[|HostHeader(e)| - 1])
  {
    if e.port != 80 {
      var digits := Decimal(e.port);
      assert HostHeader(e)[|HostHeader(e)| - 1] == digits[|digits| - 1];
    }
  }

  lemma HeaderIsReached(e: Endpoint)
    requires Addressable(e)
    ensures Reach(HostHeader(e)) == Success(DEFAULT.(host := e.host, port := e.port, path := "/plugin"))
  {
    HeaderHasNoSlash(e);
    HeaderSplits(e);
    NoSlashIsLocated(HostHeader(e));
    if e.port != DEFAULT_PORT {
      DecimalPort(e.port);
    }
  }

  lemma NoSlashIsLocated(rest: string)
    requires rest != "" && '/' !in rest && (rest[0] == '[' ==> Find(rest, ']', 0) < |rest|)
    ensures Locate(rest) == Success(Location(rest, "/plugin"))
  {
    var from := if rest[0] == '[' then Find(rest, ']', 0) else 0;
    assert Find(rest, '/', from) == |rest| && rest[..|rest|] == rest;
  }

  /** A URL with no path leads to `/plugin`. */
  lemma PathIsFilledIn(e: Endpoint)
    requires Addressable(e) && !IsSpace(e.host[|e.host| - 1])
    ensures ParseWebSocketUrl("ws://" + HostHeader(e))
            == Success(DEFAULT.(host := e.host, port := e.port, path := "/plugin"))
  {
    var url := "ws://" + HostHeader(e);
    HeaderEnds(e);
    assert url[0] == 'w' && url[|url| - 1] == HostHeader(e)[|HostHeader(e)| - 1];
    StaysTrimmed(url);
    WsIsStripped(HostHeader(e));
    HeaderIsReached(e);
  }
}
