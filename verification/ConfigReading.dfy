// What a config text means, line by line: each setting's last live line decides
// it; and when the order of the lines matters.
module ConfigReading {
  import opened ByteText
  import opened EndpointUrl
  import opened EndpointConfig

  predicate Sets(raw: string, g: Group) {
    SettingOf(raw).Some? && SettingOf(raw).value.group == g
  }

  predicate Valid(raw: string) {
    SettingOf(raw).Some? ==> FaultOf(SettingOf(raw).value.group, SettingOf(raw).value.value).None?
  }

  predicate AllValid(lines: seq<string>) {
    forall i :: 0 <= i < |lines| ==> Valid(lines[i])
  }

  function SettingsOf(lines: seq<string>): (s: seq<Option<Setting>>)
    ensures |s| == |lines| && forall i :: 0 <= i < |s| ==> s[i] == SettingOf(lines[i])
  {
    seq(|lines|, i requires 0 <= i < |lines| => SettingOf(lines[i]))
  }

  predicate IsFor(s: Option<Setting>, g: Group) {
    s.Some? && s.value.group == g
  }

  function LastIn(settings: seq<Option<Setting>>, g: Group): Option<string> {
    var last := |settings| - 1;
    if settings == [] then None
    else if IsFor(settings[last], g) then Some(settings[last].value.value)
    else LastIn(settings[..last], g)
  }

  /** The value of the last line that sets g. */
  function Last(lines: seq<string>, g: Group): Option<string> {
    LastIn(SettingsOf(lines), g)
  }

  function Or(value: Option<string>, otherwise: string): string {
    if value.Some? then value.value else otherwise
  }

  datatype Choice = Choice(url: Option<string>, token: Option<string>, client: Option<string>, simbrief: Option<string>)

  function ChoiceOf(lines: seq<string>): Choice {
    Choice(Last(lines, Url), Last(lines, Token), Last(lines, Client), Last(lines, Simbrief))
  }

  predicate Sound(c: Choice) {
    && (c.url.Some? ==> FaultOf(Url, c.url.value).None?)
    && (c.token.Some? ==> FaultOf(Token, c.token.value).None?)
    && (c.client.Some? ==> FaultOf(Client, c.client.value).None?)
    && (c.simbrief.Some? ==> FaultOf(Simbrief, c.simbrief.value).None?)
  }

  /** The endpoint each of whose settings is the one chosen, or the base's. */
  function Assembled(base: Endpoint, c: Choice): Endpoint
    requires Sound(c)
  {
    var at := if c.url.Some? then ParseWebSocketUrl(c.url.value).value else base;
    at.(authToken := Or(c.token, base.authToken),
        clientId := Or(c.client, base.clientId),
        simbriefId := Or(c.simbrief, base.simbriefId))
  }

  function Choose(c: Choice, g: Group, value: string): Choice {
    match g
    case Url => c.(url := Some(value))
    case Token => c.(token := Some(value))
    case Client => c.(client := Some(value))
    case Simbrief => c.(simbrief := Some(value))
  }

  lemma ChoosingPuts(base: Endpoint, c: Choice, g: Group, value: string)
    requires Sound(c) && FaultOf(g, value).None?
    ensures Sound(Choose(c, g, value))
    ensures Assembled(base, Choose(c, g, value)) == Put(Assembled(base, c), g, value)
  {}

  lemma LastInMore(settings: seq<Option<Setting>>, s: Option<Setting>, g: Group)
    ensures LastIn(settings + [s], g) == if IsFor(s, g) then Some(s.value.value) else LastIn(settings, g)
  {
    assert (settings + [s])[..|settings|] == settings;
  }

  lemma LastMore(lines: seq<string>, raw: string, g: Group)
    ensures Last(lines + [raw], g)
            == if IsFor(SettingOf(raw), g) then Some(SettingOf(raw).value.value) else Last(lines, g)
  {
    assert SettingsOf(lines + [raw]) == SettingsOf(lines) + [SettingOf(raw)];
    LastInMore(SettingsOf(lines), SettingOf(raw), g);
  }

  lemma ChoiceOfMore(lines: seq<string>, raw: string)
    ensures ChoiceOf(lines + [raw])
            == if SettingOf(raw).None? then ChoiceOf(lines)
               else Choose(ChoiceOf(lines), SettingOf(raw).value.group, SettingOf(raw).value.value)
  {
    LastMore(lines, raw, Url);
    LastMore(lines, raw, Token);
    LastMore(lines, raw, Client);
    LastMore(lines, raw, Simbrief);
  }

  lemma {:induction false} ReadMore(lines: seq<string>, raw: string, e: Endpoint, read: Reader)
    ensures ReadLines(lines + [raw], e, read)
            == if ReadLines(lines, e, read).Failure? then ReadLines(lines, e, read)
               else read(ReadLines(lines, e, read).value, raw)
  {
    if lines == [] {
      ReadFirst(raw, [], e, read);
      assert [] + [raw] == [raw] + [];
    } else {
      assert lines + [raw] == [lines[0]] + (lines[1..] + [raw]);
      ReadFirst(lines[0], lines[1..] + [raw], e, read);
      if read(e, lines[0]).Success? {
        ReadMore(lines[1..], raw, read(e, lines[0]).value, read);
      }
    }
  }

  /** A config is refused exactly when one of its lines is bad by itself; else the last line of each setting decides. */
  lemma {:induction false} ReadingMeans(lines: seq<string>, base: Endpoint)
    ensures ApplyLines(lines, base).Success? <==> AllValid(lines)
    ensures AllValid(lines) ==>
              Sound(ChoiceOf(lines)) && ApplyLines(lines, base) == Success(Assembled(base, ChoiceOf(lines)))
  {
    if lines != [] {
      var front, raw := lines[..|lines| - 1], lines[|lines| - 1];
      assert lines == front + [raw];
      ReadingMeans(front, base);
      ReadMore(front, raw, base, ApplyLine);
      ChoiceOfMore(front, raw);
      assert AllValid(lines) <==> AllValid(front) && Valid(raw);
      if AllValid(lines) && SettingOf(raw).Some? {
        ChoosingPuts(base, ChoiceOf(front), SettingOf(raw).value.group, SettingOf(raw).value.value);
      }
    }
  }

  // -------------------------------------------------------- the order of lines

  function ValueIn(raw: string): string {
    if SettingOf(raw).Some? then SettingOf(raw).value.value else ""
  }

  lemma {:induction false} LastIsThere(settings: seq<Option<Setting>>, g: Group) returns (i: nat)
    ensures LastIn(settings, g).Some? ==>
              i < |settings| && IsFor(settings[i], g) && settings[i].value.value == LastIn(settings, g).value
    ensures LastIn(settings, g).None? ==> forall k :: 0 <= k < |settings| ==> !IsFor(settings[k], g)
  {
    i := if settings == [] then 0 else |settings| - 1;
    if settings != [] && !IsFor(settings[i], g) {
      i := LastIsThere(settings[..|settings| - 1], g);
    }
  }

  lemma LastIsALine(lines: seq<string>, g: Group) returns (i: nat)
    ensures Last(lines, g).Some? ==> i < |lines| && Sets(lines[i], g) && ValueIn(lines[i]) == Last(lines, g).value
    ensures Last(lines, g).None? ==> forall k :: 0 <= k < |lines| ==> !Sets(lines[k], g)
  {
    i := LastIsThere(SettingsOf(lines), g);
    forall k | 0 <= k < |lines|
      ensures Sets(lines[k], g) == IsFor(SettingsOf(lines)[k], g)
    {}
  }

  lemma SameMembers(some: seq<string>, others: seq<string>)
    requires multiset(some) == multiset(others)
    ensures forall raw :: raw in some <==> raw in others
  {
    forall raw
      ensures raw in some <==> raw in others
    {
      assert raw in some <==> raw in multiset(some);
      assert raw in others <==> raw in multiset(others);
    }
  }

  lemma SameValidity(some: seq<string>, others: seq<string>)
    requires forall raw :: raw in some <==> raw in others
    ensures AllValid(some) <==> AllValid(others)
  {
    assert AllValid(some) <==> forall raw :: raw in some ==> Valid(raw);
    assert AllValid(others) <==> forall raw :: raw in others ==> Valid(raw);
  }

  function Chosen(c: Choice, g: Group): Option<string> {
    match g
    case Url => c.url
    case Token => c.token
    case Client => c.client
    case Simbrief => c.simbrief
  }

  /** Two values that put the same into an endpoint. */
  predicate SameEffect(base: Endpoint, g: Group, a: string, b: string) {
    FaultOf(g, a).None? && FaultOf(g, b).None? && Put(base, g, a) == Put(base, g, b)
  }

  /** All live lines of a setting put the same. */
  predicate Agree(lines: seq<string>, base: Endpoint) {
    forall a, b, g :: a in lines && b in lines && Sets(a, g) && Sets(b, g) ==>
      SameEffect(base, g, ValueIn(a), ValueIn(b))
  }

  predicate Alike(r: Result<Endpoint>, s: Result<Endpoint>) {
    (r.Failure? && s.Failure?) || (r.Success? && r == s)
  }

  predicate ReadsAlike(some: seq<string>, others: seq<string>, base: Endpoint) {
    Alike(ReadConfig(Joined(some), base), ReadConfig(Joined(others), base))
  }

  lemma JoinedReads(lines: seq<string>, base: Endpoint) returns (r: Result<Endpoint>)
    requires lines != [] && OneLiners(lines)
    ensures r == ReadConfig(Joined(lines), base) && (r.Success? <==> AllValid(lines))
    ensures r.Success? ==> Sound(ChoiceOf(lines)) && r.value == Assembled(base, ChoiceOf(lines))
  {
    JoinedIsCut("", lines);
    assert "" + Joined(lines) == Joined(lines);
    ReadingMeans(lines, base);
    r := ReadConfig(Joined(lines), base);
  }

  predicate ChoicesAgree(c: Choice, k: Choice, base: Endpoint, g: Group) {
    && (Chosen(c, g).None? <==> Chosen(k, g).None?)
    && (Chosen(c, g).Some? && Chosen(k, g).Some? ==> SameEffect(base, g, Chosen(c, g).value, Chosen(k, g).value))
  }

  lemma AgreeingChoicesAssemble(c: Choice, k: Choice, base: Endpoint)
    requires Sound(c) && Sound(k) && forall g :: ChoicesAgree(c, k, base, g)
    ensures Assembled(base, c) == Assembled(base, k)
  {
    assert ChoicesAgree(c, k, base, Url) && ChoicesAgree(c, k, base, Token);
    assert ChoicesAgree(c, k, base, Client) && ChoicesAgree(c, k, base, Simbrief);
  }

  lemma EffectShows(c: Choice, k: Choice, base: Endpoint, g: Group)
    requires Sound(c) && Sound(k) && Assembled(base, c) == Assembled(base, k)
    requires Chosen(c, g).Some? && Chosen(k, g).Some?
    ensures SameEffect(base, g, Chosen(c, g).value, Chosen(k, g).value)
  {
    var e := Assembled(base, c);
    match g
    case Url =>
      assert Put(base, g, c.url.value)
          == e.(authToken := base.authToken, clientId := base.clientId, simbriefId := base.simbriefId)
          == Put(base, g, k.url.value);
    case _ =>
  }

  lemma ChosenIsLast(lines: seq<string>, g: Group)
    ensures Chosen(ChoiceOf(lines), g) == Last(lines, g)
  {}

  lemma LastsAgree(some: seq<string>, others: seq<string>, base: Endpoint, g: Group)
    requires Agree(some, base) && forall raw :: raw in some <==> raw in others
    ensures ChoicesAgree(ChoiceOf(some), ChoiceOf(others), base, g)
  {
    ChosenIsLast(some, g);
    ChosenIsLast(others, g);
    var i := LastIsALine(some, g);
    var j := LastIsALine(others, g);
    assert Last(some, g).Some? ==> some[i] in others;
    assert Last(others, g).Some? ==> others[j] in some;
  }

  lemma SameEndpoint(some: seq<string>, others: seq<string>, base: Endpoint)
    requires Agree(some, base) && forall raw :: raw in some <==> raw in others
    requires Sound(ChoiceOf(some)) && Sound(ChoiceOf(others))
    ensures Assembled(base, ChoiceOf(some)) == Assembled(base, ChoiceOf(others))
  {
    forall g
      ensures ChoicesAgree(ChoiceOf(some), ChoiceOf(others), base, g)
    {
      LastsAgree(some, others, base, g);
    }
    AgreeingChoicesAssemble(ChoiceOf(some), ChoiceOf(others), base);
  }

  /** Lines that agree are read alike in any order. */
  lemma AgreeingLinesReadAlike(some: seq<string>, others: seq<string>, base: Endpoint)
    requires multiset(some) == multiset(others) && (!AllValid(some) || Agree(some, base))
    requires some != [] && OneLiners(some)
    ensures ReadsAlike(some, others, base)
  {
    SameMembers(some, others);
    assert some[0] in others;
    OthersAreOneLiners(some, others);
    var r := JoinedReads(some, base);
    var s := JoinedReads(others, base);
    SameValidity(some, others);
    if AllValid(some) {
      SameEndpoint(some, others, base);
    }
  }

  lemma OthersAreOneLiners(some: seq<string>, others: seq<string>)
    requires OneLiners(some) && forall raw :: raw in some <==> raw in others
    ensures OneLiners(others)
  {
    forall i | 0 <= i < |others|
      ensures '\n' !in others[i]
    {
      assert others[i] in some;
    }
  }

  /** The same lines, with line i at the end. */
  function PutLast(lines: seq<string>, i: nat): seq<string>
    requires i < |lines|
  {
    lines[..i] + lines[i + 1..] + [lines[i]]
  }

  lemma PutLastReorders(lines: seq<string>, i: nat)
    requires i < |lines|
    ensures multiset(PutLast(lines, i)) == multiset(lines)
  {
    assert lines == lines[..i] + [lines[i]] + lines[i + 1..];
  }

  lemma PutLastDecides(lines: seq<string>, i: nat, g: Group)
    requires i < |lines| && Sets(lines[i], g)
    ensures Chosen(ChoiceOf(PutLast(lines, i)), g) == Some(ValueIn(lines[i]))
  {
    LastMore(lines[..i] + lines[i + 1..], lines[i], g);
  }

  lemma AlikeMeansAgreeing(lines: seq<string>, base: Endpoint, a: string, b: string, g: Group)
    requires lines != [] && OneLiners(lines) && AllValid(lines)
    requires forall others :: multiset(others) == multiset(lines) ==> ReadsAlike(lines, others, base)
    requires a in lines && b in lines && Sets(a, g) && Sets(b, g)
    ensures SameEffect(base, g, ValueIn(a), ValueIn(b))
  {
    var k := PutLastIn(lines, a, g);
    var l := PutLastIn(lines, b, g);
    ReadAs(lines, k, base);
    ReadAs(lines, l, base);
    EffectShows(ChoiceOf(k), ChoiceOf(l), base, g);
  }

  /** The same lines with one that sets g at the end, which decides g then. */
  lemma PutLastIn(lines: seq<string>, raw: string, g: Group) returns (others: seq<string>)
    requires raw in lines && Sets(raw, g)
    ensures multiset(others) == multiset(lines) && Chosen(ChoiceOf(others), g) == Some(ValueIn(raw))
  {
    var i :| 0 <= i < |lines| && lines[i] == raw;
    PutLastReorders(lines, i);
    PutLastDecides(lines, i, g);
    others := PutLast(lines, i);
  }

  lemma ReadAs(lines: seq<string>, others: seq<string>, base: Endpoint)
    requires lines != [] && OneLiners(lines) && AllValid(lines)
    requires multiset(others) == multiset(lines) && ReadsAlike(lines, others, base)
    ensures Sound(ChoiceOf(others)) && ReadConfig(Joined(lines), base) == Success(Assembled(base, ChoiceOf(others)))
  {
    SameMembers(lines, others);
    assert lines[0] in others;
    OthersAreOneLiners(lines, others);
    SameValidity(lines, others);
    var r := JoinedReads(lines, base);
    var s := JoinedReads(others, base);
  }

  /** The order of the lines does not matter exactly when one of them is bad by
      itself, or all live lines of each setting put the same. */
  lemma WhenOrderDoesNotMatter(lines: seq<string>, base: Endpoint)
    requires lines != [] && OneLiners(lines)
    ensures (forall others :: multiset(others) == multiset(lines) ==> ReadsAlike(lines, others, base))
            <==> !AllValid(lines) || Agree(lines, base)
  {
    if !AllValid(lines) || Agree(lines, base) {
      forall others | multiset(others) == multiset(lines)
        ensures ReadsAlike(lines, others, base)
      {
        AgreeingLinesReadAlike(lines, others, base);
      }
    }
    if AllValid(lines) && forall others :: multiset(others) == multiset(lines) ==> ReadsAlike(lines, others, base) {
      forall a, b, g | a in lines && b in lines && Sets(a, g) && Sets(b, g)
        ensures SameEffect(base, g, ValueIn(a), ValueIn(b))
      {
        AlikeMeansAgreeing(lines, base, a, b, g);
      }
    }
  }

  predicate AtMostOneEach(lines: seq<string>) {
    forall i, j, g :: 0 <= i < j < |lines| && Sets(lines[i], g) ==> !Sets(lines[j], g)
  }

  lemma OneEachAgrees(lines: seq<string>, base: Endpoint)
    requires AtMostOneEach(lines) && AllValid(lines)
    ensures Agree(lines, base)
  {
    forall a, b, g | a in lines && b in lines && Sets(a, g) && Sets(b, g)
      ensures SameEffect(base, g, ValueIn(a), ValueIn(b))
    {
      var i :| 0 <= i < |lines| && lines[i] == a;
      var j :| 0 <= j < |lines| && lines[j] == b;
      assert i == j;
    }
  }

  /** With at most one live line for each setting, two texts with the same lines
      are both refused, or read as the same endpoint. */
  lemma OrderOfLinesDoesNotMatter(some: seq<string>, others: seq<string>, base: Endpoint)
    requires multiset(some) == multiset(others) && AtMostOneEach(some)
    requires some != [] && OneLiners(some) && OneLiners(others)
    ensures var r, s := ReadConfig(Joined(some), base), ReadConfig(Joined(others), base);
            (r.Failure? && s.Failure?) || (r.Success? && r == s)
  {
    if AllValid(some) {
      OneEachAgrees(some, base);
    }
    AgreeingLinesReadAlike(some, others, base);
  }

  // --------------------------------------------------------- texts and lines

  predicate OneLiners(lines: seq<string>) {
    forall i :: 0 <= i < |lines| ==> '\n' !in lines[i]
  }

  function Joined(lines: seq<string>): string {
    if lines == [] then "" else if |lines| == 1 then lines[0] else lines[0] + "\n" + Joined(lines[1..])
  }

  lemma {:induction false} JoinedIsCut(before: string, lines: seq<string>)
    requires lines != [] && OneLiners(lines)
    ensures RawLines(before + Joined(lines), |before|) == lines
    decreases |lines|
  {
    if |lines| == 1 {
      LastLineIsCut(before, lines[0]);
    } else {
      JoinedIsCut(before + lines[0] + "\n", lines[1..]);
      LineIsCut(before, lines[0], Joined(lines[1..]));
      JoinedParts(before, lines);
    }
  }

  lemma JoinedParts(before: string, lines: seq<string>)
    requires |lines| > 1
    ensures before + Joined(lines) == before + lines[0] + "\n" + Joined(lines[1..])
    ensures lines == [lines[0]] + lines[1..]
  {
    Regrouped(before, lines[0], "\n", Joined(lines[1..]));
  }

  lemma Regrouped(a: string, b: string, c: string, d: string)
    ensures a + (b + c + d) == a + b + c + d
  {}

  lemma LastLineIsCut(before: string, line: string)
    requires '\n' !in line
    ensures RawLines(before + line, |before|) == [line]
  {
    var text := before + line;
    NoMoreNewlines(before, line);
    assert text[|before|..|text|] == line;
  }

  lemma NoMoreNewlines(before: string, line: string)
    requires '\n' !in line
    ensures Find(before + line, '\n', |before|) == |before + line|
  {
    assert forall i :: |before| <= i < |before + line| ==> (before + line)[i] == line[i - |before|];
  }

  lemma LineIsCut(before: string, line: string, rest: string)
    requires '\n' !in line
    ensures var next := before + line + "\n";
            RawLines(next + rest, |before|) == [line] + RawLines(next + rest, |next|)
  {
    var text, at := before + line + "\n" + rest, |before| + |line|;
    assert text[|before|..at] == line;
    assert forall i :: |before| <= i < at ==> text[i] == line[i - |before|];
    FindIs(text, '\n', |before|, at);
  }

  /** Of two lines for one setting the later wins, whatever the setting. */
  lemma LaterLineWins(a: string, b: string, g: Group, base: Endpoint)
    requires Sets(a, g) && Sets(b, g) && Valid(a) && Valid(b)
    ensures ApplyLines([a, b], base) == Success(Put(base, g, ValueIn(b)))
  {
    ReadFirst(a, [b], base, ApplyLine);
    ReadFirst(b, [], Put(base, g, ValueIn(a)), ApplyLine);
    assert [a, b] == [a] + [b] && [b] == [b] + [];
  }
}
