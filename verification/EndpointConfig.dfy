// src/transport/endpoint_config.cpp: the reader of the plugin's config file,
// and the editor that sets one key in it and leaves the rest alone.
module EndpointConfig {
  import opened ByteText
  import opened EndpointUrl

  // ---------------------------------------------------------------- one line

  datatype Meaning = Nothing | Assigns(key: string, value: string)

  /** Where the first `=` or `:` stands, or |line| when there is none. */
  function Separator(line: string): (r: nat)
    ensures r <= |line| && (r < |line| ==> line[r] == '=' || line[r] == ':')
    ensures forall i :: 0 <= i < r ==> line[i] != '=' && line[i] != ':'
  {
    if line == "" || line[0] == '=' || line[0] == ':' then 0 else 1 + Separator(line[1..])
  }

  function AssignmentIn(line: string): Meaning {
    var at := Separator(line);
    if at == |line| then Nothing else Assigns(Lower(Trim(line[..at])), Trim(line[at + 1..]))
  }

  predicate IsComment(line: string) {
    line != "" && (line[0] == '#' || line[0] == ';')
  }

  function MeaningOf(raw: string): Meaning {
    var line := Trim(raw);
    if line == "" || IsComment(line) then Nothing else AssignmentIn(line)
  }

  predicate AssignsKey(line: string, key: string) {
    var m := AssignmentIn(line);
    m.Assigns? && m.key == key
  }

  function StripMarkers(line: string): string {
    if IsComment(line) then StripMarkers(line[1..]) else line
  }

  function Uncomment(line: string): string {
    Trim(StripMarkers(line))
  }

  // ------------------------------------------------------------- the settings

  datatype Group = Url | Token | Client | Simbrief

  function GroupOf(key: string): Option<Group> {
    if key == "url" || key == "console_url" then Some(Url)
    else if key == "token" || key == "auth_token" then Some(Token)
    else if key == "client_id" then Some(Client)
    else if key == "simbrief_id" || key == "simbrief_pilot_id" then Some(Simbrief)
    else None
  }

  /** No control character. */
  predicate TokenIsSafe(token: string) {
    forall c :: c in token ==> c >= ' ' && c != 127 as char
  }

  predicate IdIsSafe(id: string) {
    TokenIsSafe(id) && '"' !in id && '\\' !in id
  }

  function FaultOf(g: Group, value: string): Option<Fault> {
    match g
    case Url => (match ParseWebSocketUrl(value) case Success(_) => None case Failure(fault) => Some(fault))
    case Token => if TokenIsSafe(value) then None else Some(UnsafeToken)
    case Client => if IdIsSafe(value) then None else Some(UnsafeId)
    case Simbrief => if IdIsSafe(value) then None else Some(UnsafeId)
  }

  function Put(e: Endpoint, g: Group, value: string): Endpoint
    requires FaultOf(g, value).None?
  {
    match g
    case Url =>
      ParseWebSocketUrl(value).value.(authToken := e.authToken, clientId := e.clientId, simbriefId := e.simbriefId)
    case Token => e.(authToken := value)
    case Client => e.(clientId := value)
    case Simbrief => e.(simbriefId := value)
  }

  datatype Setting = Setting(group: Group, value: string)

  function SettingOf(raw: string): Option<Setting> {
    match MeaningOf(raw)
    case Nothing => None
    case Assigns(key, value) =>
      match GroupOf(key)
      case None => None
      case Some(g) => Some(Setting(g, value))
  }

  // --------------------------------------------------------------- the reader

  function ApplyLine(e: Endpoint, raw: string): Result<Endpoint> {
    match SettingOf(raw)
    case None => Success(e)
    case Some(Setting(g, value)) =>
      match FaultOf(g, value)
      case Some(fault) => Failure(fault)
      case None => Success(Put(e, g, value))
  }

  type Reader = (Endpoint, string) -> Result<Endpoint>

  /** The lines read one after another, up to the first that is refused. */
  function ReadLines(lines: seq<string>, e: Endpoint, read: Reader): Result<Endpoint> {
    if lines == [] then Success(e)
    else match read(e, lines[0])
         case Failure(fault) => Failure(fault)
         case Success(next) => ReadLines(lines[1..], next, read)
  }

  function ApplyLines(lines: seq<string>, e: Endpoint): Result<Endpoint> {
    ReadLines(lines, e, ApplyLine)
  }

  /** The text from `from` on, cut at its newlines. */
  function RawLines(text: string, from: nat): (lines: seq<string>)
    requires from <= |text|
    decreases |text| - from
  {
    var n := Find(text, '\n', from);
    if n == |text| then [text[from..n]] else [text[from..n]] + RawLines(text, n + 1)
  }

  function ReadConfig(text: string, base: Endpoint): Result<Endpoint> {
    ApplyLines(RawLines(text, 0), base)
  }

  lemma ReadFirst(line: string, rest: seq<string>, e: Endpoint, read: Reader)
    ensures ReadLines([line] + rest, e, read)
            == if read(e, line).Failure? then read(e, line) else ReadLines(rest, read(e, line).value, read)
  {
    assert ([line] + rest)[1..] == rest;
  }

  lemma RawLinesFrom(text: string, from: nat)
    requires from <= |text|
    ensures var n := Find(text, '\n', from);
            RawLines(text, from) == [text[from..n]] + if n == |text| then [] else RawLines(text, n + 1)
  {}

  lemma FirstLineIsRead(text: string, from: nat, e: Endpoint, read: Reader)
    requires from <= |text|
    ensures var n := Find(text, '\n', from);
            var first := read(e, text[from..n]);
            ReadLines(RawLines(text, from), e, read)
            == if first.Failure? || n == |text| then first else ReadLines(RawLines(text, n + 1), first.value, read)
  {
    var n := Find(text, '\n', from);
    RawLinesFrom(text, from);
    ReadFirst(text[from..n], if n == |text| then [] else RawLines(text, n + 1), e, read);
  }

  method ReadText(text: string, base: Endpoint, read: Reader) returns (r: Result<Endpoint>)
    ensures r == ReadLines(RawLines(text, 0), base, read)
  {
    var lineStart, e := 0, base;
    ghost var answer := ReadLines(RawLines(text, 0), base, read);
    while lineStart <= |text|
      invariant lineStart <= |text|
      invariant ReadLines(RawLines(text, lineStart), e, read) == answer
      decreases |text| - lineStart
    {
      var newline := Find(text, '\n', lineStart);
      FirstLineIsRead(text, lineStart, e, read);
      r := read(e, text[lineStart..newline]);
      if r.Failure? || newline == |text| {
        return;
      }
      lineStart, e := newline + 1, r.value;
    }
  }

  method ApplyConfigText(text: string, base: Endpoint) returns (r: Result<Endpoint>)
    ensures r == ReadConfig(text, base)
  {
    r := ReadText(text, base, ApplyLine);
  }

  // --------------------------------------------------------------- the editor

  datatype Line = Line(content: string, ending: string)

  /** Content and ending apart, so a rewritten line keeps the ending it had. */
  function Split(text: string, from: nat): seq<Line>
    requires from <= |text|
    decreases |text| - from
  {
    var n := Find(text, '\n', from);
    if from == |text| then []
    else if n == |text| then [Line(text[from..], "")]
    else [LineBetween(text, from, n)] + Split(text, n + 1)
  }

  function LineBetween(text: string, from: nat, n: nat): Line
    requires from <= n <= |text|
  {
    if n > from && text[n - 1] == '\r' then Line(text[from..n - 1], "\r\n") else Line(text[from..n], "\n")
  }

  predicate Live(content: string, key: string) {
    var m := MeaningOf(content);
    m.Assigns? && m.key == key
  }

  predicate Commented(content: string, key: string) {
    IsComment(Trim(content)) && AssignsKey(Uncomment(Trim(content)), key)
  }

  predicate AnyLive(lines: seq<Line>, key: string) {
    exists i :: 0 <= i < |lines| && Live(lines[i].content, key)
  }

  /** The first live line of the key; with none, its first commented line. */
  predicate IsTarget(lines: seq<Line>, key: string, t: nat) {
    && t < |lines|
    && if AnyLive(lines, key) then
         Live(lines[t].content, key) && forall i :: 0 <= i < t ==> !Live(lines[i].content, key)
       else
         Commented(lines[t].content, key) && forall i :: 0 <= i < t ==> !Commented(lines[i].content, key)
  }

  function Wanted(key: string): string {
    Lower(Trim(key))
  }

  function Assignment(key: string, value: string): string {
    key + " = " + value
  }

  predicate HasCrlf(text: string) {
    exists i :: 0 <= i < |text| - 1 && text[i] == '\r' && text[i + 1] == '\n'
  }

  function Newline(text: string): string {
    if HasCrlf(text) then "\r\n" else "\n"
  }

  /** An unended last line is ended. */
  function Ended(lines: seq<Line>, newline: string): seq<Line> {
    var last := |lines| - 1;
    if lines != [] && lines[last].ending == "" then lines[last := lines[last].(ending := newline)] else lines
  }

  function Rewritten(lines: seq<Line>, t: nat, assignment: string): seq<Line>
    requires t < |lines|
  {
    Ended(lines[t := lines[t].(content := assignment)], "\n")
  }

  function Appended(lines: seq<Line>, assignment: string, newline: string): seq<Line> {
    Ended(lines, newline) + [Line(assignment, newline)]
  }

  /** What saving a key may leave: one line rewritten, or one appended. */
  ghost predicate IsWritten(lines: seq<Line>, newline: string, key: string, value: string, out: seq<Line>) {
    || (exists t :: IsTarget(lines, key, t) && out == Rewritten(lines, t, Assignment(key, value)))
    || ((forall t :: !IsTarget(lines, key, t)) && out == Appended(lines, Assignment(key, value), newline))
  }

  function Render(lines: seq<Line>): string {
    if lines == [] then "" else lines[0].content + lines[0].ending + Render(lines[1..])
  }

  ghost predicate IsUpsert(text: string, key: string, value: string, out: string) {
    exists lines :: IsWritten(Split(text, 0), Newline(text), Wanted(key), value, lines) && out == Render(lines)
  }

  method UpsertConfigValue(text: string, key: string, value: string) returns (out: string)
    ensures IsUpsert(text, key, value, out)
  {
    var wanted := Wanted(key);
    var assignment := wanted + " = " + value;
    var lines := SplitLines(text);
    var target := ChooseTarget(lines, wanted);
    if target.Some? {
      lines := lines[target.value := lines[target.value].(content := assignment)];
    } else {
      lines := EndLast(lines, Newline(text));
      lines := lines + [Line(assignment, Newline(text))];
    }
    lines := EndLast(lines, "\n");
    assert IsWritten(Split(text, 0), Newline(text), wanted, value, lines);
    out := Join(lines);
  }

  lemma SplitFrom(text: string, from: nat)
    requires from < |text|
    ensures var n := Find(text, '\n', from);
            Split(text, from)
            == if n == |text| then [Line(text[from..], "")] else [LineBetween(text, from, n)] + Split(text, n + 1)
  {}

  lemma OneMoreLine(text: string, from: nat, lines: seq<Line>)
    requires from < |text| && Find(text, '\n', from) < |text|
    ensures var n := Find(text, '\n', from);
            lines + Split(text, from) == lines + [LineBetween(text, from, n)] + Split(text, n + 1)
  {
    var n := Find(text, '\n', from);
    SplitFrom(text, from);
    GroupedLines(lines, LineBetween(text, from, n), Split(text, n + 1));
  }

  lemma GroupedLines(a: seq<Line>, l: Line, c: seq<Line>)
    ensures a + ([l] + c) == a + [l] + c
  {}

  lemma LastLine(text: string, from: nat, lines: seq<Line>)
    requires from < |text| && Find(text, '\n', from) == |text|
    ensures lines + Split(text, from) == lines + [Line(text[from..], "")]
  {}

  method SplitLines(text: string) returns (lines: seq<Line>)
    ensures lines == Split(text, 0)
  {
    lines := [];
    var pos := 0;
    ghost var answer := Split(text, 0);
    while pos < |text|
      invariant pos <= |text|
      invariant lines + Split(text, pos) == answer
    {
      var newline := Find(text, '\n', pos);
      if newline == |text| {
        LastLine(text, pos, lines);
        return lines + [Line(text[pos..], "")];
      }
      OneMoreLine(text, pos, lines);
      var line := CutLine(text, pos, newline);
      lines, pos := lines + [line], newline + 1;
    }
    SplitEnds(text, lines);
  }

  method CutLine(text: string, pos: nat, newline: nat) returns (line: Line)
    requires pos <= newline <= |text|
    ensures line == LineBetween(text, pos, newline)
  {
    var end, ending := newline, "\n";
    if end > pos && text[end - 1] == '\r' {
      end, ending := end - 1, "\r\n";
    }
    line := Line(text[pos..end], ending);
  }

  lemma SplitEnds(text: string, lines: seq<Line>)
    ensures lines + Split(text, |text|) == lines
  {}

  datatype Kind = LiveLine | CommentedLine | OtherLine

  function KindOf(content: string, key: string): (kind: Kind)
    ensures kind == LiveLine <==> Live(content, key)
    ensures kind == CommentedLine <==> Commented(content, key)
  {
    var line := Trim(content);
    if line == "" then OtherLine
    else if IsComment(line) then if AssignsKey(Uncomment(line), key) then CommentedLine else OtherLine
    else if AssignsKey(line, key) then LiveLine
    else OtherLine
  }

  ghost predicate IsFirst(kinds: seq<Kind>, kind: Kind, upTo: nat, at: Option<nat>)
    requires upTo <= |kinds|
  {
    if at.Some? then at.value < upTo && kinds[at.value] == kind && forall k :: 0 <= k < at.value ==> kinds[k] != kind
    else forall k :: 0 <= k < upTo ==> kinds[k] != kind
  }

  method ChooseTarget(lines: seq<Line>, key: string) returns (target: Option<nat>)
    ensures target.Some? ==> IsTarget(lines, key, target.value)
    ensures target.None? ==> forall t :: !IsTarget(lines, key, t)
  {
    ghost var kinds := seq(|lines|, i requires 0 <= i < |lines| => KindOf(lines[i].content, key));
    var live, commented := FindTarget(lines, content => KindOf(content, key), kinds);
    target := if live.Some? then live else commented;
    TargetIsFirst(lines, key, kinds, live, commented);
  }

  method FindTarget(lines: seq<Line>, kindOf: string -> Kind, ghost kinds: seq<Kind>)
    returns (live: Option<nat>, commented: Option<nat>)
    requires |kinds| == |lines| && forall k :: 0 <= k < |lines| ==> kinds[k] == kindOf(lines[k].content)
    ensures IsFirst(kinds, LiveLine, |kinds|, live)
    ensures live.None? ==> IsFirst(kinds, CommentedLine, |kinds|, commented)
  {
    live, commented := None, None;
    var i := 0;
    while i < |lines| && live.None?
      invariant i <= |lines|
      invariant IsFirst(kinds, LiveLine, i, live)
      invariant live.None? ==> IsFirst(kinds, CommentedLine, i, commented)
    {
      var kind := kindOf(lines[i].content);
      if kind == LiveLine {
        live := Some(i);
      } else if kind == CommentedLine && commented.None? {
        commented := Some(i);
      }
      i := i + 1;
    }
  }

  lemma TargetIsFirst(lines: seq<Line>, key: string, kinds: seq<Kind>, live: Option<nat>, commented: Option<nat>)
    requires |kinds| == |lines| && forall k :: 0 <= k < |kinds| ==> kinds[k] == KindOf(lines[k].content, key)
    requires IsFirst(kinds, LiveLine, |kinds|, live)
    requires live.None? ==> IsFirst(kinds, CommentedLine, |kinds|, commented)
    ensures live.Some? ==> IsTarget(lines, key, live.value)
    ensures live.None? && commented.Some? ==> IsTarget(lines, key, commented.value)
    ensures live.None? && commented.None? ==> forall t :: !IsTarget(lines, key, t)
  {
    forall k | 0 <= k < |kinds|
      ensures Live(lines[k].content, key) == (kinds[k] == LiveLine)
      ensures Commented(lines[k].content, key) == (kinds[k] == CommentedLine)
    {}
  }

  method EndLast(lines: seq<Line>, newline: string) returns (ended: seq<Line>)
    ensures ended == Ended(lines, newline)
  {
    ended := lines;
    if lines != [] && lines[|lines| - 1].ending == "" {
      ended := lines[|lines| - 1 := lines[|lines| - 1].(ending := newline)];
    }
  }

  method Join(lines: seq<Line>) returns (out: string)
    ensures out == Render(lines)
  {
    out := "";
    for i := 0 to |lines|
      invariant out + Render(lines[i..]) == Render(lines)
    {
      assert lines[i..][1..] == lines[i + 1..];
      out := out + lines[i].content + lines[i].ending;
    }
  }
}
