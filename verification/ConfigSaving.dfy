// Saving one key in the plugin's config file.
module ConfigSaving {
  import opened ByteText
  import opened EndpointUrl
  import opened EndpointConfig
  import opened ConfigReading
  import opened ConfigAgreement

  // ----------------------------------------------------- the line that is chosen

  lemma SettledMeans(l: Line)
    ensures Trim(Settled(l).content) == Trim(l.content)
  {
    if Settled(l) != l {
      assert l.content == l.content[..|l.content| - 1] + "\r";
      ReturnIsSpace(l.content[..|l.content| - 1]);
    }
  }

  lemma SettledIsLiveAlike(l: Line, key: string)
    ensures Live(Settled(l).content, key) == Live(l.content, key)
    ensures Commented(Settled(l).content, key) == Commented(l.content, key)
  {
    SettledMeans(l);
  }

  lemma AssignmentIsLive(key: string, value: string, other: string)
    requires Writable(key)
    ensures Live(Assignment(key, value), other) <==> other == key
  {
    AssignmentMeans(key, value);
  }

  lemma OneTarget(lines: seq<Line>, key: string, s: nat, t: nat)
    requires IsTarget(lines, key, s) && IsTarget(lines, key, t)
    ensures s == t
  {}

  lemma SomeTarget(lines: seq<Line>, key: string) returns (target: Option<nat>)
    ensures target.Some? ==> IsTarget(lines, key, target.value)
    ensures target.None? ==> forall t :: !IsTarget(lines, key, t)
  {
    if t :| IsTarget(lines, key, t) {
      target := Some(t);
    } else {
      target := None;
    }
  }

  /** A target is missing only from a text with no line of the key, live or commented. */
  lemma {:induction false} TargetIsMissing(lines: seq<Line>, key: string)
    requires forall t :: !IsTarget(lines, key, t)
    ensures forall i :: 0 <= i < |lines| ==> !Live(lines[i].content, key) && !Commented(lines[i].content, key)
  {
    if AnyLive(lines, key) {
      var i :| 0 <= i < |lines| && Live(lines[i].content, key);
      var t := FirstLive(lines, key, i);
    } else {
      forall i | 0 <= i < |lines|
        ensures !Commented(lines[i].content, key)
      {
        if Commented(lines[i].content, key) {
          var t := FirstCommented(lines, key, i);
        }
      }
    }
  }

  lemma {:induction false} FirstLive(lines: seq<Line>, key: string, i: nat) returns (t: nat)
    requires i < |lines| && Live(lines[i].content, key)
    ensures IsTarget(lines, key, t)
  {
    if k :| 0 <= k < i && Live(lines[k].content, key) {
      t := FirstLive(lines, key, k);
    } else {
      t := i;
    }
  }

  lemma {:induction false} FirstCommented(lines: seq<Line>, key: string, i: nat) returns (t: nat)
    requires i < |lines| && Commented(lines[i].content, key) && !AnyLive(lines, key)
    ensures IsTarget(lines, key, t)
  {
    if k :| 0 <= k < i && Commented(lines[k].content, key) {
      t := FirstCommented(lines, key, k);
    } else {
      t := i;
    }
  }

  // ---------------------------------------------------------- what a save leaves

  /** Saving rewrote line t of the text, or appended it. */
  ghost predicate Leaves(was: seq<Line>, newline: string, key: string, value: string, t: nat, lines: seq<Line>) {
    && t <= |was| && t < |lines| && Loose(lines)
    && if t < |was| then IsTarget(was, key, t) && lines == Rewritten(was, t, Assignment(key, value))
       else (forall k :: !IsTarget(was, key, k)) && lines == Appended(was, Assignment(key, value), newline)
  }

  lemma SavedLines(text: string, key: string, value: string, out: string) returns (t: nat, lines: seq<Line>)
    requires IsUpsert(text, key, value, out) && Writable(Wanted(key)) && Plain(value)
    ensures Leaves(Split(text, 0), Newline(text), Wanted(key), value, t, lines)
    ensures out == Render(lines) && Split(out, 0) == Tidied(lines)
  {
    var was, wanted := Split(text, 0), Wanted(key);
    lines :| IsWritten(was, Newline(text), wanted, value, lines) && out == Render(lines);
    SplitIsProper(text, 0);
    var target := SomeTarget(was, wanted);
    if target.Some? {
      t := target.value;
      var s :| IsTarget(was, wanted, s) && lines == Rewritten(was, s, Assignment(wanted, value));
      OneTarget(was, wanted, s, t);
      RewrittenIsLoose(was, t, wanted, value);
    } else {
      t := |was|;
      AppendedIsLoose(was, Newline(text), wanted, value);
    }
    SplitOfLoose(lines);
  }

  lemma LeavesLine(was: seq<Line>, newline: string, key: string, value: string, t: nat, lines: seq<Line>, i: nat)
    requires Leaves(was, newline, key, value, t, lines) && i < |lines|
    ensures |lines| == if t < |was| then |was| else t + 1
    ensures i == t ==>
              lines[i].content == Assignment(key, value)
              && (t < |was| && was[t].ending != "" ==> lines[i].ending == was[t].ending)
    ensures i != t ==> i < |was| && lines[i].content == was[i].content
    ensures i != t && lines[i].ending != was[i].ending ==>
              i == |was| - 1 && was[i].ending == "" && (lines[i].ending == "\n" || lines[i].ending == newline)
  {}

  function Whole(l: Line): string {
    l.content + l.ending
  }

  /** Every other line is left as it was, save that an unended last line is ended. */
  lemma OtherLinesAreUnchanged(text: string, key: string, value: string, out: string, i: nat) returns (t: nat)
    requires IsUpsert(text, key, value, out) && Writable(Wanted(key)) && Plain(value)
    ensures var was, now := Split(text, 0), Split(out, 0);
            && |now| == (if t < |was| then |was| else |was| + 1)
            && (if t < |was| then IsTarget(was, Wanted(key), t)
                else t == |was| && forall k :: !IsTarget(was, Wanted(key), k))
            && now[t].content == Assignment(Wanted(key), value)
            && (t < |was| && was[t].ending != "" ==> now[t].ending == was[t].ending)
    ensures var was, now := Split(text, 0), Split(out, 0);
            i < |was| && i != t ==>
              i < |now| && (Whole(now[i]) == Whole(was[i])
                            || (i == |was| - 1 && was[i].ending == ""
                                && (Whole(now[i]) == Whole(was[i]) + "\n"
                                    || Whole(now[i]) == Whole(was[i]) + Newline(text))))
  {
    var lines;
    t, lines := SavedLines(text, key, value, out);
    var was, now := Split(text, 0), Split(out, 0);
    LeavesLine(was, Newline(text), Wanted(key), value, t, lines, t);
    assert !EndsInReturn(Assignment(Wanted(key), value));
    if i < |was| && i != t {
      LeavesLine(was, Newline(text), Wanted(key), value, t, lines, i);
      SettledText(lines[i]);
      SameOrEnded(was[i], lines[i], Newline(text));
    }
  }

  lemma SameOrEnded(was: Line, now: Line, newline: string)
    requires now.content == was.content
    requires now.ending != was.ending ==> was.ending == "" && (now.ending == "\n" || now.ending == newline)
    ensures now.ending == was.ending ==> Whole(now) == Whole(was)
    ensures now.ending != was.ending ==> Whole(now) == Whole(was) + "\n" || Whole(now) == Whole(was) + newline
  {
    if now.ending != was.ending {
      assert Whole(was) == was.content;
    }
  }

  /** The saved line is the one the next save of the key will find. */
  lemma SavedLineIsTarget(was: seq<Line>, newline: string, key: string, value: string, t: nat, lines: seq<Line>)
    requires Leaves(was, newline, key, value, t, lines) && Writable(key)
    ensures IsTarget(Tidied(lines), key, t)
  {
    var now := Tidied(lines);
    LeavesLine(was, newline, key, value, t, lines, t);
    AssignmentIsLive(key, value, key);
    SettledIsLiveAlike(lines[t], key);
    if t == |was| {
      TargetIsMissing(was, key);
    }
    forall i | 0 <= i < t
      ensures !Live(now[i].content, key)
    {
      LeavesLine(was, newline, key, value, t, lines, i);
      SettledIsLiveAlike(lines[i], key);
      assert !Live(was[i].content, key);
    }
    assert AnyLive(now, key);
  }

  lemma SavedAgain(was: seq<Line>, newline: string, key: string, first: string, second: string, t: nat,
                   lines: seq<Line>)
    requires Leaves(was, newline, key, first, t, lines) && Writable(key) && Plain(first) && Plain(second)
    requires newline == "\n" || newline == "\r\n"
    ensures var again := if t < |was| then Rewritten(was, t, Assignment(key, second))
                         else Appended(was, Assignment(key, second), newline);
            Render(Rewritten(Tidied(lines), t, Assignment(key, second))) == Render(again)
  {
    var b := Assignment(key, second);
    if t < |was| {
      RewrittenButOne(was, key, first, second, t);
    } else {
      AppendedButOne(was, newline, key, first, second);
    }
    EndedAlready(was, newline, key, first, t, lines);
    RenderChanged(lines, t, b);
  }

  lemma RenderChanged(lines: seq<Line>, t: nat, content: string)
    requires t < |lines| && !EndsInReturn(lines[t].content) && !EndsInReturn(content)
    requires Tidied(lines)[|lines| - 1].ending != ""
    ensures Render(Rewritten(Tidied(lines), t, content)) == Render(lines[t := lines[t].(content := content)])
  {
    TidiedButOne(lines, t, content);
    RewrittenEnded(Tidied(lines), t, content);
    RenderTidied(lines[t := lines[t].(content := content)]);
  }

  lemma RewrittenEnded(lines: seq<Line>, t: nat, content: string)
    requires t < |lines| && lines[|lines| - 1].ending != ""
    ensures Rewritten(lines, t, content) == lines[t := lines[t].(content := content)]
  {}

  lemma RewrittenButOne(was: seq<Line>, key: string, first: string, second: string, t: nat)
    requires t < |was| && Plain(first) && Plain(second)
    ensures var lines, b := Rewritten(was, t, Assignment(key, first)), Assignment(key, second);
            !EndsInReturn(lines[t].content) && !EndsInReturn(b)
              && lines[t := lines[t].(content := b)] == Rewritten(was, t, b)
  {}

  lemma AppendedButOne(was: seq<Line>, newline: string, key: string, first: string, second: string)
    requires Plain(first) && Plain(second)
    ensures var lines, b := Appended(was, Assignment(key, first), newline), Assignment(key, second);
            !EndsInReturn(lines[|was|].content) && !EndsInReturn(b)
            && lines[|was| := lines[|was|].(content := b)] == Appended(was, b, newline)
  {}

  lemma TidiedButOne(lines: seq<Line>, t: nat, content: string)
    requires t < |lines| && !EndsInReturn(lines[t].content) && !EndsInReturn(content)
    ensures Tidied(lines[t := lines[t].(content := content)])
            == Tidied(lines)[t := Tidied(lines)[t].(content := content)]
  {}

  lemma EndedAlready(was: seq<Line>, newline: string, key: string, value: string, t: nat, lines: seq<Line>)
    requires Leaves(was, newline, key, value, t, lines)
    requires newline == "\n" || newline == "\r\n"
    ensures Tidied(lines)[|lines| - 1].ending != ""
  {
    SavedIsEnded(was, newline, key, value, t, lines);
    assert Tidied(lines)[|lines| - 1] == Settled(lines[|lines| - 1]);
  }

  lemma SavedIsEnded(was: seq<Line>, newline: string, key: string, value: string, t: nat, lines: seq<Line>)
    requires Leaves(was, newline, key, value, t, lines) && newline != ""
    ensures lines[|lines| - 1].ending != ""
  {
    if t < |was| {
      EndedEnds(was[t := was[t].(content := Assignment(key, value))], "\n");
    }
  }

  lemma EndedEnds(lines: seq<Line>, newline: string)
    requires lines != [] && newline != ""
    ensures Ended(lines, newline) != [] && Ended(lines, newline)[|Ended(lines, newline)| - 1].ending != ""
  {}

  /** Saving twice leaves what the second save alone would have left; saving the same value again changes nothing. */
  lemma LastSaveWins(text: string, key: string, first: string, second: string, mid: string, out: string, direct: string)
    requires IsUpsert(text, key, first, mid) && IsUpsert(mid, key, second, out) && IsUpsert(text, key, second, direct)
    requires Writable(Wanted(key)) && Plain(first) && Plain(second)
    ensures out == direct
  {
    var wanted, was := Wanted(key), Split(text, 0);
    var t, lines := SavedLines(text, key, first, mid);
    var s, others := SavedLines(mid, key, second, out);
    var u, directly := SavedLines(text, key, second, direct);
    SavedLineIsTarget(was, Newline(text), wanted, first, t, lines);
    SavedAgain(was, Newline(text), wanted, first, second, t, lines);
    assert s == t by {
      if s < |Tidied(lines)| {
        OneTarget(Tidied(lines), wanted, s, t);
      }
    }
    assert u == t by {
      if t < |was| && u < |was| {
        OneTarget(was, wanted, t, u);
      }
    }
  }

  // ------------------------------------------------------ what is read back

  function KeyOf(g: Group): string {
    match g
    case Url => "url"
    case Token => "token"
    case Client => "client_id"
    case Simbrief => "simbrief_id"
  }

  lemma KeysAreWritable(g: Group)
    ensures Writable(KeyOf(g)) && Wanted(KeyOf(g)) == KeyOf(g) && GroupOf(KeyOf(g)) == Some(g)
  {
    KeysAreSimple(g);
    TrimIs("", KeyOf(g), "");
    assert "" + KeyOf(g) + "" == KeyOf(g);
    LowerIsItself(KeyOf(g));
  }

  lemma KeysAreSimple(g: Group)
    ensures Writable(KeyOf(g)) && GroupOf(KeyOf(g)) == Some(g)
  {
    var key := KeyOf(g);
    assert forall i :: 0 <= i < |key| ==> 'a' <= key[i] <= 'z' || key[i] == '_' by {
      match g
      case Url =>
      case Token =>
      case Client =>
      case Simbrief =>
    }
    match g
    case Url =>
    case Token =>
    case Client => assert |key| == 9;
    case Simbrief => assert |key| == 11;
  }

  lemma SettingIsTrimmedText(some: string, other: string)
    requires Trim(some) == Trim(other)
    ensures SettingOf(some) == SettingOf(other)
  {}

  predicate SettingAlike(some: seq<string>, other: seq<string>) {
    |some| == |other| && forall i :: 0 <= i < |some| ==> SettingOf(some[i]) == SettingOf(other[i])
  }

  lemma SameChoiceOfAlike(some: seq<string>, other: seq<string>)
    requires SettingAlike(some, other)
    ensures ChoiceOf(some) == ChoiceOf(other)
  {
    assert SettingsOf(some) == SettingsOf(other);
  }

  lemma SameValidityOfAlike(some: seq<string>, other: seq<string>)
    requires SettingAlike(some, other)
    ensures AllValid(some) == AllValid(other)
  {
    forall i | 0 <= i < |some|
      ensures Valid(some[i]) == Valid(other[i])
    {
      assert SettingOf(some[i]) == SettingOf(other[i]);
    }
  }

  /** Reading the lines a save left is reading them as they were before any tidying. */
  lemma ReadingTidied(lines: seq<Line>, base: Endpoint)
    ensures ApplyLines(Contents(Tidied(lines)), base).Success? <==> ApplyLines(Contents(lines), base).Success?
    ensures ApplyLines(Contents(lines), base).Success? ==>
              ApplyLines(Contents(Tidied(lines)), base) == ApplyLines(Contents(lines), base)
  {
    var tidy, raw := Contents(Tidied(lines)), Contents(lines);
    forall i | 0 <= i < |lines|
      ensures SettingOf(tidy[i]) == SettingOf(raw[i])
    {
      SettledMeans(lines[i]);
      SettingIsTrimmedText(tidy[i], raw[i]);
    }
    SameChoiceOfAlike(tidy, raw);
    SameValidityOfAlike(tidy, raw);
    ReadingMeans(tidy, base);
    ReadingMeans(raw, base);
  }

  /** A line below line t sets g. */
  predicate SetBelow(raw: seq<string>, t: nat, g: Group) {
    exists i :: t < i < |raw| && Sets(raw[i], g)
  }

  /** The line that a save rewrites is not the last live line of its setting: another wins over it. */
  ghost predicate IsOverruled(was: seq<Line>, g: Group) {
    exists t :: IsTarget(was, KeyOf(g), t) && SetBelow(Contents(was), t, g)
  }

  lemma {:induction false} LastInChanged(settings: seq<Option<Setting>>, t: nat, s: Option<Setting>, g: Group)
    requires t < |settings|
    ensures !IsFor(s, g) && !IsFor(settings[t], g) ==> LastIn(settings[t := s], g) == LastIn(settings, g)
    ensures IsFor(s, g) ==>
              LastIn(settings[t := s], g)
              == if exists i :: t < i < |settings| && IsFor(settings[i], g) then LastIn(settings, g)
                 else Some(s.value.value)
  {
    var n := |settings| - 1;
    if t < n {
      LastInChanged(settings[..n], t, s, g);
      assert settings[t := s][..n] == settings[..n][t := s];
      assert forall i :: t < i < n ==> settings[..n][i] == settings[i];
    } else {
      assert settings[t := s][..n] == settings[..n];
    }
  }

  lemma LastOfChanged(raw: seq<string>, t: nat, line: string, g: Group)
    requires t < |raw|
    ensures !Sets(line, g) && !Sets(raw[t], g) ==> Last(raw[t := line], g) == Last(raw, g)
    ensures Sets(line, g) ==>
              Last(raw[t := line], g) == if SetBelow(raw, t, g) then Last(raw, g) else Some(ValueIn(line))
  {
    assert SettingsOf(raw[t := line]) == SettingsOf(raw)[t := SettingOf(line)];
    LastInChanged(SettingsOf(raw), t, SettingOf(line), g);
    assert forall i :: 0 <= i < |raw| ==> Sets(raw[i], g) == IsFor(SettingsOf(raw)[i], g);
  }

  lemma ChoiceOfChanged(raw: seq<string>, t: nat, line: string, g: Group)
    requires t < |raw| && Sets(line, g)
    requires SettingOf(raw[t]).None? || Sets(raw[t], g)
    ensures ChoiceOf(raw[t := line])
            == if SetBelow(raw, t, g) then ChoiceOf(raw) else Choose(ChoiceOf(raw), g, ValueIn(line))
  {
    LastOfChanged(raw, t, line, Url);
    LastOfChanged(raw, t, line, Token);
    LastOfChanged(raw, t, line, Client);
    LastOfChanged(raw, t, line, Simbrief);
  }

  lemma CommentsSetNothing(content: string, key: string)
    requires Commented(content, key)
    ensures SettingOf(content).None?
  {}

  /** The line a save rewrites sets the same setting, or nothing. */
  lemma TargetSets(was: seq<Line>, g: Group, t: nat)
    requires IsTarget(was, KeyOf(g), t)
    ensures SettingOf(was[t].content).None? || Sets(was[t].content, g)
  {
    if AnyLive(was, KeyOf(g)) {
      LiveSets(was[t].content, g);
    } else {
      CommentsSetNothing(was[t].content, KeyOf(g));
    }
  }

  lemma LiveSets(content: string, g: Group)
    requires Live(content, KeyOf(g))
    ensures Sets(content, g)
  {
    KeysAreWritable(g);
  }

  lemma AssignmentSets(g: Group, value: string)
    ensures SettingOf(Assignment(KeyOf(g), value)) == Some(Setting(g, Trim(value)))
  {
    KeysAreWritable(g);
    AssignmentMeans(KeyOf(g), value);
  }

  /** The choice the saved lines make: the old one with g's value replaced, unless a later line sets g. */
  lemma SavedChoice(was: seq<Line>, newline: string, g: Group, value: string, t: nat, lines: seq<Line>)
    requires Leaves(was, newline, KeyOf(g), value, t, lines) && AllValid(Contents(was))
    ensures ChoiceOf(Contents(lines))
            == if IsOverruled(was, g) then ChoiceOf(Contents(was)) else Choose(ChoiceOf(Contents(was)), g, Trim(value))
    ensures AllValid(Contents(lines)) <==> FaultOf(g, Trim(value)).None?
  {
    if t < |was| {
      RewrittenChoice(was, g, value, t, lines);
      if s :| IsTarget(was, KeyOf(g), s) && SetBelow(Contents(was), s, g) {
        OneTarget(was, KeyOf(g), s, t);
      }
    } else {
      AppendedChoice(was, newline, g, value, lines);
    }
  }

  lemma RewrittenChoice(was: seq<Line>, g: Group, value: string, t: nat, lines: seq<Line>)
    requires IsTarget(was, KeyOf(g), t) && lines == Rewritten(was, t, Assignment(KeyOf(g), value))
    requires AllValid(Contents(was))
    ensures ChoiceOf(Contents(lines))
            == if SetBelow(Contents(was), t, g) then ChoiceOf(Contents(was))
               else Choose(ChoiceOf(Contents(was)), g, Trim(value))
    ensures AllValid(Contents(lines)) <==> FaultOf(g, Trim(value)).None?
  {
    var raw, line := Contents(was), Assignment(KeyOf(g), value);
    AssignmentSets(g, value);
    TargetSets(was, g, t);
    RewrittenContents(was, t, line);
    ChoiceOfChanged(raw, t, line, g);
    ValidChanged(raw, t, line);
  }

  lemma RewrittenContents(was: seq<Line>, t: nat, line: string)
    requires t < |was|
    ensures Contents(Rewritten(was, t, line)) == Contents(was)[t := line]
  {}

  lemma AppendedChoice(was: seq<Line>, newline: string, g: Group, value: string, lines: seq<Line>)
    requires lines == Appended(was, Assignment(KeyOf(g), value), newline) && AllValid(Contents(was))
    ensures ChoiceOf(Contents(lines)) == Choose(ChoiceOf(Contents(was)), g, Trim(value))
    ensures AllValid(Contents(lines)) <==> FaultOf(g, Trim(value)).None?
  {
    var raw, line := Contents(was), Assignment(KeyOf(g), value);
    AssignmentSets(g, value);
    AppendedContents(was, newline, line);
    ChoiceOfMore(raw, line);
    ValidMore(raw, line);
  }

  lemma AppendedContents(was: seq<Line>, newline: string, line: string)
    ensures Contents(Appended(was, line, newline)) == Contents(was) + [line]
  {}

  lemma ValidChanged(raw: seq<string>, t: nat, line: string)
    requires AllValid(raw) && t < |raw|
    ensures AllValid(raw[t := line]) <==> Valid(line)
  {
    assert raw[t := line][t] == line;
  }

  lemma ValidMore(raw: seq<string>, line: string)
    requires AllValid(raw)
    ensures AllValid(raw + [line]) <==> Valid(line)
  {
    assert (raw + [line])[|raw|] == line;
  }

  /** A file that reads is refused after a save only when the value itself is
      refused. Else it reads as before with the one setting replaced, or just as
      before when a line below the saved one sets it too: so what was saved is
      read back exactly when no such line follows, or the value makes no change. */
  lemma SavedSettingReadsBack(text: string, g: Group, value: string, out: string, base: Endpoint, e: Endpoint)
    requires IsUpsert(text, KeyOf(g), value, out) && Plain(value) && ReadConfig(text, base) == Success(e)
    ensures ReadConfig(out, base).Success? <==> FaultOf(g, Trim(value)).None?
    ensures FaultOf(g, Trim(value)).None? ==>
              ReadConfig(out, base) == Success(if IsOverruled(Split(text, 0), g) then e else Put(e, g, Trim(value)))
    ensures FaultOf(g, Trim(value)).None? ==>
              (ReadConfig(out, base) == Success(Put(e, g, Trim(value)))
               <==> !IsOverruled(Split(text, 0), g) || Put(e, g, Trim(value)) == e)
  {
    KeysAreWritable(g);
    var was := Split(text, 0);
    var t, lines := SavedLines(text, KeyOf(g), value, out);
    ReadingSplitLines(text, base);
    ReadingSplitLines(out, base);
    ReadingTidied(lines, base);
    ReadingMeans(Contents(was), base);
    ReadingMeans(Contents(lines), base);
    SavedChoice(was, Newline(text), g, value, t, lines);
    if FaultOf(g, Trim(value)).None? {
      ChoosingPuts(base, ChoiceOf(Contents(was)), g, Trim(value));
    }
  }

  /** A token without control characters is read back, and nothing else moves,
      exactly when no later line sets the token or that is the token already. */
  lemma SavedTokenReadsBack(text: string, value: string, out: string, base: Endpoint, e: Endpoint)
    requires IsUpsert(text, "token", value, out) && TokenIsSafe(value) && ReadConfig(text, base) == Success(e)
    ensures ReadConfig(out, base)
            == Success(e.(authToken := if IsOverruled(Split(text, 0), Token) then e.authToken else Trim(value)))
    ensures ReadConfig(out, base) == Success(e.(authToken := Trim(value)))
            <==> !IsOverruled(Split(text, 0), Token) || Trim(value) == e.authToken
  {
    SafeIsPlain(value);
    SavedSettingReadsBack(text, Token, value, out, base, e);
  }

  /** A file with a token line and a later one under the other name. */
  function TwoNames(first: string, second: string): seq<Line> {
    [Line(Assignment("token", first), "\n"), Line(Assignment("auth_token", second), "\n")]
  }

  lemma LaterLineOverrules(lines: seq<Line>, g: Group)
    requires Proper(lines) && |lines| == 2 && Live(lines[0].content, KeyOf(g)) && Sets(lines[1].content, g)
    ensures IsOverruled(Split(Render(lines), 0), g)
  {
    SplitOfRender("", lines);
    assert "" + Render(lines) == Render(lines);
    assert IsTarget(lines, KeyOf(g), 0);
    assert Sets(Contents(lines)[1], g);
  }

  lemma OtherNameIsWritable()
    ensures Writable("auth_token") && GroupOf("auth_token") == Some(Token)
  {
    var key := "auth_token";
    assert forall i :: 0 <= i < |key| ==> 'a' <= key[i] <= 'z' || key[i] == '_';
  }

  lemma AssignmentIsOneLine(key: string, value: string)
    requires Writable(key) && Plain(value)
    ensures ProperLine(Line(Assignment(key, value), "\n"), false)
            && ProperLine(Line(Assignment(key, value), "\n"), true)
  {
    var before := key + " = ";
    assert Assignment(key, value) == before + value;
    assert '\n' !in key && '\n' !in before;
  }

  /** Saving a token into such a file changes the first line, and the second still decides. */
  lemma OtherNameOverrules(first: string, second: string)
    requires TokenIsSafe(first) && TokenIsSafe(second)
    ensures IsOverruled(Split(Render(TwoNames(first, second)), 0), Token)
  {
    SafeIsPlain(first);
    SafeIsPlain(second);
    KeysAreWritable(Token);
    OtherNameIsWritable();
    AssignmentIsOneLine("token", first);
    AssignmentIsOneLine("auth_token", second);
    AssignmentMeans("token", first);
    AssignmentMeans("auth_token", second);
    LaterLineOverrules(TwoNames(first, second), Token);
  }

  /** Two assignments of different tokens are read by their order. */
  lemma OrderCanMatter(first: string, second: string, base: Endpoint)
    requires TokenIsSafe(first) && TokenIsSafe(second) && Trim(first) != Trim(second)
    ensures ApplyLines([Assignment("token", first), Assignment("token", second)], base)
            != ApplyLines([Assignment("token", second), Assignment("token", first)], base)
  {
    SafeIsPlain(first);
    SafeIsPlain(second);
    AssignmentSets(Token, first);
    AssignmentSets(Token, second);
    LaterLineWins(Assignment("token", first), Assignment("token", second), Token, base);
    LaterLineWins(Assignment("token", second), Assignment("token", first), Token, base);
  }

  lemma SafeIsPlain(value: string)
    requires TokenIsSafe(value)
    ensures Plain(value) && TokenIsSafe(Trim(value))
  {
    var before, after := TrimParts(value);
    assert forall c :: c in Trim(value) ==> c in value;
    assert value != "" ==> value[|value| - 1] in value;
  }

  /** A pilot ID with a quote or a backslash passes the panel's check for control
      characters, and the file it is saved to is then refused whole. */
  lemma QuotedPilotIdSpoilsTheFile(text: string, value: string, out: string, base: Endpoint, e: Endpoint)
    requires IsUpsert(text, "simbrief_id", value, out) && TokenIsSafe(value) && ReadConfig(text, base) == Success(e)
    ensures ReadConfig(out, base).Failure? <==> '"' in value || '\\' in value
  {
    SafeIsPlain(value);
    SavedSettingReadsBack(text, Simbrief, value, out, base, e);
    TrimKeeps(value, '"');
    TrimKeeps(value, '\\');
  }

  lemma TrimKeeps(s: string, c: char)
    requires !IsSpace(c)
    ensures c in Trim(s) <==> c in s
  {
    var before, after := TrimParts(s);
    assert c !in before && c !in after;
  }
}
