// The editor and the reader of the config file agree: what was saved is what is
// read back, nothing else changes, and saving again only replaces the value.
module ConfigAgreement {
  import opened ByteText
  import opened EndpointUrl
  import opened EndpointConfig
  import opened ConfigReading

  // ------------------------------------------------------- texts and their lines

  predicate LooseLine(l: Line, last: bool) {
    '\n' !in l.content && (l.ending == "\n" || l.ending == "\r\n" || (l.ending == "" && last && l.content != ""))
  }

  predicate EndsInReturn(s: string) {
    s != "" && s[|s| - 1] == '\r'
  }

  /** A line as cutting a text finds it. */
  predicate ProperLine(l: Line, last: bool) {
    LooseLine(l, last) && (l.ending == "\n" ==> !EndsInReturn(l.content))
  }

  predicate Loose(lines: seq<Line>) {
    forall i :: 0 <= i < |lines| ==> LooseLine(lines[i], i == |lines| - 1)
  }

  predicate Proper(lines: seq<Line>) {
    forall i :: 0 <= i < |lines| ==> ProperLine(lines[i], i == |lines| - 1)
  }

  // A last line that ended in a lone return becomes a line with a CRLF ending
  // when it is given its newline.
  function Settled(l: Line): Line {
    if l.ending == "\n" && EndsInReturn(l.content) then Line(l.content[..|l.content| - 1], "\r\n") else l
  }

  function Tidied(lines: seq<Line>): (tidy: seq<Line>)
    ensures |tidy| == |lines| && forall i :: 0 <= i < |lines| ==> tidy[i] == Settled(lines[i])
  {
    seq(|lines|, i requires 0 <= i < |lines| => Settled(lines[i]))
  }

  predicate SameText(some: seq<Line>, others: seq<Line>) {
    Render(some) == Render(others)
  }

  lemma {:induction false} RenderTidied(lines: seq<Line>)
    ensures SameText(Tidied(lines), lines)
  {
    if lines != [] {
      var l := lines[0];
      RenderTidied(lines[1..]);
      RenderSettled(l, Tidied(lines[1..]), lines[1..]);
      TidiedFirst(lines);
    }
  }

  lemma TidiedFirst(lines: seq<Line>)
    requires lines != []
    ensures Tidied(lines) == [Settled(lines[0])] + Tidied(lines[1..]) && lines == [lines[0]] + lines[1..]
  {}

  lemma RenderSettled(l: Line, tidied: seq<Line>, rest: seq<Line>)
    requires SameText(tidied, rest)
    ensures SameText([Settled(l)] + tidied, [l] + rest)
  {
    RenderMore(Settled(l), tidied);
    RenderMore(l, rest);
    SettledText(l);
  }

  lemma SettledText(l: Line)
    ensures Settled(l).content + Settled(l).ending == l.content + l.ending
  {
    if Settled(l) != l {
      assert l.content == l.content[..|l.content| - 1] + "\r";
    }
  }

  lemma SplitOfLoose(lines: seq<Line>)
    requires Loose(lines)
    ensures Split(Render(lines), 0) == Tidied(lines) && Proper(Tidied(lines))
  {
    forall i | 0 <= i < |lines|
      ensures ProperLine(Tidied(lines)[i], i == |lines| - 1)
    {
      assert LooseLine(lines[i], i == |lines| - 1);
    }
    RenderTidied(lines);
    SplitOfRender("", Tidied(lines));
    assert "" + Render(lines) == Render(lines);
  }

  lemma {:induction false} SplitIsProper(text: string, from: nat)
    requires from <= |text|
    ensures Proper(Split(text, from))
    decreases |text| - from
  {
    var n := Find(text, '\n', from);
    if n < |text| {
      SplitIsProper(text, n + 1);
      assert ProperLine(LineBetween(text, from, n), false);
    }
  }

  /** The lines are the text from there on. */
  predicate Renders(lines: seq<Line>, text: string, from: nat)
    requires from <= |text|
  {
    Render(lines) == text[from..]
  }

  lemma {:induction false} RenderOfSplit(text: string, from: nat)
    requires from <= |text|
    ensures Renders(Split(text, from), text, from)
    decreases |text| - from
  {
    var n := Find(text, '\n', from);
    if from < |text| {
      SplitFrom(text, from);
      if n < |text| {
        RenderOfSplit(text, n + 1);
        RenderFrom(text, from, n, Split(text, n + 1));
      } else {
        RenderOne(text[from..]);
      }
    }
  }

  lemma RenderFrom(text: string, from: nat, n: nat, rest: seq<Line>)
    requires from <= n < |text| && text[n] == '\n' && Renders(rest, text, n + 1)
    ensures Renders([LineBetween(text, from, n)] + rest, text, from)
  {
    RenderMore(LineBetween(text, from, n), rest);
    LineIsWhole(text, from, n);
  }

  lemma LineIsWhole(text: string, from: nat, n: nat)
    requires from <= n < |text| && text[n] == '\n'
    ensures var l := LineBetween(text, from, n); l.content + l.ending + text[n + 1..] == text[from..]
  {
    var l := LineBetween(text, from, n);
    assert l.content + l.ending == text[from..n + 1];
    assert text[from..n + 1] + text[n + 1..] == text[from..];
  }

  lemma RenderOne(content: string)
    ensures Render([Line(content, "")]) == content
  {
    RenderMore(Line(content, ""), []);
    assert [Line(content, "")] + [] == [Line(content, "")];
  }

  lemma RenderMore(l: Line, lines: seq<Line>)
    ensures Render([l] + lines) == l.content + l.ending + Render(lines)
  {
    assert ([l] + lines)[1..] == lines;
  }

  lemma {:induction false} SplitOfRender(before: string, lines: seq<Line>)
    requires Proper(lines)
    ensures Split(before + Render(lines), |before|) == lines
    decreases |lines|
  {
    if lines == [] {
      assert before + Render(lines) == before;
    } else {
      var l, rest := lines[0], Render(lines[1..]);
      if l.ending == "" {
        assert lines == [l];
        LastLineIsSplit(before, l);
      } else {
        var next := before + l.content + l.ending;
        ProperTail(lines);
        SplitOfRender(next, lines[1..]);
        LineIsSplit(before, l, rest, next + rest, |next| - 1);
      }
      Regrouped(before, l.content, l.ending, rest);
    }
  }

  lemma ProperTail(lines: seq<Line>)
    requires Proper(lines) && lines != []
    ensures Proper(lines[1..]) && lines == [lines[0]] + lines[1..] && ProperLine(lines[0], |lines| == 1)
  {
    forall i | 0 <= i < |lines| - 1
      ensures ProperLine(lines[1..][i], i == |lines| - 2)
    {
      assert ProperLine(lines[i + 1], i + 1 == |lines| - 1);
    }
  }

  lemma LastLineIsSplit(before: string, l: Line)
    requires ProperLine(l, true) && l.ending == ""
    ensures Split(before + l.content + "" + "", |before|) == [l]
  {
    NoMoreNewlines(before, l.content);
    assert before + l.content + "" + "" == before + l.content;
    assert (before + l.content)[|before|..] == l.content;
  }

  /** The first line from there on is l, and the next begins at `next`. */
  predicate SplitsFirst(text: string, from: nat, l: Line, next: nat)
    requires from <= |text| && next <= |text|
  {
    Split(text, from) == [l] + Split(text, next)
  }

  lemma LineIsSplit(before: string, l: Line, rest: string, text: string, n: nat)
    requires ProperLine(l, false)
    requires text == before + l.content + l.ending + rest && n == |before + l.content + l.ending| - 1
    ensures n < |text| && SplitsFirst(text, |before|, l, n + 1)
  {
    FirstLineIs(before, l, rest, text, n);
    FirstIsSplit(text, |before|, n, l);
  }

  lemma FirstLineIs(before: string, l: Line, rest: string, text: string, n: nat)
    requires ProperLine(l, false)
    requires text == before + l.content + l.ending + rest && n == |before + l.content + l.ending| - 1
    ensures |before| <= n < |text| && Find(text, '\n', |before|) == n && LineBetween(text, |before|, n) == l
  {
    EndsAt(before, l, rest);
    BetweenIs(before, l, rest);
  }

  lemma FirstIsSplit(text: string, from: nat, n: nat, l: Line)
    requires from <= n < |text| && Find(text, '\n', from) == n && LineBetween(text, from, n) == l
    ensures SplitsFirst(text, from, l, n + 1)
  {
    SplitFrom(text, from);
  }

  lemma BetweenIs(before: string, l: Line, rest: string)
    requires ProperLine(l, false)
    requires var next := before + l.content + l.ending;
             |next| - 1 > |before| && (next + rest)[|next| - 2] == '\r' <==> l.ending == "\r\n"
    ensures var next := before + l.content + l.ending;
            LineBetween(next + rest, |before|, |next| - 1) == l
  {
    var text := before + l.content + l.ending + rest;
    assert text[|before|..|before| + |l.content|] == l.content;
  }

  lemma EndsAt(before: string, l: Line, rest: string)
    requires ProperLine(l, false)
    ensures var next := before + l.content + l.ending;
            Find(next + rest, '\n', |before|) == |next| - 1
            && (|next| - 1 > |before| && (next + rest)[|next| - 2] == '\r' <==> l.ending == "\r\n")
  {
    var next := before + l.content + l.ending;
    var text, n := next + rest, |next| - 1;
    assert text[n] == '\n';
    assert forall i :: |before| <= i < |before| + |l.content| ==> text[i] == l.content[i - |before|];
    FindIs(text, '\n', |before|, n);
  }

  // --------------------------------------------------- both cut the same lines

  function Contents(lines: seq<Line>): (c: seq<string>)
    ensures |c| == |lines| && forall i :: 0 <= i < |c| ==> c[i] == lines[i].content
  {
    seq(|lines|, i requires 0 <= i < |lines| => lines[i].content)
  }

  lemma ReturnIsSpace(s: string)
    ensures Trim(s + "\r") == Trim(s)
  {
    var before, after := TrimParts(s);
    TrimIs(before, Trim(s), after + "\r");
    assert before + Trim(s) + (after + "\r") == s + "\r";
  }

  /** A carriage return at the end of a line does not matter, nor does an empty line. */
  ghost predicate Forgiving(read: Reader) {
    (forall e, s :: read(e, s + "\r") == read(e, s)) && forall e :: read(e, "") == Success(e)
  }

  lemma BetweenReadsAlike(text: string, from: nat, n: nat, e: Endpoint, read: Reader)
    requires from <= n <= |text| && Forgiving(read)
    ensures read(e, LineBetween(text, from, n).content) == read(e, text[from..n])
  {
    if n > from && text[n - 1] == '\r' {
      assert text[from..n] == text[from..n - 1] + "\r";
    }
  }

  lemma {:induction false} ReaderSeesTheSameLines(text: string, from: nat, e: Endpoint, read: Reader)
    requires from <= |text| && Forgiving(read)
    ensures ReadLines(RawLines(text, from), e, read) == ReadLines(Contents(Split(text, from)), e, read)
    decreases |text| - from
  {
    var n := Find(text, '\n', from);
    var first := read(e, text[from..n]);
    if from == |text| {
      NothingToRead(text, e, read);
    } else {
      if first.Success? && n < |text| {
        ReaderSeesTheSameLines(text, n + 1, first.value, read);
      }
      SameFromHere(text, from, e, read);
    }
  }

  lemma NothingToRead(text: string, e: Endpoint, read: Reader)
    requires Forgiving(read)
    ensures ReadLines(RawLines(text, |text|), e, read) == ReadLines(Contents(Split(text, |text|)), e, read)
  {
    FirstLineIsRead(text, |text|, e, read);
    assert Contents(Split(text, |text|)) == [] && text[|text|..|text|] == "";
  }

  lemma SameFromHere(text: string, from: nat, e: Endpoint, read: Reader)
    requires from < |text| && Forgiving(read)
    requires var n := Find(text, '\n', from);
             var first := read(e, text[from..n]);
             first.Success? && n < |text| ==>
               ReadLines(RawLines(text, n + 1), first.value, read)
                 == ReadLines(Contents(Split(text, n + 1)), first.value, read)
    ensures ReadLines(RawLines(text, from), e, read) == ReadLines(Contents(Split(text, from)), e, read)
  {
    FirstLineIsRead(text, from, e, read);
    FirstContentIsRead(text, from, e, read);
  }

  lemma FirstContentIsRead(text: string, from: nat, e: Endpoint, read: Reader)
    requires from < |text| && Forgiving(read)
    ensures var n := Find(text, '\n', from);
            var first := read(e, text[from..n]);
            ReadLines(Contents(Split(text, from)), e, read)
            == if first.Failure? || n == |text| then first
               else ReadLines(Contents(Split(text, n + 1)), first.value, read)
  {
    if Find(text, '\n', from) == |text| {
      LastContentIsRead(text, from, e, read);
    } else {
      NextContentIsRead(text, from, e, read);
    }
  }

  lemma LastContentIsRead(text: string, from: nat, e: Endpoint, read: Reader)
    requires from < |text| && Find(text, '\n', from) == |text|
    ensures ReadLines(Contents(Split(text, from)), e, read) == read(e, text[from..|text|])
  {
    SplitFrom(text, from);
    ContentsMore(Line(text[from..], ""), []);
    ReadFirst(text[from..|text|], [], e, read);
    OneLine(text, from);
  }

  lemma NextContentIsRead(text: string, from: nat, e: Endpoint, read: Reader)
    requires from < |text| && Find(text, '\n', from) < |text| && Forgiving(read)
    ensures var n := Find(text, '\n', from);
            var first := read(e, text[from..n]);
            ReadLines(Contents(Split(text, from)), e, read)
            == if first.Failure? then first else ReadLines(Contents(Split(text, n + 1)), first.value, read)
  {
    var n := Find(text, '\n', from);
    SplitFrom(text, from);
    FirstOfMoreIsRead(LineBetween(text, from, n), Split(text, n + 1), e, read);
    BetweenReadsAlike(text, from, n, e, read);
  }

  lemma FirstOfMoreIsRead(l: Line, lines: seq<Line>, e: Endpoint, read: Reader)
    ensures var first := read(e, l.content);
            ReadLines(Contents([l] + lines), e, read)
            == if first.Failure? then first else ReadLines(Contents(lines), first.value, read)
  {
    ContentsMore(l, lines);
    ReadFirst(l.content, Contents(lines), e, read);
  }

  lemma OneLine(text: string, from: nat)
    requires from <= |text|
    ensures text[from..|text|] == text[from..] && [Line(text[from..], "")] + [] == [Line(text[from..], "")]
    ensures Contents([]) == []
  {}

  lemma ContentsMore(l: Line, lines: seq<Line>)
    ensures Contents([l] + lines) == [l.content] + Contents(lines)
  {}

  lemma ReadingIsForgiving()
    ensures Forgiving(ApplyLine)
  {
    forall e: Endpoint, s: string
      ensures ApplyLine(e, s + "\r") == ApplyLine(e, s)
    {
      ReturnIsSpace(s);
      assert SettingOf(s + "\r") == SettingOf(s);
    }
    assert SettingOf("") == None;
  }

  lemma ReadingSplitLines(text: string, base: Endpoint)
    ensures ReadConfig(text, base) == ApplyLines(Contents(Split(text, 0)), base)
  {
    ReadingIsForgiving();
    ReaderSeesTheSameLines(text, 0, base, ApplyLine);
  }

  // ------------------------------------------------------- the line that is written

  predicate Writable(key: string) {
    && key != "" && !IsComment(key) && Trimmed(key)
    && forall c :: c in key ==> c != '=' && c != ':' && c != '\n' && !('A' <= c <= 'Z')
  }

  lemma {:induction false} SeparatorIs(before: string, rest: string)
    requires '=' !in before && ':' !in before
    ensures Separator(before + "=" + rest) == |before|
  {
    if before != "" {
      assert (before + "=" + rest)[1..] == before[1..] + "=" + rest;
      SeparatorIs(before[1..], rest);
    }
  }

  lemma AssignmentIsTrimmed(key: string, value: string) returns (tail: string)
    requires Writable(key)
    ensures Trim(Assignment(key, value)) == key + " =" + tail && Trim(tail) == Trim(value)
  {
    var before, after := TrimParts(value);
    var v := Trim(value);
    if v == "" {
      tail := "";
      TrimIs("", key + " =", " " + before + after);
      assert "" + (key + " =") + (" " + before + after) == Assignment(key, value);
    } else {
      tail := " " + before + v;
      TrimIs("", key + " =" + tail, after);
      assert "" + (key + " =" + tail) + after == Assignment(key, value);
      TrimIs(" " + before, v, "");
      assert " " + before + v + "" == tail;
    }
  }

  lemma LowerIsItself(key: string)
    requires forall c :: c in key ==> !('A' <= c <= 'Z')
    ensures Lower(key) == key
  {
    forall i | 0 <= i < |key|
      ensures Lower(key)[i] == key[i]
    {
      assert key[i] in key;
    }
  }

  /** A written line assigns the key the value without the spaces around it. */
  lemma AssignmentMeans(key: string, value: string)
    requires Writable(key)
    ensures MeaningOf(Assignment(key, value)) == Assigns(key, Trim(value))
  {
    var tail := AssignmentIsTrimmed(key, value);
    var line := key + " =" + tail;
    assert line == (key + " ") + "=" + tail;
    SeparatorIs(key + " ", tail);
    TrimIs("", key, " ");
    LowerIsItself(key);
    assert line[..|key| + 1] == "" + key + " " && line[|key| + 2..] == tail;
    assert line[0] == key[0];
  }

  // ------------------------------------------------------------ the lines left

  predicate Plain(value: string) {
    '\n' !in value && !EndsInReturn(value)
  }

  lemma RewrittenIsLoose(lines: seq<Line>, t: nat, key: string, value: string)
    requires Proper(lines) && t < |lines| && Writable(key) && Plain(value)
    ensures Loose(Rewritten(lines, t, Assignment(key, value)))
    ensures Contents(Rewritten(lines, t, Assignment(key, value))) == Contents(lines)[t := Assignment(key, value)]
  {
    var a, out := Assignment(key, value), Rewritten(lines, t, Assignment(key, value));
    assert '\n' !in a && a != "";
    forall i | 0 <= i < |out|
      ensures LooseLine(out[i], i == |out| - 1)
    {
      assert ProperLine(lines[i], i == |lines| - 1);
    }
  }

  lemma AppendedIsLoose(lines: seq<Line>, newline: string, key: string, value: string)
    requires Proper(lines) && (newline == "\n" || newline == "\r\n") && Writable(key) && Plain(value)
    ensures Loose(Appended(lines, Assignment(key, value), newline))
    ensures Contents(Appended(lines, Assignment(key, value), newline)) == Contents(lines) + [Assignment(key, value)]
  {
    var a, out := Assignment(key, value), Appended(lines, Assignment(key, value), newline);
    assert '\n' !in a && a != "";
    forall i | 0 <= i < |out|
      ensures LooseLine(out[i], i == |out| - 1)
    {
      if i < |lines| {
        assert ProperLine(lines[i], i == |lines| - 1);
      }
    }
  }
}
