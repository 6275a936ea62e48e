// src/tts/synthesis.cpp: a transmission cut where a controller would draw breath.
module SentenceCutting {
  const MIN_SENTENCE_WORDS := 3

  predicate Blank(c: char) {
    c == ' ' || c == '\t' || c == '\n' || c == '\r'
  }

  // ------------------------------------------------------------------- words

  function WordEnd(s: string): (n: nat)
    ensures n <= |s| && (n < |s| ==> Blank(s[n])) && (s != "" && !Blank(s[0]) ==> n > 0)
    ensures forall i :: 0 <= i < n ==> !Blank(s[i])
  {
    if s == "" || Blank(s[0]) then 0 else 1 + WordEnd(s[1..])
  }

  /** The words of a text: its longest runs without a blank. */
  function Words(s: string): seq<string>
    decreases |s|
  {
    if s == "" then []
    else if Blank(s[0]) then Words(s[1..])
    else [s[..WordEnd(s)]] + Words(s[WordEnd(s)..])
  }

  lemma {:induction false} WordEndIs(s: string, n: nat)
    requires n <= |s| && (n < |s| ==> Blank(s[n])) && forall i :: 0 <= i < n ==> !Blank(s[i])
    ensures WordEnd(s) == n
  {
    if n > 0 {
      WordEndIs(s[1..], n - 1);
    }
  }

  /** No word crosses a blank, so two texts that meet at one have their own words. */
  lemma {:induction false} WordsMeet(a: string, b: string)
    requires a == "" || b == "" || Blank(a[|a| - 1]) || Blank(b[0])
    ensures Words(a + b) == Words(a) + Words(b)
    decreases |a|
  {
    if a == "" {
      assert a + b == b;
    } else if b == "" {
      assert a + b == a;
    } else if Blank(a[0]) {
      BlankFirst(a, b);
      WordsMeet(a[1..], b);
    } else {
      var n := WordEnd(a);
      FirstWordStays(a, b);
      WordsMeet(a[n..], b);
      Grouped([a[..n]], Words(a[n..]), Words(b));
    }
  }

  lemma BlankFirst(a: string, b: string)
    requires a != "" && Blank(a[0])
    ensures Words(a + b) == Words(a[1..] + b) && Words(a) == Words(a[1..])
  {
    assert (a + b)[1..] == a[1..] + b;
  }

  lemma FirstWordStays(a: string, b: string)
    requires a != "" && !Blank(a[0]) && b != "" && (Blank(a[|a| - 1]) || Blank(b[0]))
    ensures Words(a + b) == [a[..WordEnd(a)]] + Words(a[WordEnd(a)..] + b)
    ensures Words(a) == [a[..WordEnd(a)]] + Words(a[WordEnd(a)..])
  {
    var n := WordEnd(a);
    WordEndIs(a + b, n);
    assert (a + b)[..n] == a[..n] && (a + b)[n..] == a[n..] + b;
  }

  lemma Grouped(a: seq<string>, b: seq<string>, c: seq<string>)
    ensures a + b + c == a + (b + c)
  {}

  lemma {:induction false} NoWordsInBlanks(s: string)
    requires forall i :: 0 <= i < |s| ==> Blank(s[i])
    ensures Words(s) == []
  {
    if s != "" {
      NoWordsInBlanks(s[1..]);
    }
  }

  /** The words so far, when the last one may still be growing. */
  lemma WordsOfMore(s: string, c: char)
    ensures |Words(s + [c])| == |Words(s)| + if !Blank(c) && (s == "" || Blank(s[|s| - 1])) then 1 else 0
  {
    if s == "" || Blank(s[|s| - 1]) || Blank(c) {
      WordsMeet(s, [c]);
      OneChar(c);
    } else {
      LastWordGrows(s, c);
    }
  }

  lemma OneChar(c: char)
    ensures |Words([c])| == if Blank(c) then 0 else 1
  {
    if !Blank(c) {
      WordEndIs([c], 1);
      assert [c][1..] == "";
    }
  }

  lemma {:induction false} LastWordGrows(s: string, c: char)
    requires s != "" && !Blank(s[|s| - 1]) && !Blank(c)
    ensures |Words(s + [c])| == |Words(s)|
    decreases |s|
  {
    var t := s + [c];
    if Blank(s[0]) {
      assert t[1..] == s[1..] + [c];
      LastWordGrows(s[1..], c);
    } else {
      var n := WordEnd(s);
      if n < |s| {
        WordEndIs(t, n);
        assert t[n..] == s[n..] + [c];
        LastWordGrows(s[n..], c);
      } else {
        WordEndIs(t, |t|);
        assert t[|t|..] == "" && s[|s|..] == "";
      }
    }
  }

  method WordCount(text: string) returns (words: nat)
    ensures words == |Words(text)|
  {
    words := 0;
    var inWord := false;
    for i := 0 to |text|
      invariant words == |Words(text[..i])|
      invariant inWord <==> i > 0 && !Blank(text[i - 1])
    {
      assert text[..i + 1] == text[..i] + [text[i]];
      WordsOfMore(text[..i], text[i]);
      if !Blank(text[i]) && !inWord {
        words := words + 1;
      }
      inWord := !Blank(text[i]);
    }
    assert text[..|text|] == text;
  }

  // ---------------------------------------------------------------- trimming

  function FirstInk(s: string): (n: nat)
    ensures n <= |s| && (n < |s| ==> !Blank(s[n])) && forall i :: 0 <= i < n ==> Blank(s[i])
  {
    if s == "" || !Blank(s[0]) then 0 else 1 + FirstInk(s[1..])
  }

  function LastInk(s: string): (n: nat)
    ensures n <= |s| && (n > 0 ==> !Blank(s[n - 1])) && forall i :: n <= i < |s| ==> Blank(s[i])
  {
    if s == "" || !Blank(s[|s| - 1]) then |s| else LastInk(s[..|s| - 1])
  }

  function Trimmed(s: string): string {
    if FirstInk(s) == |s| then "" else s[FirstInk(s)..LastInk(s)]
  }

  lemma InkIsOrdered(s: string)
    ensures FirstInk(s) < |s| ==> FirstInk(s) < LastInk(s)
  {}

  lemma TrimKeepsWords(s: string)
    ensures Words(Trimmed(s)) == Words(s)
    ensures Trimmed(s) == "" <==> Words(s) == []
  {
    var first, last := FirstInk(s), LastInk(s);
    if first == |s| {
      NoWordsInBlanks(s);
    } else {
      InkIsOrdered(s);
      InkParts(s, first, last);
      InkHasTheWords(s[..first], s[first..last], s[last..]);
    }
  }

  lemma InkParts(s: string, first: nat, last: nat)
    requires first < last <= |s|
    ensures s == s[..first] + (s[first..last] + s[last..]) && s[first..last][0] == s[first]
  {}

  lemma InkHasTheWords(head: string, ink: string, tail: string)
    requires ink != "" && !Blank(ink[0])
    requires forall i :: 0 <= i < |head| ==> Blank(head[i])
    requires forall i :: 0 <= i < |tail| ==> Blank(tail[i])
    ensures Words(head + (ink + tail)) == Words(ink) && Words(ink) != []
  {
    NoWordsInBlanks(head);
    NoWordsInBlanks(tail);
    WordsMeet(ink, tail);
    WordsMeet(head, ink + tail);
    NoneAround(Words(ink));
  }

  lemma NoneAround(words: seq<string>)
    ensures words + [] == words && [] + words == words
  {}

  lemma JoinedWords(a: string, b: string)
    ensures Words(a + " " + b) == Words(a) + Words(b)
  {
    WordsMeet(a + " ", b);
    WordsMeet(a, " ");
    NoWordsInBlanks(" ");
  }

  // --------------------------------------------------------------- sentences

  predicate EndsSentence(text: string, i: nat)
    requires i < |text|
  {
    (text[i] == '.' || text[i] == '?' || text[i] == '!') && (i + 1 == |text| || text[i + 1] == ' ')
  }

  predicate Short(piece: string) {
    |Words(piece)| < MIN_SENTENCE_WORDS
  }

  /** A short piece goes with the one before it. */
  function WithPiece(pieces: seq<string>, piece: string): seq<string> {
    var last := |pieces| - 1;
    if piece == "" then pieces
    else if pieces != [] && Short(piece) then pieces[last := pieces[last] + " " + piece]
    else pieces + [piece]
  }

  function CutFrom(text: string, start: nat, i: nat, pieces: seq<string>): seq<string>
    requires start <= i <= |text|
    decreases |text| - i
  {
    if i == |text| then WithPiece(pieces, Trimmed(text[start..i]))
    else if EndsSentence(text, i) then CutFrom(text, i + 1, i + 1, WithPiece(pieces, Trimmed(text[start..i + 1])))
    else CutFrom(text, start, i + 1, pieces)
  }

  /** A short opening goes with what follows it. */
  function WithOpening(pieces: seq<string>): seq<string> {
    if |pieces| > 1 && Short(pieces[0]) then [pieces[0] + " " + pieces[1]] + pieces[2..] else pieces
  }

  function Sentences(text: string): seq<string> {
    WithOpening(CutFrom(text, 0, 0, []))
  }

  method AddPiece(pieces: seq<string>, piece: string) returns (out: seq<string>)
    ensures out == WithPiece(pieces, piece)
  {
    out := pieces;
    if piece == "" {
      return;
    }
    var words := WordCount(piece);
    if out != [] && words < MIN_SENTENCE_WORDS {
      out := out[|out| - 1 := out[|out| - 1] + " " + piece];
    } else {
      out := out + [piece];
    }
  }

  method CutSentences(text: string) returns (out: seq<string>)
    ensures out == Sentences(text)
  {
    out := [];
    var current := "";
    ghost var start, cut := 0, CutFrom(text, 0, 0, []);
    for i := 0 to |text|
      invariant start <= i && current == text[start..i]
      invariant CutFrom(text, start, i, out) == cut
    {
      current := current + [text[i]];
      assert current == text[start..i + 1];
      if EndsSentence(text, i) {
        out := AddPiece(out, Trimmed(current));
        current := "";
        start := i + 1;
      }
    }
    out := AddPiece(out, Trimmed(current));
    if |out| > 1 {
      var words := WordCount(out[0]);
      if words < MIN_SENTENCE_WORDS {
        out := out[1 := out[0] + " " + out[1]];
        out := out[1..];
      }
    }
  }

  // ------------------------------------------------- nothing lost, no stub left

  function AllWords(pieces: seq<string>): seq<string> {
    if pieces == [] then [] else AllWords(pieces[..|pieces| - 1]) + Words(pieces[|pieces| - 1])
  }

  lemma WithPieceWords(pieces: seq<string>, piece: string)
    ensures AllWords(WithPiece(pieces, piece)) == AllWords(pieces) + Words(piece)
  {
    var last := |pieces| - 1;
    if piece != "" && pieces != [] && Short(piece) {
      JoinedWords(pieces[last], piece);
      assert WithPiece(pieces, piece)[..last] == pieces[..last];
    } else if piece != "" {
      assert (pieces + [piece])[..|pieces|] == pieces;
    }
  }

  // A piece starts the text or at a blank, so cutting there splits no word.
  predicate StartsAPiece(text: string, start: nat) {
    start <= |text| && (start == 0 || start == |text| || text[start] == ' ')
  }

  lemma CutWords(text: string, start: nat, i: nat)
    requires StartsAPiece(text, start) && start <= i <= |text|
    ensures Words(text[..start]) + Words(text[start..i]) == Words(text[..i])
  {
    assert text[..i] == text[..start] + text[start..i];
    WordsMeet(text[..start], text[start..i]);
  }

  /** The pieces hold the words of the text up to n. */
  predicate Hold(pieces: seq<string>, text: string, n: nat)
    requires n <= |text|
  {
    AllWords(pieces) == Words(text[..n])
  }

  lemma {:induction false} CutFromKeepsWords(text: string, start: nat, i: nat, pieces: seq<string>)
    requires StartsAPiece(text, start) && start <= i <= |text| && Hold(pieces, text, start)
    ensures Hold(CutFrom(text, start, i, pieces), text, |text|)
    decreases |text| - i
  {
    if i == |text| {
      CutKeepsWords(text, start, |text|, pieces);
      CutEnds(text, start, pieces);
    } else if EndsSentence(text, i) {
      var next := WithPiece(pieces, Trimmed(text[start..i + 1]));
      CutKeepsWords(text, start, i + 1, pieces);
      CutFromKeepsWords(text, i + 1, i + 1, next);
      CutsHere(text, start, i, pieces);
    } else {
      CutFromKeepsWords(text, start, i + 1, pieces);
      CutsLater(text, start, i, pieces);
    }
  }

  lemma CutEnds(text: string, start: nat, pieces: seq<string>)
    requires start <= |text|
    ensures CutFrom(text, start, |text|, pieces) == WithPiece(pieces, Trimmed(text[start..|text|]))
  {}

  lemma CutsHere(text: string, start: nat, i: nat, pieces: seq<string>)
    requires start <= i < |text| && EndsSentence(text, i)
    ensures CutFrom(text, start, i, pieces)
            == CutFrom(text, i + 1, i + 1, WithPiece(pieces, Trimmed(text[start..i + 1])))
  {}

  lemma CutsLater(text: string, start: nat, i: nat, pieces: seq<string>)
    requires start <= i < |text| && !EndsSentence(text, i)
    ensures CutFrom(text, start, i, pieces) == CutFrom(text, start, i + 1, pieces)
  {}

  lemma CutKeepsWords(text: string, start: nat, end: nat, pieces: seq<string>)
    requires StartsAPiece(text, start) && start <= end <= |text| && Hold(pieces, text, start)
    ensures Hold(WithPiece(pieces, Trimmed(text[start..end])), text, end)
  {
    TrimKeepsWords(text[start..end]);
    WithPieceWords(pieces, Trimmed(text[start..end]));
    CutWords(text, start, end);
  }

  lemma {:induction false} AllWordsOfMore(first: string, pieces: seq<string>)
    ensures AllWords([first] + pieces) == Words(first) + AllWords(pieces)
  {
    var last := |pieces| - 1;
    if pieces == [] {
      assert ([first] + pieces)[..0] == [];
    } else {
      assert ([first] + pieces)[..|pieces|] == [first] + pieces[..last];
      AllWordsOfMore(first, pieces[..last]);
    }
  }

  lemma OpeningKeepsWords(pieces: seq<string>)
    ensures AllWords(WithOpening(pieces)) == AllWords(pieces)
  {
    if |pieces| > 1 && Short(pieces[0]) {
      JoinedWords(pieces[0], pieces[1]);
      AllWordsOfMore(pieces[0] + " " + pieces[1], pieces[2..]);
      AllWordsOfMore(pieces[1], pieces[2..]);
      AllWordsOfMore(pieces[0], [pieces[1]] + pieces[2..]);
      assert pieces == [pieces[0]] + ([pieces[1]] + pieces[2..]);
    }
  }

  /** The words of the pieces, in order, are the words of the text. */
  lemma NothingIsLost(text: string)
    ensures AllWords(Sentences(text)) == Words(text)
  {
    assert text[..0] == "" && text[..|text|] == text;
    CutFromKeepsWords(text, 0, 0, []);
    OpeningKeepsWords(CutFrom(text, 0, 0, []));
  }

  predicate LongAfterFirst(pieces: seq<string>) {
    (forall k :: 1 <= k < |pieces| ==> !Short(pieces[k])) && (pieces != [] ==> Words(pieces[0]) != [])
  }

  lemma WithPieceStaysLong(pieces: seq<string>, s: string)
    requires LongAfterFirst(pieces)
    ensures LongAfterFirst(WithPiece(pieces, Trimmed(s)))
  {
    TrimKeepsWords(s);
    if pieces != [] {
      JoinedWords(pieces[|pieces| - 1], Trimmed(s));
    }
  }

  lemma {:induction false} CutFromStaysLong(text: string, start: nat, i: nat, pieces: seq<string>)
    requires start <= i <= |text| && LongAfterFirst(pieces)
    ensures LongAfterFirst(CutFrom(text, start, i, pieces))
    decreases |text| - i
  {
    if i == |text| {
      WithPieceStaysLong(pieces, text[start..i]);
    } else if EndsSentence(text, i) {
      var next := WithPiece(pieces, Trimmed(text[start..i + 1]));
      WithPieceStaysLong(pieces, text[start..i + 1]);
      CutFromStaysLong(text, i + 1, i + 1, next);
      assert CutFrom(text, start, i, pieces) == CutFrom(text, i + 1, i + 1, next);
    } else {
      CutFromStaysLong(text, start, i + 1, pieces);
    }
  }

  /** At most one piece, or no piece shorter than three words; and never an empty one. */
  lemma NoStubIsLeft(text: string)
    ensures var pieces := Sentences(text);
            (|pieces| <= 1 || forall k :: 0 <= k < |pieces| ==> |Words(pieces[k])| >= MIN_SENTENCE_WORDS)
            && (forall k :: 0 <= k < |pieces| ==> Words(pieces[k]) != [])
  {
    var cut := CutFrom(text, 0, 0, []);
    CutFromStaysLong(text, 0, 0, []);
    if |cut| > 1 {
      JoinedWords(cut[0], cut[1]);
    }
  }

  /** A text gives no piece exactly when it has no word. */
  lemma SilenceHasNoSentence(text: string)
    ensures Sentences(text) == [] <==> Words(text) == []
  {
    NothingIsLost(text);
    NoStubIsLeft(text);
  }
}
