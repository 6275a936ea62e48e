// Where a transmission is cut, said of the words of the text alone: behind the
// end of a sentence, between three words and three words, and nowhere else.
module SentenceBreaks {
  import opened SentenceCutting

  /** A full stop, a question or an exclamation mark with a space or nothing behind it. */
  predicate Ends(text: string, i: int)
    requires 0 <= i < |text|
  {
    text[i] in {'.', '?', '!'} && (i == |text| - 1 || text[i + 1] == ' ')
  }

  /** Where the sentence that begins at i is over. */
  function Over(text: string, i: nat): (n: nat)
    requires i <= |text|
    ensures i <= n <= |text|
    ensures n < |text| ==> i < n && Ends(text, n - 1)
    ensures forall k :: i <= k < n - 1 ==> !Ends(text, k)
    decreases |text| - i
  {
    if i == |text| then i else if Ends(text, i) then i + 1 else Over(text, i + 1)
  }

  /** The number of words up to the end of a sentence, behind which another of three words or more comes. */
  predicate BreathAt(text: string, i: int, words: nat)
    requires 0 <= i < |text|
  {
    Ends(text, i) && |Words(text[..i + 1])| == words && |Words(text[i + 1..Over(text, i + 1)])| >= 3
  }

  /** A piece ends behind so many words, and another follows. */
  predicate BreaksAt(pieces: seq<string>, words: nat) {
    exists m :: 1 <= m < |pieces| && |AllWords(pieces[..m])| == words
  }

  lemma OverIs(text: string, i: nat, n: nat)
    requires i <= n < |text| && Ends(text, n) && forall k :: i <= k < n ==> !Ends(text, k)
    ensures Over(text, i) == n + 1
  {}

  lemma OverAtLast(text: string, i: nat)
    requires i <= |text| && forall k :: i <= k < |text| ==> !Ends(text, k)
    ensures Over(text, i) == |text|
  {}

  lemma SameBreaks(pieces: seq<string>, more: seq<string>, words: nat)
    requires |more| == |pieces| && forall i :: 0 <= i < |pieces| - 1 ==> more[i] == pieces[i]
    ensures BreaksAt(more, words) <==> BreaksAt(pieces, words)
  {
    forall m | 1 <= m < |pieces|
      ensures more[..m] == pieces[..m]
    {}
  }

  lemma OneMoreBreak(pieces: seq<string>, piece: string, words: nat)
    requires pieces != []
    ensures BreaksAt(pieces + [piece], words) <==> BreaksAt(pieces, words) || |AllWords(pieces)| == words
  {
    var more := pieces + [piece];
    forall m | 1 <= m < |pieces|
      ensures more[..m] == pieces[..m]
    {}
    assert more[..|pieces|] == pieces;
  }

  /** A piece is a new one exactly when it has three words or more. */
  lemma PieceBreaks(pieces: seq<string>, raw: string, words: nat)
    ensures BreaksAt(WithPiece(pieces, Trimmed(raw)), words)
            <==> BreaksAt(pieces, words) || (pieces != [] && |Words(raw)| >= 3 && |AllWords(pieces)| == words)
  {
    var piece, more := Trimmed(raw), WithPiece(pieces, Trimmed(raw));
    TrimKeepsWords(raw);
    if piece != "" && pieces != [] && Short(piece) {
      SameBreaks(pieces, more, words);
    } else if piece != "" && pieces != [] {
      OneMoreBreak(pieces, piece, words);
    }
  }

  /** The pieces hold the words before `start`, where a sentence begins. */
  predicate Begun(text: string, start: nat, pieces: seq<string>) {
    && StartsAPiece(text, start) && Hold(pieces, text, start)
    && (if start == 0 then pieces == [] else Ends(text, start - 1) && pieces != [])
  }

  predicate Unended(text: string, start: nat, i: nat) {
    start <= i <= |text| && forall k :: start <= k < i ==> !Ends(text, k)
  }

  /** A break behind a sentence that ends at or behind `from`. */
  predicate BreathFrom(text: string, from: int, words: nat) {
    exists j :: 0 <= j < |text| && from <= j && BreathAt(text, j, words)
  }

  lemma FirstBreath(text: string, start: nat, end: nat, words: nat)
    requires start < end <= |text| && Over(text, start) == end
    ensures BreathFrom(text, start - 1, words)
            <==> BreathFrom(text, end - 1, words) || (start > 0 && BreathAt(text, start - 1, words))
  {
    if BreathFrom(text, start - 1, words) {
      var j :| 0 <= j < |text| && start - 1 <= j && BreathAt(text, j, words);
      assert j >= end - 1 || j == start - 1;
    }
  }

  lemma {:induction false} CutBreaks(text: string, start: nat, i: nat, pieces: seq<string>, words: nat)
    requires Begun(text, start, pieces) && Unended(text, start, i)
    ensures BreaksAt(CutFrom(text, start, i, pieces), words)
            <==> BreaksAt(pieces, words) || BreathFrom(text, start - 1, words)
    decreases |text| - i
  {
    if i == |text| {
      LastBreaks(text, start, pieces, words);
    } else if Ends(text, i) {
      var next := WithPiece(pieces, Trimmed(text[start..i + 1]));
      NextBegun(text, start, i, pieces, next);
      CutBreaks(text, i + 1, i + 1, next, words);
      NextBreaks(text, start, i, pieces, next, words);
    } else {
      CutBreaks(text, start, i + 1, pieces, words);
      CutsLater(text, start, i, pieces);
    }
  }

  lemma NextBreaks(text: string, start: nat, i: nat, pieces: seq<string>, next: seq<string>, words: nat)
    requires Begun(text, start, pieces) && Unended(text, start, i) && i < |text| && Ends(text, i)
    requires next == WithPiece(pieces, Trimmed(text[start..i + 1]))
    ensures CutFrom(text, start, i, pieces) == CutFrom(text, i + 1, i + 1, next)
    ensures BreaksAt(next, words) || BreathFrom(text, i, words)
            <==> BreaksAt(pieces, words) || BreathFrom(text, start - 1, words)
  {
    CutsHere(text, start, i, pieces);
    OverIs(text, start, i);
    FirstBreath(text, start, i + 1, words);
    SentenceIsAPiece(text, start, i + 1, pieces, words);
  }

  lemma NextBegun(text: string, start: nat, i: nat, pieces: seq<string>, next: seq<string>)
    requires Begun(text, start, pieces) && start <= i < |text| && Ends(text, i)
    requires next == WithPiece(pieces, Trimmed(text[start..i + 1]))
    ensures Begun(text, i + 1, next)
  {
    NextIsThere(text, start, i, pieces);
    CutKeepsWords(text, start, i + 1, pieces);
  }

  lemma NextIsThere(text: string, start: nat, i: nat, pieces: seq<string>)
    requires start <= i < |text| && Ends(text, i)
    ensures WithPiece(pieces, Trimmed(text[start..i + 1])) != []
  {
    assert text[start..i + 1] == text[start..i] + [text[i]];
    SentenceIsThere(pieces, text[start..i + 1], text[start..i], text[i]);
  }

  lemma SentenceIsThere(pieces: seq<string>, sentence: string, front: string, last: char)
    requires sentence == front + [last] && !Blank(last)
    ensures WithPiece(pieces, Trimmed(sentence)) != []
  {
    InkHasAWord(front, last);
    TrimKeepsWords(sentence);
    SomePiece(pieces, Trimmed(sentence));
  }

  lemma SomePiece(pieces: seq<string>, piece: string)
    requires piece != ""
    ensures WithPiece(pieces, piece) != []
  {}

  lemma {:induction false} InkHasAWord(s: string, c: char)
    requires !Blank(c)
    ensures Words(s + [c]) != []
  {
    if s != "" {
      assert (s + [c])[1..] == s[1..] + [c];
      InkHasAWord(s[1..], c);
    }
  }

  lemma SentenceIsAPiece(text: string, start: nat, end: nat, pieces: seq<string>, words: nat)
    requires start <= end <= |text| && Over(text, start) == end && Begun(text, start, pieces)
    ensures BreaksAt(WithPiece(pieces, Trimmed(text[start..end])), words)
            <==> BreaksAt(pieces, words) || (start > 0 && BreathAt(text, start - 1, words))
  {
    PieceBreaks(pieces, text[start..end], words);
    if start > 0 {
      assert text[..start - 1 + 1] == text[..start];
    }
  }

  lemma LastBreaks(text: string, start: nat, pieces: seq<string>, words: nat)
    requires Begun(text, start, pieces) && Unended(text, start, |text|)
    ensures BreaksAt(CutFrom(text, start, |text|, pieces), words)
            <==> BreaksAt(pieces, words) || BreathFrom(text, start - 1, words)
  {
    OverAtLast(text, start);
    LastBreath(text, start, words);
    SentenceIsAPiece(text, start, |text|, pieces, words);
    assert CutFrom(text, start, |text|, pieces) == WithPiece(pieces, Trimmed(text[start..|text|]));
  }

  lemma LastBreath(text: string, start: nat, words: nat)
    requires start <= |text| && forall k :: start <= k < |text| ==> !Ends(text, k)
    ensures BreathFrom(text, start - 1, words) <==> start > 0 && BreathAt(text, start - 1, words)
  {}

  /** An opening of fewer than three words is not a piece of its own. */
  lemma OpeningBreaks(pieces: seq<string>, words: nat)
    requires LongAfterFirst(pieces)
    ensures BreaksAt(WithOpening(pieces), words) <==> BreaksAt(pieces, words) && words >= 3
  {
    if |pieces| > 1 && Short(pieces[0]) {
      OpeningJoins(pieces, words);
    } else if |pieces| > 1 {
      forall m | 1 <= m < |pieces|
        ensures |AllWords(pieces[..m])| >= 3
      {
        FirstOfWords(pieces[..m]);
      }
    }
  }

  lemma FirstOfWords(pieces: seq<string>)
    requires pieces != []
    ensures |AllWords(pieces)| == |Words(pieces[0])| + |AllWords(pieces[1..])|
  {
    AllWordsOfMore(pieces[0], pieces[1..]);
    assert [pieces[0]] + pieces[1..] == pieces;
  }

  lemma JoinedCount(first: string, second: string, rest: seq<string>)
    requires Words(first) != [] && !Short(second)
    ensures |AllWords([first + " " + second] + rest)| == |AllWords([first] + ([second] + rest))| >= 3
  {
    AllWordsOfMore(first + " " + second, rest);
    AllWordsOfMore(first, [second] + rest);
    AllWordsOfMore(second, rest);
    JoinedWords(first, second);
  }

  lemma OpeningJoins(pieces: seq<string>, words: nat)
    requires LongAfterFirst(pieces) && |pieces| > 1 && Short(pieces[0])
    ensures BreaksAt(WithOpening(pieces), words) <==> BreaksAt(pieces, words) && words >= 3
  {
    var joined := WithOpening(pieces);
    forall m | 2 <= m < |pieces|
      ensures |AllWords(joined[..m - 1])| == |AllWords(pieces[..m])| >= 3
    {
      assert joined[..m - 1] == [pieces[0] + " " + pieces[1]] + pieces[2..m];
      assert pieces[..m] == [pieces[0]] + ([pieces[1]] + pieces[2..m]);
      JoinedCount(pieces[0], pieces[1], pieces[2..m]);
    }
    FirstOfWords(pieces[..1]);
    if BreaksAt(joined, words) {
      var m :| 1 <= m < |joined| && |AllWords(joined[..m])| == words;
      assert |AllWords(pieces[..m + 1])| == words;
    }
    if BreaksAt(pieces, words) && words >= 3 {
      var m :| 1 <= m < |pieces| && |AllWords(pieces[..m])| == words;
      assert m >= 2;
      assert |AllWords(joined[..m - 1])| == words;
    }
  }

  /** For every text: one piece ends and another begins behind so many words exactly
      when a sentence ends there, at least three words stand before it, and the
      sentence behind it has at least three. */
  lemma CutWhereASentenceEnds(text: string, words: nat)
    ensures BreaksAt(Sentences(text), words)
            <==> words >= 3 && exists i :: 0 <= i < |text| && BreathAt(text, i, words)
  {
    var pieces := CutFrom(text, 0, 0, []);
    assert text[..0] == "" && Words("") == [] && AllWords([]) == [];
    CutBreaks(text, 0, 0, [], words);
    CutFromStaysLong(text, 0, 0, []);
    OpeningBreaks(pieces, words);
    assert !BreaksAt([], words);
  }
}
