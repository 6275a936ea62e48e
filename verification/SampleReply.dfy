// A reply that is said in two sentences.
module SampleReply {
  import RadioText
  import SentenceCutting
  import opened ReplyArbiter

  const TWO_SENTENCES := "a b c. d e f."

  /** A short word is said as it stands. */
  lemma ShortWordIsSaid(word: string, s: string, previous: string, out: string)
    requires RadioText.Solid(word) && |word| <= 2 && |previous| <= 2 && s != "" && s[0] == ' '
    ensures RadioText.Rest(word + s, previous, out)
            == RadioText.Rest(s[1..], RadioText.Previous(word), RadioText.Gap(out) + word)
    ensures |RadioText.Previous(word)| <= 2
  {
    RadioText.WordIsSaid(word, s, previous, out);
    RadioText.SeparatorIsSaid(s, RadioText.Previous(word), RadioText.Gap(out) + word);
    assert RadioText.SaidAs(word, false) == [word];
  }

  lemma LastWordIsSaid(word: string, previous: string, out: string)
    requires RadioText.Solid(word) && |word| <= 2 && |previous| <= 2
    ensures RadioText.Rest(word, previous, out) == RadioText.Gap(out) + word
  {
    RadioText.WordIsSaid(word, "", previous, out);
    assert word + "" == word;
    assert RadioText.SaidAs(word, false) == [word];
  }

  predicate ShortWords(words: seq<string>) {
    forall i :: 0 <= i < |words| ==> RadioText.Solid(words[i]) && |words[i]| <= 2
  }

  /** Short words, one space between them. */
  function Row(words: seq<string>): string {
    if words == [] then "" else if |words| == 1 then words[0] else words[0] + (" " + Row(words[1..]))
  }

  lemma RowMore(words: seq<string>, out: string)
    requires |words| > 1 && ShortWords(words)
    ensures Row(words) == words[0] + (" " + Row(words[1..])) && (" " + Row(words[1..]))[1..] == Row(words[1..])
    ensures RadioText.Gap(RadioText.Gap(out) + words[0]) + Row(words[1..]) == RadioText.Gap(out) + Row(words)
  {
    var gap, word, more := RadioText.Gap(out), words[0], Row(words[1..]);
    assert word != "";
    assert gap + word + " " + more == gap + (word + (" " + more));
  }

  lemma {:induction false} RowIsSaid(words: seq<string>, previous: string, out: string)
    requires words != [] && ShortWords(words) && |previous| <= 2
    ensures RadioText.Rest(Row(words), previous, out) == RadioText.Gap(out) + Row(words)
  {
    if |words| == 1 {
      LastWordIsSaid(words[0], previous, out);
    } else {
      RowMore(words, out);
      RowGoesOn(words[0], " " + Row(words[1..]), words[1..], previous, out);
      RowIsSaid(words[1..], RadioText.Previous(words[0]), RadioText.Gap(out) + words[0]);
    }
  }

  lemma RowGoesOn(word: string, s: string, words: seq<string>, previous: string, out: string)
    requires RadioText.Solid(word) && |word| <= 2 && |previous| <= 2 && s == " " + Row(words)
    ensures RadioText.Rest(word + s, previous, out)
            == RadioText.Rest(Row(words), RadioText.Previous(word), RadioText.Gap(out) + word)
    ensures |RadioText.Previous(word)| <= 2
  {
    ShortWordIsSaid(word, s, previous, out);
    assert s[1..] == Row(words);
  }

  lemma SaidAsItStands(text: string, words: seq<string>)
    requires words != [] && ShortWords(words) && text == Row(words)
    ensures RadioText.RadioText(text) == text
  {
    RowIsSaid(words, "", "");
  }

  lemma {:induction false} NoCutBetween(text: string, start: nat, i: nat, j: nat, pieces: seq<string>)
    requires start <= i <= j <= |text| && forall k :: i <= k < j ==> !SentenceCutting.EndsSentence(text, k)
    ensures SentenceCutting.CutFrom(text, start, i, pieces) == SentenceCutting.CutFrom(text, start, j, pieces)
    decreases j - i
  {
    if i < j {
      NoCutBetween(text, start, i + 1, j, pieces);
    }
  }

  /** Three words, the last one with its full stop. */
  lemma ThreeWords(a: char, b: char, c: char)
    requires !SentenceCutting.Blank(a) && !SentenceCutting.Blank(b) && !SentenceCutting.Blank(c)
    ensures |SentenceCutting.Words([a] + " " + [b] + " " + ([c] + "."))| == 3
  {
    SentenceCutting.JoinedWords([a], [b]);
    SentenceCutting.JoinedWords([a] + " " + [b], [c] + ".");
    SentenceCutting.OneChar(a);
    SentenceCutting.OneChar(b);
    SentenceCutting.OneChar(c);
    SentenceCutting.WordsOfMore([c], '.');
  }

  lemma PiecesAreLong(first: string, second: string)
    requires first == "a b c." && second == " d e f."
    ensures !SentenceCutting.Short(SentenceCutting.Trimmed(first))
    ensures !SentenceCutting.Short(SentenceCutting.Trimmed(second))
  {
    ThreeWords('a', 'b', 'c');
    ThreeWords('d', 'e', 'f');
    var words := ['d'] + " " + ['e'] + " " + (['f'] + ".");
    assert first == ['a'] + " " + ['b'] + " " + (['c'] + ".");
    assert second == " " + words;
    SentenceCutting.WordsMeet(" ", words);
    SentenceCutting.NoWordsInBlanks(" ");
    SentenceCutting.TrimKeepsWords(first);
    SentenceCutting.TrimKeepsWords(second);
  }

  predicate EndsTwice(text: string, i: nat, j: nat) {
    && i < j && j + 1 == |text|
    && forall k :: 0 <= k < |text| ==> (SentenceCutting.EndsSentence(text, k) <==> k == i || k == j)
  }

  lemma StopsOfText(text: string) returns (i: nat, j: nat)
    requires text == TWO_SENTENCES
    ensures EndsTwice(text, i, j) && text[0..i + 1] == "a b c." && text[i + 1..j + 1] == " d e f."
  {
    i, j := 5, 12;
  }

  lemma TwoCuts(text: string, i: nat, j: nat, first: string, second: string)
    requires EndsTwice(text, i, j)
    requires first == SentenceCutting.Trimmed(text[0..i + 1]) && second == SentenceCutting.Trimmed(text[i + 1..j + 1])
    requires !SentenceCutting.Short(first) && !SentenceCutting.Short(second)
    ensures SentenceCutting.Sentences(text) == [first, second]
  {
    NoCutBetween(text, 0, 0, i, []);
    NoCutBetween(text, i + 1, i + 1, j, [first]);
    assert [] + [first] == [first] && [first] + [second] == [first, second];
    assert text[j + 1..j + 1] == "";
  }

  lemma CutInTwo(text: string)
    requires text == TWO_SENTENCES
    ensures |SentenceCutting.Sentences(text)| == 2
  {
    var i, j := StopsOfText(text);
    var first, second := text[0..i + 1], text[i + 1..j + 1];
    PiecesAreLong(first, second);
    TwoCuts(text, i, j, SentenceCutting.Trimmed(first), SentenceCutting.Trimmed(second));
  }

  lemma StandsAsARow(text: string) returns (words: seq<string>)
    requires text == TWO_SENTENCES
    ensures words != [] && ShortWords(words) && text == Row(words)
  {
    words := ["a", "b", "c.", "d", "e", "f."];
  }

  lemma SaidInTwo(text: string)
    requires text == TWO_SENTENCES
    ensures Total(text) == 2
  {
    var words := StandsAsARow(text);
    SaidAsItStands(text, words);
    CutInTwo(text);
  }
}
