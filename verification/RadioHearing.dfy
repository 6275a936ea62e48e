// The spoken form heard back: which digits the words stand for, which words are
// spelt out, and that a heading is told by the word before it.
module RadioHearing {
  import opened ByteText
  import opened RadioText

  /** The digit that a controller's word stands for. */
  function Heard(word: string): Option<char> {
    if word == "zero" then Some('0')
    else if word == "one" then Some('1')
    else if word == "two" then Some('2')
    else if word == "three" then Some('3')
    else if word == "four" then Some('4')
    else if word == "five" then Some('5')
    else if word == "six" then Some('6')
    else if word == "seven" then Some('7')
    else if word == "eight" then Some('8')
    else if word == "niner" then Some('9')
    else None
  }

  /** The number that is heard when every word is a digit's. */
  function HeardNumber(words: seq<string>): Option<string> {
    if words == [] then Some("")
    else
      var before, last := HeardNumber(words[..|words| - 1]), Heard(words[|words| - 1]);
      if before.None? || last.None? then None else Some(before.value + [last.value])
  }

  lemma DigitIsHeard(c: char)
    requires IsDigit(c)
    ensures Heard(DigitWord(c)) == Some(c)
  {
    var n := DigitValue(c);
    assert n == 0 || n == 1 || n == 2 || n == 3 || n == 4 || n == 5 || n == 6 || n == 7 || n == 8 || n == 9;
  }

  lemma OneMoreHeard(words: seq<string>, word: string)
    requires HeardNumber(words).Some? && Heard(word).Some?
    ensures HeardNumber(words + [word]) == Some(HeardNumber(words).value + [Heard(word).value])
  {
    assert (words + [word])[..|words|] == words;
  }

  /** Digits that are spoken are heard as they were. */
  lemma {:induction false} DigitsAreHeard(digits: string)
    requires AllDigits(digits)
    ensures HeardNumber(DigitWords(digits)) == Some(digits)
  {
    if digits != "" {
      var front, last := digits[..|digits| - 1], digits[|digits| - 1];
      DigitsAreHeard(front);
      DigitIsHeard(last);
      OneMoreHeard(DigitWords(front), DigitWord(last));
      assert digits == front + [last];
    }
  }

  predicate IsStop(stop: string) {
    stop == "" || stop == "."
  }

  lemma CoreAndStop(core: string, stop: string)
    requires IsStop(stop) && core != "" && core[|core| - 1] != '.'
    ensures Core(core + stop) == core && Tail(core + stop) == stop
  {
    assert core + "" == core;
    assert (core + ".")[..|core|] == core;
  }

  /** Three digits after "heading" are said one by one, the full stop kept. */
  lemma HeadingIsSpelt(core: string, stop: string) returns (words: seq<string>)
    requires |core| == 3 && AllDigits(core) && IsStop(stop)
    ensures |words| == 3 && HeardNumber(words) == Some(core)
    ensures Spaced(SaidAs(core + stop, true)) == Spaced(words) + stop
  {
    words := DigitWords(core);
    CoreAndStop(core, stop);
    DigitsAreHeard(core);
    SpacedEnding(words, stop);
  }

  predicate IsChannel(whole: string, decimal: string) {
    |whole| == 3 && AllDigits(whole) && whole[0] == '1' && 1 <= |decimal| <= 3 && AllDigits(decimal)
  }

  /** A channel is said digit by digit around "point", without the zeros it ends in
      but never without a decimal, the full stop kept. */
  lemma ChannelIsSpelt(whole: string, decimal: string, stop: string, heading: bool)
    returns (words: seq<string>, decimals: seq<string>, kept: string)
    requires IsChannel(whole, decimal) && IsStop(stop)
    ensures HeardNumber(words) == Some(whole) && HeardNumber(decimals) == Some(kept)
    ensures 1 <= |kept| <= |decimal| && kept == decimal[..|kept|] && (|kept| > 1 ==> kept[|kept| - 1] != '0')
    ensures forall i :: |kept| <= i < |decimal| ==> decimal[i] == '0'
    ensures Spaced(SaidAs(whole + "." + decimal + stop, heading)) == Spaced(words + ["point"] + decimals) + stop
  {
    ChannelWords(whole + "." + decimal, whole, decimal, stop, heading);
    kept := WithoutZeros(decimal);
    ZerosAreLast(decimal);
    words, decimals := DigitWords(whole), DigitWords(kept);
    DigitsAreHeard(whole);
    DigitsAreHeard(kept);
    SpacedEnding(words + ["point"] + decimals, stop);
  }

  lemma ChannelWords(core: string, whole: string, decimal: string, stop: string, heading: bool)
    requires IsChannel(whole, decimal) && IsStop(stop) && core == whole + "." + decimal
    ensures SaidAs(core + stop, heading)
            == Ending(DigitWords(whole) + ["point"] + DigitWords(WithoutZeros(decimal)), stop)
  {
    assert core[..3] == whole && core[4..] == decimal && core[3] == '.';
    CoreAndStop(core, stop);
    assert !IsHeading(core) && IsFrequency(core);
  }

  lemma {:induction false} ZerosAreLast(decimal: string)
    requires decimal != "" && AllDigits(decimal)
    ensures var kept := WithoutZeros(decimal);
            && 1 <= |kept| <= |decimal| && kept == decimal[..|kept|] && (|kept| > 1 ==> kept[|kept| - 1] != '0')
            && forall i :: |kept| <= i < |decimal| ==> decimal[i] == '0'
    decreases |decimal|
  {
    if |decimal| > 1 && decimal[|decimal| - 1] == '0' {
      ZerosAreLast(decimal[..|decimal| - 1]);
    }
  }

  /** Any other word is said as it is written. */
  lemma OthersAreAsWritten(word: string, heading: bool)
    requires SaidAs(word, heading) != [word]
    ensures (heading && |Core(word)| == 3 && AllDigits(Core(word)))
            || (|Core(word)| > 4 && Core(word)[3] == '.' && IsChannel(Core(word)[..3], Core(word)[4..]))
  {}

  // ------------------------------------------------------ the word before

  function LastWord(tokens: seq<Token>): string {
    if tokens == [] then ""
    else if tokens[|tokens| - 1].Word? then tokens[|tokens| - 1].text
    else LastWord(tokens[..|tokens| - 1])
  }

  /** The last word is "heading" in any case, with or without a full stop, pauses apart. */
  predicate AfterHeading(tokens: seq<Token>) {
    Lower(LastWord(tokens)) == "heading" || Lower(LastWord(tokens)) == "heading."
  }

  function PreviousOf(tokens: seq<Token>, previous: string): string {
    if tokens == [] then previous
    else PreviousOf(tokens[1..], if tokens[0].Word? then Previous(tokens[0].text) else previous)
  }

  lemma {:induction false} ExpandedMore(tokens: seq<Token>, t: Token, previous: string)
    ensures Expanded(tokens + [t], previous)
            == Expanded(tokens, previous)
               + match t
                 case Word(w) => AsWords(SaidAs(w, PreviousOf(tokens, previous) == "heading"))
                 case Pause(_) => [t]
  {
    if tokens == [] {
      assert tokens + [t] == [t];
      assert Expanded([t][1..], "") == [];
    } else {
      assert (tokens + [t])[0] == tokens[0] && (tokens + [t])[1..] == tokens[1..] + [t];
      ExpandedMore(tokens[1..], t, if tokens[0].Word? then Previous(tokens[0].text) else previous);
    }
  }

  lemma {:induction false} PreviousMore(tokens: seq<Token>, t: Token, previous: string)
    ensures PreviousOf(tokens + [t], previous) == if t.Word? then Previous(t.text) else PreviousOf(tokens, previous)
  {
    if tokens == [] {
      assert tokens + [t] == [t] && [t][1..] == [];
    } else {
      assert (tokens + [t])[1..] == tokens[1..] + [t];
      PreviousMore(tokens[1..], t, if tokens[0].Word? then Previous(tokens[0].text) else previous);
    }
  }

  lemma {:induction false} PreviousIsLast(tokens: seq<Token>)
    ensures PreviousOf(tokens, "") == Previous(LastWord(tokens))
  {
    if tokens != [] {
      var front, last := tokens[..|tokens| - 1], tokens[|tokens| - 1];
      assert tokens == front + [last];
      PreviousMore(front, last, "");
      PreviousIsLast(front);
    } else {
      assert Lower("") == "";
    }
  }

  lemma HeadingIsTold(word: string)
    ensures Previous(word) == "heading" <==> Lower(word) == "heading" || Lower(word) == "heading."
  {
    if word != "" && word[|word| - 1] == '.' {
      var core := word[..|word| - 1];
      assert word == core + ".";
      assert Lower(word) == Lower(core) + ".";
      assert "heading." == "heading" + ".";
      if Lower(word) == "heading." {
        assert Lower(word)[..7] == Lower(core);
      }
      assert Lower(word)[|word| - 1] == '.';
    } else {
      assert forall c :: LowerChar(c) == '.' ==> c == '.';
    }
  }

  /** Each word is said by itself, and as a heading exactly when the word before it,
      pauses apart, is "heading"; pauses stay where they are. */
  lemma EachWordIsSaid(before: seq<Token>, t: Token)
    ensures Expanded(before + [t], "")
            == Expanded(before, "")
               + match t
                 case Word(w) => AsWords(SaidAs(w, AfterHeading(before)))
                 case Pause(_) => [t]
  {
    ExpandedMore(before, t, "");
    PreviousIsLast(before);
    HeadingIsTold(LastWord(before));
  }
}
