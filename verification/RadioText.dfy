// src/transport/speech_text.cpp: a reply written the way a controller says it.
module RadioText {
  import opened ByteText

  predicate Blank(c: char) {
    c == ' ' || c == '\t' || c == '\n' || c == '\r'
  }

  predicate IsPause(c: char) {
    c == ',' || c == ';' || c == ':'
  }

  predicate Separates(c: char) {
    Blank(c) || IsPause(c)
  }

  datatype Token = Word(text: string) | Pause(mark: char)

  predicate Solid(w: string) {
    w != "" && forall i :: 0 <= i < |w| ==> !Separates(w[i])
  }

  function WordEnd(s: string): (n: nat)
    ensures n <= |s| && (n < |s| ==> Separates(s[n])) && (s != "" && !Separates(s[0]) ==> n > 0)
    ensures forall i :: 0 <= i < n ==> !Separates(s[i])
  {
    if s == "" || Separates(s[0]) then 0 else 1 + WordEnd(s[1..])
  }

  /** The words and pauses of a text. */
  function Tokens(s: string): seq<Token>
    decreases |s|
  {
    if s == "" then []
    else if Blank(s[0]) then Tokens(s[1..])
    else if IsPause(s[0]) then [Pause(s[0])] + Tokens(s[1..])
    else [Word(s[..WordEnd(s)])] + Tokens(s[WordEnd(s)..])
  }

  lemma {:induction false} WordEndIs(s: string, n: nat)
    requires n <= |s| && (n < |s| ==> Separates(s[n])) && forall i :: 0 <= i < n ==> !Separates(s[i])
    ensures WordEnd(s) == n
  {
    if n > 0 {
      WordEndIs(s[1..], n - 1);
    }
  }

  function Mark(c: char): seq<Token> {
    if IsPause(c) then [Pause(c)] else []
  }

  lemma SeparatorFirst(a: string, b: string)
    requires a != "" && Separates(a[0])
    ensures Tokens(a + b) == Mark(a[0]) + Tokens(a[1..] + b)
  {
    assert (a + b)[1..] == a[1..] + b;
  }

  lemma WordFirstIn(a: string)
    requires a != "" && !Separates(a[0])
    ensures Tokens(a) == [Word(a[..WordEnd(a)])] + Tokens(a[WordEnd(a)..])
  {}

  /** No word crosses a separator. */
  lemma {:induction false} TokensMeet(a: string, b: string)
    requires a == "" || b == "" || Separates(a[|a| - 1]) || Separates(b[0])
    ensures Tokens(a + b) == Tokens(a) + Tokens(b)
    decreases |a|
  {
    if a == "" {
      assert a + b == b;
    } else if b == "" {
      assert a + b == a;
    } else if Separates(a[0]) {
      SeparatorFirst(a, b);
      SeparatorFirst(a, "");
      NothingAfter(a);
      TokensMeet(a[1..], b);
      Grouped(Mark(a[0]), Tokens(a[1..]), Tokens(b));
    } else {
      var n := WordEnd(a);
      TokensMeet(a[n..], b);
      FirstWordStays(a, b);
      WordFirstIn(a);
      Grouped([Word(a[..n])], Tokens(a[n..]), Tokens(b));
    }
  }

  lemma NothingAfter(a: string)
    requires a != ""
    ensures a + "" == a && a[1..] + "" == a[1..]
  {}

  lemma Grouped(a: seq<Token>, b: seq<Token>, c: seq<Token>)
    ensures a + b + c == a + (b + c)
    ensures b == [] ==> b + c == c && a + b == a
  {}

  lemma FirstWordStays(a: string, b: string)
    requires a != "" && !Separates(a[0]) && b != "" && (Separates(a[|a| - 1]) || Separates(b[0]))
    ensures Tokens(a + b) == [Word(a[..WordEnd(a)])] + Tokens(a[WordEnd(a)..] + b)
  {
    var n := WordEnd(a);
    WordEndIs(a + b, n);
    assert (a + b)[..n] == a[..n] && (a + b)[n..] == a[n..] + b;
  }

  lemma OneWord(w: string)
    requires Solid(w)
    ensures Tokens(w) == [Word(w)]
  {
    WordEndIs(w, |w|);
    assert w[..|w|] == w && w[|w|..] == "";
  }

  // ------------------------------------------------------- how a word is said

  function DigitWord(c: char): (w: string)
    requires IsDigit(c)
  {
    ["zero", "one", "two", "three", "four", "five", "six", "seven", "eight", "niner"][DigitValue(c)]
  }

  function DigitWords(digits: string): (ws: seq<string>)
    requires AllDigits(digits)
    ensures |ws| == |digits|
  {
    if digits == "" then [] else DigitWords(digits[..|digits| - 1]) + [DigitWord(digits[|digits| - 1])]
  }

  function Core(w: string): string {
    if w != "" && w[|w| - 1] == '.' then w[..|w| - 1] else w
  }

  function Tail(w: string): string {
    if w != "" && w[|w| - 1] == '.' then "." else ""
  }

  predicate IsHeading(core: string) {
    |core| == 3 && AllDigits(core)
  }

  /** Three digits starting with 1, a dot, and one to three digits. */
  predicate IsFrequency(core: string) {
    5 <= |core| <= 7 && core[0] == '1' && core[3] == '.' && AllDigits(core[..3]) && AllDigits(core[4..])
  }

  function WithoutZeros(decimal: string): (d: string)
    requires decimal != "" && AllDigits(decimal)
    ensures d != "" && AllDigits(d)
    decreases |decimal|
  {
    if |decimal| > 1 && decimal[|decimal| - 1] == '0' then WithoutZeros(decimal[..|decimal| - 1]) else decimal
  }

  function Ending(ws: seq<string>, tail: string): seq<string>
    requires ws != []
  {
    ws[|ws| - 1 := ws[|ws| - 1] + tail]
  }

  /** The words a word is said as. */
  function SaidAs(w: string, heading: bool): (ws: seq<string>)
    ensures ws != []
  {
    var core := Core(w);
    if heading && IsHeading(core) then Ending(DigitWords(core), Tail(w))
    else if IsFrequency(core) then
      Ending(DigitWords(core[..3]) + ["point"] + DigitWords(WithoutZeros(core[4..])), Tail(w))
    else [w]
  }

  function Spaced(ws: seq<string>): string {
    if ws == [] then ""
    else if |ws| == 1 then ws[0]
    else Spaced(ws[..|ws| - 1]) + " " + ws[|ws| - 1]
  }

  lemma OneMoreDigit(ws: seq<string>, digits: string, i: nat)
    requires i < |digits| && AllDigits(digits)
    ensures Spaced(ws + DigitWords(digits[..i + 1]))
            == (if ws == [] && i == 0 then "" else Spaced(ws + DigitWords(digits[..i])) + " ") + DigitWord(digits[i])
  {
    var before, w := ws + DigitWords(digits[..i]), DigitWord(digits[i]);
    assert digits[..i + 1][..i] == digits[..i];
    assert ws + DigitWords(digits[..i + 1]) == before + [w];
    SpacedMore(before, w);
    assert "" + w == w;
  }

  lemma DigitWordIsNotEmpty(c: char)
    requires IsDigit(c)
    ensures DigitWord(c) != ""
  {}

  method DigitSpeech(digits: string) returns (out: string)
    requires AllDigits(digits)
    ensures out == Spaced(DigitWords(digits))
  {
    out := "";
    for i := 0 to |digits|
      invariant out == Spaced(DigitWords(digits[..i]))
      invariant out != "" <==> i > 0
    {
      OneMoreDigit([], digits, i);
      NothingBeforeWords(DigitWords(digits[..i]));
      NothingBeforeWords(DigitWords(digits[..i + 1]));
      DigitWordIsNotEmpty(digits[i]);
      if out != "" {
        out := out + " ";
      }
      out := out + DigitWord(digits[i]);
    }
    assert digits[..|digits|] == digits;
  }

  lemma NothingBeforeWords(ws: seq<string>)
    ensures [] + ws == ws
  {}

  lemma SpacedMore(ws: seq<string>, w: string)
    ensures Spaced(ws + [w]) == if ws == [] then w else Spaced(ws) + " " + w
  {
    assert (ws + [w])[..|ws|] == ws;
  }

  method ExpandWord(word: string, isHeadingValue: bool) returns (out: string)
    ensures out == Spaced(SaidAs(word, isHeadingValue))
  {
    var core, tail := word, "";
    if core != "" && core[|core| - 1] == '.' {
      core, tail := core[..|core| - 1], ".";
    }
    if isHeadingValue && |core| == 3 && IsDigit(core[0]) && IsDigit(core[1]) && IsDigit(core[2]) {
      out := DigitSpeech(core);
      SpacedEnding(DigitWords(core), tail);
      return out + tail;
    }
    if |core| < 5 || |core| > 7 || Find(core, '.', 0) != 3 || core[0] != '1' {
      FrequencyHasItsDot(core);
      return word;
    }
    for i := 0 to |core|
      invariant forall k :: 0 <= k < i && k != 3 ==> IsDigit(core[k])
    {
      if i != 3 && !IsDigit(core[i]) {
        assert core[..3] + [core[3]] + core[4..] == core;
        return word;
      }
    }
    assert IsFrequency(core);
    var decimal := core[4..];
    while |decimal| > 1 && decimal[|decimal| - 1] == '0'
      invariant decimal != "" && AllDigits(decimal) && WithoutZeros(decimal) == WithoutZeros(core[4..])
      decreases |decimal|
    {
      decimal := decimal[..|decimal| - 1];
    }
    out := SayFrequency(core[..3], decimal);
    SpacedEnding(DigitWords(core[..3]) + ["point"] + DigitWords(decimal), tail);
    out := out + tail;
  }

  lemma FrequencyHasItsDot(core: string)
    ensures IsFrequency(core) ==> Find(core, '.', 0) == 3
  {
    if IsFrequency(core) {
      assert forall i :: 0 <= i < 3 ==> core[i] == core[..3][i];
      FindIs(core, '.', 0, 3);
    }
  }

  lemma SpacedEnding(ws: seq<string>, tail: string)
    requires ws != []
    ensures Spaced(Ending(ws, tail)) == Spaced(ws) + tail
  {
    var front, last := ws[..|ws| - 1], ws[|ws| - 1];
    EndingParts(ws, tail);
    SpacedMore(front, last);
    SpacedMore(front, last + tail);
    TailLast(Spaced(front) + " ", last, tail);
  }

  lemma EndingParts(ws: seq<string>, tail: string)
    requires ws != []
    ensures var front, last := ws[..|ws| - 1], ws[|ws| - 1];
            ws == front + [last] && Ending(ws, tail) == front + [last + tail]
  {}

  lemma TailLast(a: string, b: string, c: string)
    ensures a + (b + c) == a + b + c
  {}

  method SayFrequency(whole: string, decimal: string) returns (out: string)
    requires AllDigits(whole) && AllDigits(decimal) && whole != ""
    ensures out == Spaced(DigitWords(whole) + ["point"] + DigitWords(decimal))
  {
    ghost var ws := DigitWords(whole) + ["point"];
    out := DigitSpeech(whole);
    SpacedMore(DigitWords(whole), "point");
    out := out + " point";
    assert ws + DigitWords(decimal[..0]) == ws;
    for i := 0 to |decimal|
      invariant out == Spaced(ws + DigitWords(decimal[..i]))
    {
      OneMoreDigit(ws, decimal, i);
      out := out + " " + DigitWord(decimal[i]);
    }
    assert decimal[..|decimal|] == decimal;
  }

  // ------------------------------------------------------------ the whole text

  /** The word a later word is judged by: lower-cased, without its full stop. */
  function Previous(w: string): string {
    Lower(Core(w))
  }

  function AsWords(ws: seq<string>): seq<Token> {
    if ws == [] then [] else [Word(ws[0])] + AsWords(ws[1..])
  }

  /** The tokens with every word put as it is said; a number after "heading" is said digit by digit. */
  function Expanded(tokens: seq<Token>, previous: string): seq<Token> {
    if tokens == [] then []
    else match tokens[0]
         case Word(w) => AsWords(SaidAs(w, previous == "heading")) + Expanded(tokens[1..], Previous(w))
         case Pause(_) => [tokens[0]] + Expanded(tokens[1..], previous)
  }

  /** A gap before each word but the first; no pause before the first word. */
  function With(out: string, token: Token): string {
    match token
    case Word(w) => if out == "" then w else out + " " + w
    case Pause(mark) => if out == "" then "" else out + [mark]
  }

  function Rendered(tokens: seq<Token>, out: string): string {
    if tokens == [] then out else Rendered(tokens[1..], With(out, tokens[0]))
  }

  function RadioText(reply: string): string {
    Rendered(Expanded(Tokens(reply), ""), "")
  }

  lemma {:induction false} RenderedParts(some: seq<Token>, more: seq<Token>, out: string)
    ensures Rendered(some + more, out) == Rendered(more, Rendered(some, out))
  {
    if some == [] {
      assert some + more == more;
    } else {
      assert (some + more)[1..] == some[1..] + more;
      RenderedParts(some[1..], more, With(out, some[0]));
    }
  }

  function Gap(out: string): string {
    if out == "" then "" else out + " "
  }

  lemma RenderedOne(out: string, w: string)
    ensures Rendered([Word(w)], out) == Gap(out) + w
  {
    assert [Word(w)][1..] == [];
    assert "" + w == w;
  }

  lemma {:induction false} RenderedWords(ws: seq<string>, out: string)
    requires ws != [] && forall i :: 0 <= i < |ws| ==> ws[i] != ""
    ensures Rendered(AsWords(ws), out) == Gap(out) + Spaced(ws)
  {
    var front, last := ws[..|ws| - 1], ws[|ws| - 1];
    assert ws == front + [last];
    AsWordsMore(front, last);
    SpacedMore(front, last);
    RenderedParts(AsWords(front), [Word(last)], out);
    RenderedOne(Rendered(AsWords(front), out), last);
    if front != [] {
      RenderedWords(front, out);
      SpacedIsNotEmpty(front);
      MoreWords(Gap(out), Spaced(front), last);
    }
  }

  lemma MoreWords(gap: string, words: string, last: string)
    requires words != ""
    ensures Gap(gap + words) + last == gap + (words + " " + last)
  {
    assert gap + words + " " + last == gap + (words + " " + last);
  }

  lemma SpacedIsNotEmpty(ws: seq<string>)
    requires ws != [] && forall i :: 0 <= i < |ws| ==> ws[i] != ""
    ensures Spaced(ws) != ""
  {}

  lemma {:induction false} AsWordsMore(ws: seq<string>, w: string)
    ensures AsWords(ws + [w]) == AsWords(ws) + [Word(w)]
  {
    if ws != [] {
      assert (ws + [w])[1..] == ws[1..] + [w];
      AsWordsMore(ws[1..], w);
    }
  }

  lemma {:induction false} DigitWordsAreSolid(digits: string)
    requires AllDigits(digits)
    ensures forall i :: 0 <= i < |digits| ==> Solid(DigitWords(digits)[i])
  {
    if digits != "" {
      DigitWordsAreSolid(digits[..|digits| - 1]);
      DigitWordIsSolid(digits[|digits| - 1]);
    }
  }

  lemma DigitWordIsSolid(c: char)
    requires IsDigit(c)
    ensures Solid(DigitWord(c))
  {}

  lemma SaidAsIsSolid(w: string, heading: bool)
    requires Solid(w)
    ensures forall i :: 0 <= i < |SaidAs(w, heading)| ==> Solid(SaidAs(w, heading)[i])
  {
    var core := Core(w);
    if heading && IsHeading(core) {
      DigitWordsAreSolid(core);
    } else if IsFrequency(core) {
      DigitWordsAreSolid(core[..3]);
      DigitWordsAreSolid(WithoutZeros(core[4..]));
    }
  }

  /** What is said of the rest of a reply, after `out`. */
  function Rest(s: string, previous: string, out: string): string {
    Rendered(Expanded(Tokens(s), previous), out)
  }

  lemma WordIsSaid(word: string, s: string, previous: string, out: string)
    requires Solid(word) && (s == "" || Separates(s[0]))
    ensures Rest(word + s, previous, out)
            == Rest(s, Previous(word), Gap(out) + Spaced(SaidAs(word, previous == "heading")))
  {
    var ws, more := SaidAs(word, previous == "heading"), Expanded(Tokens(s), Previous(word));
    TokensMeet(word, s);
    OneWord(word);
    assert Tokens(word + s)[1..] == Tokens(s);
    SaidAsIsSolid(word, previous == "heading");
    RenderedParts(AsWords(ws), more, out);
    RenderedWords(ws, out);
  }

  lemma SeparatorIsSaid(s: string, previous: string, out: string)
    requires s != "" && Separates(s[0])
    ensures Rest(s, previous, out) == Rest(s[1..], previous, if IsPause(s[0]) && out != "" then out + [s[0]] else out)
  {
    if IsPause(s[0]) {
      assert Tokens(s)[1..] == Tokens(s[1..]);
      assert Expanded(Tokens(s), previous)[1..] == Expanded(Tokens(s[1..]), previous);
    }
  }

  method FlushWord(out: string, word: string, previous: string) returns (said: string, next: string)
    requires Solid(word)
    ensures said == Gap(out) + Spaced(SaidAs(word, previous == "heading")) && said != ""
    ensures next == Previous(word)
  {
    var expanded := ExpandWord(word, previous == "heading");
    SaidAsIsSolid(word, previous == "heading");
    SpacedIsNotEmpty(SaidAs(word, previous == "heading"));
    said := if out == "" then expanded else out + " " + expanded;
    next := word;
    if next != "" && next[|next| - 1] == '.' {
      next := next[..|next| - 1];
    }
    next := Lower(next);
  }

  /** What a separator does: the word before it is said, and a pause is kept where it was written. */
  method Separate(out: string, word: string, previous: string, c: char, ghost s: string)
    returns (said: string, next: string)
    requires (word == "" || Solid(word)) && s != "" && s[0] == c && Separates(c)
    ensures Rest(s[1..], next, said) == Rest(word + s, previous, out)
  {
    said, next := out, previous;
    if word != "" {
      WordIsSaid(word, s, previous, out);
      said, next := FlushWord(out, word, previous);
    } else {
      assert word + s == s;
    }
    SeparatorIsSaid(s, next, said);
    if IsPause(c) && said != "" {
      said := said + [c];
    }
  }

  method SayLast(out: string, word: string, previous: string) returns (said: string)
    requires word == "" || Solid(word)
    ensures said == Rest(word, previous, out)
  {
    said := out;
    if word != "" {
      WordIsSaid(word, "", previous, out);
      assert word + "" == word;
      var next;
      said, next := FlushWord(out, word, previous);
    }
  }

  method ReadChar(out: string, word: string, previous: string, c: char, ghost s: string)
    returns (said: string, open: string, next: string)
    requires (word == "" || Solid(word)) && s != "" && s[0] == c
    ensures open == "" || Solid(open)
    ensures Rest(open + s[1..], next, said) == Rest(word + s, previous, out)
  {
    said, open, next := out, "", previous;
    if Separates(c) {
      said, next := Separate(out, word, previous, c, s);
      NothingBefore(s[1..]);
    } else {
      open := word + [c];
      OneCharMore(word, s);
    }
  }

  lemma NothingBefore(s: string)
    ensures "" + s == s
  {}

  lemma OneCharMore(word: string, s: string)
    requires s != ""
    ensures word + [s[0]] + s[1..] == word + s
  {}

  method SayFrom(reply: string, previousWord: string, before: string) returns (out: string)
    ensures out == Rest(reply, previousWord, before)
  {
    out := before;
    var word, previous, i := "", previousWord, 0;
    ghost var answer := Rest(reply, previousWord, before);
    AllIsLeft(reply);
    while i < |reply|
      invariant i <= |reply| && (word == "" || Solid(word))
      invariant Rest(word + reply[i..], previous, out) == answer
    {
      OneCharLess(reply, i);
      out, word, previous := ReadChar(out, word, previous, reply[i], reply[i..]);
      i := i + 1;
    }
    NothingIsLeft(word, reply);
    out := SayLast(out, word, previous);
  }

  lemma AllIsLeft(s: string)
    ensures "" + s[0..] == s
  {}

  lemma OneCharLess(s: string, i: nat)
    requires i < |s|
    ensures s[i..] != "" && s[i..][0] == s[i] && s[i..][1..] == s[i + 1..]
  {}

  lemma NothingIsLeft(word: string, s: string)
    ensures word + s[|s|..] == word
  {}

  method SayReply(reply: string) returns (out: string)
    ensures out == RadioText(reply)
  {
    out := SayFrom(reply, "", "");
  }

  // ------------------------------------------------------------ the whole tokens

  predicate Clean(tokens: seq<Token>) {
    forall i :: 0 <= i < |tokens| ==> match tokens[i] case Word(w) => Solid(w) case Pause(mark) => IsPause(mark)
  }

  function FromFirstWord(tokens: seq<Token>): seq<Token> {
    if tokens != [] && tokens[0].Pause? then FromFirstWord(tokens[1..]) else tokens
  }

  lemma {:induction false} TokensAreClean(s: string)
    ensures Clean(Tokens(s))
    decreases |s|
  {
    if s != "" && Separates(s[0]) {
      TokensAreClean(s[1..]);
    } else if s != "" {
      TokensAreClean(s[WordEnd(s)..]);
    }
  }

  lemma {:induction false} WordsAreClean(ws: seq<string>)
    requires forall i :: 0 <= i < |ws| ==> Solid(ws[i])
    ensures Clean(AsWords(ws)) && |AsWords(ws)| == |ws|
  {
    if ws != [] {
      WordsAreClean(ws[1..]);
    }
  }

  lemma {:induction false} ExpandedIsClean(tokens: seq<Token>, previous: string)
    requires Clean(tokens)
    ensures Clean(Expanded(tokens, previous))
  {
    if tokens != [] {
      match tokens[0]
      case Word(w) =>
        SaidAsIsSolid(w, previous == "heading");
        WordsAreClean(SaidAs(w, previous == "heading"));
        ExpandedIsClean(tokens[1..], Previous(w));
      case Pause(_) =>
        ExpandedIsClean(tokens[1..], previous);
    }
  }

  lemma {:induction false} LeadingPausesAreDropped(tokens: seq<Token>)
    ensures Rendered(tokens, "") == Rendered(FromFirstWord(tokens), "")
  {
    if tokens != [] && tokens[0].Pause? {
      LeadingPausesAreDropped(tokens[1..]);
    }
  }

  lemma {:induction false} FromFirstWordIsClean(tokens: seq<Token>)
    requires Clean(tokens)
    ensures Clean(FromFirstWord(tokens)) && (FromFirstWord(tokens) != [] ==> FromFirstWord(tokens)[0].Word?)
  {
    if tokens != [] && tokens[0].Pause? {
      FromFirstWordIsClean(tokens[1..]);
    }
  }

  /** Reading what was written after `out` gives the tokens it was written from. */
  lemma {:induction false} TokensOfRendered(tokens: seq<Token>, out: string)
    requires Clean(tokens) && (out == "" && tokens != [] ==> tokens[0].Word?)
    ensures Tokens(Rendered(tokens, out)) == Tokens(out) + tokens
  {
    if tokens != [] {
      var next := With(out, tokens[0]);
      WithToken(out, tokens[0]);
      TokensOfRendered(tokens[1..], next);
      Grouped(Tokens(out), [tokens[0]], tokens[1..]);
      assert [tokens[0]] + tokens[1..] == tokens;
    }
  }

  lemma WithToken(out: string, token: Token)
    requires Clean([token]) && (out == "" ==> token.Word?)
    ensures Tokens(With(out, token)) == Tokens(out) + [token] && With(out, token) != ""
  {
    assert [token][0] == token;
    match token
    case Word(w) =>
      OneWord(w);
      if out != "" {
        TokensMeet(out + " ", w);
        TokensMeet(out, " ");
        assert Tokens(" ") == [];
      }
    case Pause(mark) =>
      TokensMeet(out, [mark]);
      assert Tokens([mark]) == [Pause(mark)] + Tokens([mark][1..]);
  }

  /** The output's words and pauses are the input's, from the first word on, with
      each word said as it is said: no two words are run together, and none is lost. */
  lemma OutputIsCanonical(reply: string)
    ensures Tokens(RadioText(reply)) == FromFirstWord(Expanded(Tokens(reply), ""))
  {
    var tokens := Expanded(Tokens(reply), "");
    TokensAreClean(reply);
    ExpandedIsClean(Tokens(reply), "");
    LeadingPausesAreDropped(tokens);
    FromFirstWordIsClean(tokens);
    TokensOfRendered(FromFirstWord(tokens), "");
  }

  // ------------------------------------------------------------ saying it again

  /** A word that is said as it is written, whatever comes before it. */
  predicate Settled(w: string) {
    SaidAs(w, true) == [w] && SaidAs(w, false) == [w] && Previous(w) != "heading"
  }

  lemma LettersAreSettled(w: string, tail: string)
    requires 0 < |w| < 7 && (forall i :: 0 <= i < |w| ==> 'a' <= w[i] <= 'z') && (tail == "" || tail == ".")
    ensures Settled(w + tail)
  {
    if tail == "" {
      assert w + tail == w;
    } else {
      assert (w + tail)[..|w|] == w;
    }
    assert Core(w + tail) == w;
    assert !IsDigit(w[0]);
  }

  lemma DigitWordIsLetters(c: char)
    requires IsDigit(c)
    ensures 0 < |DigitWord(c)| < 7 && forall i :: 0 <= i < |DigitWord(c)| ==> 'a' <= DigitWord(c)[i] <= 'z'
  {}

  lemma DigitWordIsSettled(c: char, tail: string)
    requires IsDigit(c) && (tail == "" || tail == ".")
    ensures Settled(DigitWord(c) + tail)
  {
    DigitWordIsLetters(c);
    LettersAreSettled(DigitWord(c), tail);
  }

  lemma PointIsSettled()
    ensures Settled("point")
  {}

  predicate AllSettled(ws: seq<string>) {
    forall i :: 0 <= i < |ws| ==> Settled(ws[i])
  }

  lemma {:induction false} DigitWordsAreSettled(digits: string)
    requires AllDigits(digits)
    ensures AllSettled(DigitWords(digits))
  {
    if digits != "" {
      DigitWordsAreSettled(digits[..|digits| - 1]);
      LastDigitWord(digits);
      DigitWordIsSettled(digits[|digits| - 1], "");
    }
  }

  lemma LastDigitWord(digits: string)
    requires digits != "" && AllDigits(digits)
    ensures DigitWords(digits)[|digits| - 1] == DigitWord(digits[|digits| - 1]) + ""
  {}

  lemma EndedDigitWords(front: seq<string>, digits: string, tail: string)
    requires AllSettled(front) && digits != "" && AllDigits(digits) && (tail == "" || tail == ".")
    ensures AllSettled(Ending(front + DigitWords(digits), tail))
  {
    var ws := front + DigitWords(digits);
    DigitWordsAreSettled(digits);
    LastDigitWord(digits);
    DigitWordIsSettled(digits[|digits| - 1], tail);
    assert ws[|ws| - 1] == DigitWord(digits[|digits| - 1]);
  }

  lemma NumberIsNoHeading(w: string)
    requires Core(w) != "" && IsDigit(Core(w)[0])
    ensures Previous(w) != "heading"
  {
    assert Previous(w)[0] == Core(w)[0];
  }

  /** A word is said as itself, or as words that are said as themselves. */
  lemma SaidAsSettles(w: string, heading: bool)
    ensures SaidAs(w, heading) == [w] || (AllSettled(SaidAs(w, heading)) && Previous(w) != "heading")
  {
    var core := Core(w);
    if heading && IsHeading(core) {
      EndedDigitWords([], core, Tail(w));
      assert [] + DigitWords(core) == DigitWords(core);
      NumberIsNoHeading(w);
    } else if IsFrequency(core) {
      PointIsSettled();
      DigitWordsAreSettled(core[..3]);
      EndedDigitWords(DigitWords(core[..3]) + ["point"], WithoutZeros(core[4..]), Tail(w));
      NumberIsNoHeading(w);
    }
  }

  lemma {:induction false} SettledStay(ws: seq<string>, rest: seq<Token>, previous: string)
    requires ws != [] && AllSettled(ws)
    ensures Expanded(AsWords(ws) + rest, previous) == AsWords(ws) + Expanded(rest, Previous(ws[|ws| - 1]))
  {
    var first, more := [Word(ws[0])], AsWords(ws[1..]);
    SettledFirst(ws[0], more + rest, previous);
    Grouped(first, more, rest);
    if |ws| > 1 {
      SettledStay(ws[1..], rest, Previous(ws[0]));
      Grouped(first, more, Expanded(rest, Previous(ws[|ws| - 1])));
    }
  }

  lemma SettledFirst(w: string, rest: seq<Token>, previous: string)
    requires Settled(w)
    ensures Expanded([Word(w)] + rest, previous) == [Word(w)] + Expanded(rest, Previous(w))
  {
    WordFirst(w, rest, previous);
  }

  lemma WordFirst(w: string, rest: seq<Token>, previous: string)
    requires SaidAs(w, previous == "heading") == [w]
    ensures Expanded([Word(w)] + rest, previous) == [Word(w)] + Expanded(rest, Previous(w))
  {
    assert ([Word(w)] + rest)[1..] == rest;
    assert AsWords([w]) == [Word(w)] + AsWords([w][1..]);
  }

  lemma {:induction false} ExpandedTwice(tokens: seq<Token>, previous: string, other: string)
    requires (previous == "heading") == (other == "heading")
    ensures Expanded(Expanded(tokens, previous), other) == Expanded(tokens, previous)
    decreases |tokens|, 1
  {
    if tokens != [] {
      match tokens[0]
      case Pause(_) =>
        ExpandedTwice(tokens[1..], previous, other);
        assert Expanded(tokens, previous)[1..] == Expanded(tokens[1..], previous);
      case Word(w) =>
        ExpandedWordTwice(w, tokens[1..], previous, other);
    }
  }

  lemma {:induction false} ExpandedWordTwice(w: string, rest: seq<Token>, previous: string, other: string)
    requires (previous == "heading") == (other == "heading")
    ensures var once := AsWords(SaidAs(w, previous == "heading")) + Expanded(rest, Previous(w));
            Expanded(once, other) == once
    decreases |rest| + 1, 0
  {
    var ws, more := SaidAs(w, previous == "heading"), Expanded(rest, Previous(w));
    SaidAsSettles(w, previous == "heading");
    if ws == [w] {
      assert AsWords(ws) == [Word(w)] + AsWords(ws[1..]);
      WordFirst(w, more, other);
      ExpandedTwice(rest, Previous(w), Previous(w));
    } else {
      SettledStay(ws, more, other);
      ExpandedTwice(rest, Previous(w), Previous(ws[|ws| - 1]));
    }
  }

  lemma {:induction false} DroppingCommutes(tokens: seq<Token>, previous: string)
    ensures Expanded(FromFirstWord(tokens), previous) == FromFirstWord(Expanded(tokens, previous))
  {
    if tokens != [] && tokens[0].Pause? {
      DroppingCommutes(tokens[1..], previous);
      assert Expanded(tokens, previous)[1..] == Expanded(tokens[1..], previous);
    } else if tokens != [] {
      assert Expanded(tokens, previous)[0] == Word(SaidAs(tokens[0].text, previous == "heading")[0]);
    }
  }

  /** Saying what is already said changes nothing, for any text. */
  lemma SayingTwiceChangesNothing(reply: string)
    ensures RadioText(RadioText(reply)) == RadioText(reply)
  {
    var tokens, nothing := Tokens(reply), "";
    var once := Expanded(tokens, nothing);
    OutputIsCanonical(reply);
    DroppingCommutes(once, nothing);
    ExpandedTwice(tokens, nothing, nothing);
    LeadingPausesAreDropped(once);
  }
}
