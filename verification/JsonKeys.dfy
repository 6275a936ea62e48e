// Keys in the RFC's own reading, where \uXXXX denotes a code unit of UTF-16 and a
// text is UTF-8 (RFC 8259, sections 7 and 8): when a lookup meets it.
module JsonKeys {
  import opened ByteText
  import opened JsonUtil
  import opened JsonScanning
  import Utf8

  // --------------------------------------------------------- what a key denotes

  function HexDigitValue(c: char): (n: nat)
    requires IsHexDigit(c)
    ensures n < 16
  {
    if IsDigit(c) then DigitValue(c) else if 'a' <= c then c as int - 87 else c as int - 55
  }

  function CodeUnit(hex: string): (n: nat)
    requires |hex| == 4 && forall i :: 0 <= i < 4 ==> IsHexDigit(hex[i])
    ensures n < 0x10000
  {
    HexDigitValue(hex[0]) * 0x1000 + HexDigitValue(hex[1]) * 0x100
    + HexDigitValue(hex[2]) * 0x10 + HexDigitValue(hex[3])
  }

  predicate IsHigh(n: nat) {
    0xD800 <= n < 0xDC00
  }

  predicate IsLow(n: nat) {
    0xDC00 <= n < 0xE000
  }

  /** Two escapes that stand for one code point beyond the first plane. */
  predicate StartsWithPair(us: seq<Unit>)
    requires GoodUnits(us)
  {
    && |us| > 1 && us[0].Unicode? && us[1].Unicode?
    && IsHigh(CodeUnit(us[0].hex)) && IsLow(CodeUnit(us[1].hex))
  }

  function PairOf(high: nat, low: nat): nat
    requires IsHigh(high) && IsLow(low)
  {
    0x10000 + (high - 0xD800) * 0x400 + (low - 0xDC00)
  }

  function Before(bytes: string, rest: Option<string>): Option<string> {
    if rest.Some? then Some(bytes + rest.value) else None
  }

  /** The bytes that a string denotes; none with half a surrogate pair in it. */
  function Denoted(us: seq<Unit>): Option<string>
    requires GoodUnits(us)
  {
    if us == [] then Some("")
    else if !us[0].Unicode? then Before([UnitMeaning(us[0])], Denoted(us[1..]))
    else if StartsWithPair(us) then
      Before(Utf8.Encoded(PairOf(CodeUnit(us[0].hex), CodeUnit(us[1].hex))), Denoted(us[2..]))
    else if Utf8.IsCodePoint(CodeUnit(us[0].hex)) then Before(Utf8.Encoded(CodeUnit(us[0].hex)), Denoted(us[1..]))
    else None
  }

  predicate Spells(us: seq<Unit>, key: string)
    requires GoodUnits(us)
  {
    Denoted(us) == Some(key)
  }

  predicate WithoutUnicode(us: seq<Unit>) {
    forall i :: 0 <= i < |us| ==> !us[i].Unicode?
  }

  lemma SpellsWhatItMeans(us: seq<Unit>, key: string)
    requires GoodUnits(us) && WithoutUnicode(us)
    ensures Spells(us, key) <==> Meaning(us) == key
  {
    MeansItsBytes(us);
  }

  lemma {:induction false} MeansItsBytes(us: seq<Unit>)
    requires GoodUnits(us) && WithoutUnicode(us)
    ensures Denoted(us) == Some(Meaning(us))
  {
    if us != [] {
      MeansItsBytes(us[1..]);
    }
  }

  function Members(items: Items): (r: seq<Item>)
    ensures |r| > 0
  {
    [items.item] + (if items.More? then Members(items.rest) else [])
  }

  /** Member i's key, as the RFC reads it, is `key`. */
  predicate Answers(items: Items, i: int, key: string) {
    && 0 <= i < |Members(items)|
    && Members(items)[i].name.Some?
    && GoodUnits(Members(items)[i].name.value.key)
    && Spells(Members(items)[i].name.value.key, key)
  }

  predicate PlainKeys(items: Items) {
    forall m :: m in Members(items) && m.name.Some? ==> WithoutUnicode(m.name.value.key)
  }

  lemma {:induction false} FirstMemberAnswers(items: Items, key: string)
    requires GoodItems(items, Object) && PlainKeys(items)
    ensures FirstMember(items, key).None? <==> forall i :: 0 <= i < |Members(items)| ==> !Answers(items, i, key)
    ensures forall i :: Answers(items, i, key) && (forall j :: 0 <= j < i ==> !Answers(items, j, key)) ==>
              FirstMember(items, key) == Some(TextOf(Members(items)[i].value))
    decreases items
  {
    FirstIsMember(items, key);
    if items.More? {
      var all, rest := Members(items), Members(items.rest);
      RestAnswersAlike(items, key);
      FirstMemberAnswers(items.rest, key);
      forall i | Answers(items, i, key) && (forall j :: 0 <= j < i ==> !Answers(items, j, key))
        ensures FirstMember(items, key) == Some(TextOf(all[i].value))
      {
        if i > 0 {
          assert !Answers(items, 0, key);
          assert Answers(items.rest, i - 1, key);
          forall j | 0 <= j < i - 1
            ensures !Answers(items.rest, j, key)
          {
            assert !Answers(items, j + 1, key);
          }
        }
      }
    }
  }

  lemma FirstIsMember(items: Items, key: string)
    requires GoodItems(items, Object) && PlainKeys(items)
    ensures Members(items)[0] == items.item && items.item.name.Some?
    ensures Answers(items, 0, key) <==> Meaning(items.item.name.value.key) == key
  {
    assert items.item in Members(items) by {
      assert Members(items)[0] == items.item;
    }
    SpellsWhatItMeans(items.item.name.value.key, key);
  }

  lemma RestAnswersAlike(items: Items, key: string)
    requires items.More? && PlainKeys(items)
    ensures PlainKeys(items.rest) && |Members(items)| == |Members(items.rest)| + 1
    ensures forall i :: 0 <= i < |Members(items.rest)| ==>
              Members(items.rest)[i] == Members(items)[i + 1]
                && Answers(items.rest, i, key) == Answers(items, i + 1, key)
  {
    var all, rest := Members(items), Members(items.rest);
    assert all[1..] == rest;
    assert forall m :: m in rest ==> m in all;
  }

  /** json_raw_field on any well-formed object whose keys use no \u escape. */
  lemma RawFieldIsRfcField(before: string, items: Items, after: string, key: string)
    requires Whitespace(before) && GoodItems(items, Object) && PlainKeys(items)
    ensures var found := RawField(before + PutValue(Nested(Object, items), after), key);
            && (found.None? <==> forall i :: 0 <= i < |Members(items)| ==> !Answers(items, i, key))
            && (forall i :: Answers(items, i, key) && (forall j :: 0 <= j < i ==> !Answers(items, j, key)) ==>
                  found == Some(TextOf(Members(items)[i].value)))
  {
    RawFieldFindsFirstMember(before, items, after, key);
    FirstMemberAnswers(items, key);
  }

  // ------------------------------------------- when keys are spelt with \u

  /** The RFC reads the member's key as `key`. */
  predicate SpelledAs(m: Item, key: string) {
    m.name.Some? && GoodUnits(m.name.value.key) && Spells(m.name.value.key, key)
  }

  /** The plugin reads the member's key as `key`. */
  predicate ReadAs(m: Item, key: string) {
    m.name.Some? && Meaning(m.name.value.key) == key
  }

  /** Where the first such member stands, or how many there are. */
  function FirstSuch(ms: seq<Item>, such: Item -> bool): (r: nat)
    ensures r <= |ms| && (r < |ms| ==> such(ms[r])) && forall j :: 0 <= j < r ==> !such(ms[j])
  {
    if ms == [] || such(ms[0]) then 0 else 1 + FirstSuch(ms[1..], such)
  }

  function TextAt(ms: seq<Item>, i: nat): Option<string> {
    if i < |ms| then Some(TextOf(ms[i].value)) else None
  }

  function FirstSpelled(items: Items, key: string): nat {
    FirstSuch(Members(items), m => SpelledAs(m, key))
  }

  function FirstRead(items: Items, key: string): nat {
    FirstSuch(Members(items), m => ReadAs(m, key))
  }

  /** The first member that either of the two readings gives the key. */
  function FirstClaim(items: Items, key: string): nat {
    FirstSuch(Members(items), m => SpelledAs(m, key) || ReadAs(m, key))
  }

  /** What RFC 8259 gives the key: the text of the first member it names. */
  function RfcField(items: Items, key: string): Option<string> {
    TextAt(Members(items), FirstSpelled(items, key))
  }

  lemma {:induction false} FirstMemberIsFirstRead(items: Items, key: string)
    ensures FirstMember(items, key) == TextAt(Members(items), FirstRead(items, key))
    decreases items
  {
    var ms := Members(items);
    assert ms[0] == items.item;
    if items.More? && !ReadAs(items.item, key) {
      FirstMemberIsFirstRead(items.rest, key);
      assert ms[1..] == Members(items.rest);
    }
  }

  lemma FirstClaimIsTheEarlier(items: Items, key: string)
    ensures var s, r := FirstSpelled(items, key), FirstRead(items, key);
            FirstClaim(items, key) == if s < r then s else r
  {
    var ms := Members(items);
    assert forall j :: 0 <= j < FirstClaim(items, key) ==> !SpelledAs(ms[j], key) && !ReadAs(ms[j], key);
  }

  /** json_raw_field on any well-formed object: it gives the RFC's answer exactly
      when neither reading finds the key, or the first member found has the key
      in both readings, or the two readings find two members with one value text. */
  lemma RawFieldMeetsRfc(before: string, items: Items, after: string, key: string)
    requires Whitespace(before) && GoodItems(items, Object)
    ensures var ms, i := Members(items), FirstClaim(items, key);
            var s, r := FirstSpelled(items, key), FirstRead(items, key);
            RawField(before + PutValue(Nested(Object, items), after), key) == RfcField(items, key)
            <==> (|| i == |ms|
                  || (SpelledAs(ms[i], key) && ReadAs(ms[i], key))
                  || (s < |ms| && r < |ms| && TextOf(ms[s].value) == TextOf(ms[r].value)))
  {
    RawFieldFindsFirstMember(before, items, after, key);
    FirstMemberIsFirstRead(items, key);
    FirstClaimIsTheEarlier(items, key);
  }

  // -------------------------------------------------------------- key by key

  lemma {:induction false} DenotedIsLong(us: seq<Unit>)
    requires GoodUnits(us)
    ensures Denoted(us).Some? ==> |us| <= |Denoted(us).value|
    decreases |us|
  {
    if us != [] {
      DenotedIsLong(us[1..]);
      if StartsWithPair(us) {
        DenotedIsLong(us[2..]);
        PairIsFourBytes(us);
      }
    }
  }

  lemma PairIsFourBytes(us: seq<Unit>)
    requires GoodUnits(us) && StartsWithPair(us)
    ensures |Utf8.Encoded(PairOf(CodeUnit(us[0].hex), CodeUnit(us[1].hex)))| == 4
  {}

  /** A unit fits a byte in the RFC's reading, when it denotes that byte and no more. */
  predicate Fits(u: Unit, c: char)
    requires GoodUnit(u)
  {
    if u.Unicode? then CodeUnit(u.hex) == c as int < 0x80 else UnitMeaning(u) == c
  }

  predicate FitsEach(us: seq<Unit>, key: string)
    requires GoodUnits(us) && |us| == |key|
  {
    forall i :: 0 <= i < |us| ==> Fits(us[i], key[i])
  }

  lemma FirstByteIsSpelled(us: seq<Unit>, c: char, key: string)
    requires GoodUnits(us) && us != [] && key != "" && Denoted(us) == Before([c], Denoted(us[1..]))
    ensures Spells(us, key) <==> c == key[0] && Spells(us[1..], key[1..])
  {
    if Denoted(us[1..]).Some? {
      assert ([c] + Denoted(us[1..]).value)[1..] == Denoted(us[1..]).value;
      assert key == [key[0]] + key[1..];
    }
  }

  lemma FitsFirst(us: seq<Unit>, key: string)
    requires GoodUnits(us) && us != [] && |us| == |key|
    ensures FitsEach(us, key) <==> Fits(us[0], key[0]) && FitsEach(us[1..], key[1..])
  {
    if Fits(us[0], key[0]) && FitsEach(us[1..], key[1..]) {
      forall i | 0 <= i < |us|
        ensures Fits(us[i], key[i])
      {
        assert i > 0 ==> Fits(us[1..][i - 1], key[1..][i - 1]);
      }
    }
    if FitsEach(us, key) {
      assert forall i :: 0 <= i < |us| - 1 ==> us[1..][i] == us[i + 1] && key[1..][i] == key[i + 1];
    }
  }

  /** A first unit of several bytes leaves too few bytes for the others. */
  lemma LongUnitIsNotSpelled(us: seq<Unit>, key: string)
    requires GoodUnits(us) && us != [] && |us| == |key| && us[0].Unicode? && CodeUnit(us[0].hex) >= 0x80
    ensures !Spells(us, key)
  {
    DenotedIsLong(us[1..]);
    if StartsWithPair(us) {
      DenotedIsLong(us[2..]);
      PairIsFourBytes(us);
    }
  }

  /** A key is spelt with as many bytes as it has units exactly when each unit fits its byte. */
  lemma {:induction false} SpelledUnitByUnit(us: seq<Unit>, key: string)
    requires GoodUnits(us) && |us| == |key|
    ensures Spells(us, key) <==> FitsEach(us, key)
  {
    if us != [] {
      FitsFirst(us, key);
      if us[0].Unicode? && CodeUnit(us[0].hex) >= 0x80 {
        LongUnitIsNotSpelled(us, key);
      } else {
        var c := if us[0].Unicode? then CodeUnit(us[0].hex) as char else UnitMeaning(us[0]);
        FirstByteIsSpelled(us, c, key);
        SpelledUnitByUnit(us[1..], key[1..]);
      }
    }
  }

  predicate PlainFits(us: seq<Unit>, key: string)
    requires |us| == |key|
  {
    forall i :: 0 <= i < |us| && !us[i].Unicode? ==> UnitMeaning(us[i]) == key[i]
  }

  /** Each escape stands where `?` is wanted. */
  predicate EscapesAreRead(us: seq<Unit>, key: string)
    requires |us| == |key|
  {
    forall i :: 0 <= i < |us| && us[i].Unicode? ==> key[i] == '?'
  }

  /** Each escape stands where the one byte is wanted that it denotes. */
  predicate EscapesAreSpelled(us: seq<Unit>, key: string)
    requires GoodUnits(us) && |us| == |key|
  {
    forall i :: 0 <= i < |us| && us[i].Unicode? ==> CodeUnit(us[i].hex) == key[i] as int < 0x80
  }

  lemma ReadingsOfAsManyBytes(us: seq<Unit>, key: string)
    requires GoodUnits(us) && |us| == |key|
    ensures Meaning(us) == key <==> PlainFits(us, key) && EscapesAreRead(us, key)
    ensures Spells(us, key) <==> PlainFits(us, key) && EscapesAreSpelled(us, key)
  {
    MeaningIsUnitByUnit(us, key);
    SpelledUnitByUnit(us, key);
    FitsInParts(us, key);
  }

  lemma FitsInParts(us: seq<Unit>, key: string)
    requires GoodUnits(us) && |us| == |key|
    ensures FitsEach(us, key) <==> PlainFits(us, key) && EscapesAreSpelled(us, key)
  {}

  /** Whether the plugin reads a key right as far as one wanted key goes. Of as many
      bytes as the key has units: exactly when another character rules it out, or
      the escapes all fit the plugin's reading just when they all fit the RFC's. Of
      fewer bytes: always. Of more: exactly when the key does not denote it. */
  lemma KeyIsReadRight(us: seq<Unit>, key: string)
    requires GoodUnits(us)
    ensures |us| == |key| ==>
              ((Meaning(us) == key <==> Spells(us, key))
               <==> !PlainFits(us, key) || (EscapesAreRead(us, key) <==> EscapesAreSpelled(us, key)))
    ensures |us| > |key| ==> Meaning(us) != key && !Spells(us, key)
    ensures |us| < |key| ==> Meaning(us) != key
  {
    MeaningIsLong(us);
    DenotedIsLong(us);
    if |us| == |key| {
      ReadingsOfAsManyBytes(us, key);
    }
  }

  lemma MeaningIsLong(us: seq<Unit>)
    ensures |Meaning(us)| == |us|
  {
    if us != [] {
      MeaningAt(us, 0);
    }
  }

  lemma MeaningIsUnitByUnit(us: seq<Unit>, key: string)
    requires |us| == |key|
    ensures Meaning(us) == key <==> PlainFits(us, key) && EscapesAreRead(us, key)
  {
    if us != [] {
      MeaningAt(us, 0);
    }
    forall i | 0 <= i < |us|
      ensures Meaning(us)[i] == UnitMeaning(us[i])
    {
      MeaningAt(us, i);
    }
  }

  predicate OnlyQuestionMarks(us: seq<Unit>)
    requires GoodUnits(us)
  {
    forall i :: 0 <= i < |us| && us[i].Unicode? ==> CodeUnit(us[i].hex) == '?' as int
  }

  /** The plugin reads a key as the RFC does, whatever is wanted, exactly when every
      escape in it is that of a question mark. */
  lemma WhenEveryKeyIsReadRight(us: seq<Unit>)
    requires GoodUnits(us)
    ensures (forall key :: Meaning(us) == key <==> Spells(us, key)) <==> OnlyQuestionMarks(us)
  {
    var key := Meaning(us);
    MeaningIsLong(us);
    ReadingsOfAsManyBytes(us, key);
    assert Spells(us, key) <==> OnlyQuestionMarks(us);
  }

  // The escapes of a key need not each fit both readings or neither: `x\u0061` is
  // `ya` in neither, though its escape fits only one of them.
  lemma EscapesNeedNotFitOneByOne()
    ensures var us := [Plain('x')] + [Unicode("0061")];
            && GoodUnits(us) && Meaning(us) != "ya" && !Spells(us, "ya")
            && us[1] == Unicode("0061") && CodeUnit("0061") == 'a' as int && 'a' != '?'
  {
    var us := [Plain('x')] + [Unicode("0061")];
    assert UnitMeaning(us[0]) != "ya"[0];
    assert !PlainFits(us, "ya");
    ReadingsOfAsManyBytes(us, "ya");
  }

  // ------------------------------------------------------ objects with one key

  /** {"...":1} */
  function OneMember(us: seq<Unit>): Items {
    Last(Item("", Some(Name(us, "", "")), Number(false, "1", None, None), ""))
  }

  lemma ReadsOfOneMember(us: seq<Unit>, key: string)
    requires GoodUnits(us)
    ensures GoodItems(OneMember(us), Object)
    ensures RawField(TextOf(Nested(Object, OneMember(us))), key) == if Meaning(us) == key then Some("1") else None
    ensures RfcField(OneMember(us), key) == if Spells(us, key) then Some("1") else None
  {
    var items := OneMember(us);
    RawFieldFindsFirstMember("", items, "", key);
    assert "" + TextOf(Nested(Object, items)) == TextOf(Nested(Object, items));
    OneByteNumber();
    assert Members(items) == [items.item];
    assert SpelledAs(items.item, key) <==> Spells(us, key);
  }

  lemma OneByteNumber()
    ensures TextOf(Number(false, "1", None, None)) == "1"
  {}

  /** Such an object is read right whatever is wanted exactly when each escape is a
      question mark's; else what its key denotes is missed, or what it is read as
      is found falsely. */
  lemma WhenOneMemberIsReadRight(us: seq<Unit>)
    requires GoodUnits(us)
    ensures (forall key :: RawField(TextOf(Nested(Object, OneMember(us))), key) == RfcField(OneMember(us), key))
            <==> OnlyQuestionMarks(us)
  {
    WhenEveryKeyIsReadRight(us);
    forall key
      ensures RawField(TextOf(Nested(Object, OneMember(us))), key) == RfcField(OneMember(us), key)
              <==> (Meaning(us) == key <==> Spells(us, key))
    {
      ReadsOfOneMember(us, key);
    }
  }

  lemma NothingAfter(bytes: string)
    ensures Before(bytes, Some("")) == Some(bytes)
  {
    assert bytes + "" == bytes;
  }

  lemma NothingDenoted(us: seq<Unit>)
    requires us == []
    ensures GoodUnits(us) && Denoted(us) == Some("")
  {}

  lemma OneEscapeDenotes(us: seq<Unit>)
    requires GoodUnits(us) && |us| == 1 && us[0].Unicode? && Utf8.IsCodePoint(CodeUnit(us[0].hex))
    ensures Denoted(us) == Some(Utf8.Encoded(CodeUnit(us[0].hex))) && Meaning(us) == "?"
  {
    NothingDenoted(us[1..]);
    NothingAfter(Utf8.Encoded(CodeUnit(us[0].hex)));
    MeaningAt(us, 0);
  }

  lemma OnePairDenotes(us: seq<Unit>)
    requires GoodUnits(us) && |us| == 2 && StartsWithPair(us)
    ensures Denoted(us) == Some(Utf8.Encoded(PairOf(CodeUnit(us[0].hex), CodeUnit(us[1].hex)))) && |Meaning(us)| == 2
  {
    NothingDenoted(us[2..]);
    NothingAfter(Utf8.Encoded(PairOf(CodeUnit(us[0].hex), CodeUnit(us[1].hex))));
    MeaningIsLong(us);
  }

  lemma EscapedA(us: seq<Unit>)
    requires us == [Unicode("0061")]
    ensures GoodUnits(us) && Denoted(us) == Some("a") && Meaning(us) == "?"
  {
    OneEscapeDenotes(us);
  }

  /** {"\u0061":1} has an `a`, and it is missed. */
  lemma UnicodeKeyIsMissed()
    ensures RfcField(OneMember([Unicode("0061")]), "a") == Some("1")
    ensures RawField(TextOf(Nested(Object, OneMember([Unicode("0061")]))), "a") == None
  {
    EscapedA([Unicode("0061")]);
    ReadsOfOneMember([Unicode("0061")], "a");
  }

  /** {"\u0061":1} has no `?`, and one is found. */
  lemma UnicodeKeyAnswersFalsely()
    ensures RfcField(OneMember([Unicode("0061")]), "?") == None
    ensures RawField(TextOf(Nested(Object, OneMember([Unicode("0061")]))), "?") == Some("1")
  {
    EscapedA([Unicode("0061")]);
    ReadsOfOneMember([Unicode("0061")], "?");
  }

  /** {"\u00e9":1} has a member named U+00E9, two bytes in UTF-8, and it is missed;
      {"\ud83d\ude00":1} has one named U+1F600, four bytes, and that is too. */
  lemma LongKeysAreMissed()
    ensures RfcField(OneMember([Unicode("00e9")]), "\U{00C3}\U{00A9}") == Some("1")
    ensures RawField(TextOf(Nested(Object, OneMember([Unicode("00e9")]))), "\U{00C3}\U{00A9}") == None
    ensures RfcField(OneMember([Unicode("d83d"), Unicode("de00")]), "\U{00F0}\U{009F}\U{0098}\U{0080}") == Some("1")
    ensures RawField(TextOf(Nested(Object, OneMember([Unicode("d83d"), Unicode("de00")]))),
                     "\U{00F0}\U{009F}\U{0098}\U{0080}") == None
  {
    var accent, pair := [Unicode("00e9")], [Unicode("d83d"), Unicode("de00")];
    AccentIsTwoBytes(accent);
    PairIsOneCodePoint(pair);
    ReadsOfOneMember(accent, "\U{00C3}\U{00A9}");
    ReadsOfOneMember(pair, "\U{00F0}\U{009F}\U{0098}\U{0080}");
  }

  lemma AccentIsTwoBytes(us: seq<Unit>)
    requires us == [Unicode("00e9")]
    ensures GoodUnits(us) && Denoted(us) == Some("\U{00C3}\U{00A9}") && |Meaning(us)| == 1
  {
    OneEscapeDenotes(us);
    assert CodeUnit(us[0].hex) == 0xE9;
    assert Utf8.Encoded(0xE9) == "\U{00C3}\U{00A9}";
  }

  lemma PairIsOneCodePoint(us: seq<Unit>)
    requires us == [Unicode("d83d"), Unicode("de00")]
    ensures GoodUnits(us) && Denoted(us) == Some("\U{00F0}\U{009F}\U{0098}\U{0080}") && |Meaning(us)| == 2
  {
    assert CodeUnit(us[0].hex) == 0xD83D && CodeUnit(us[1].hex) == 0xDE00;
    OnePairDenotes(us);
    assert PairOf(0xD83D, 0xDE00) == 0x1F600;
    assert Utf8.Encoded(0x1F600) == "\U{00F0}\U{009F}\U{0098}\U{0080}";
  }
}
