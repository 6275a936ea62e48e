// The scanner of json_util.cpp agrees with the grammar of RFC 8259: on every
// well-formed object a lookup finds exactly the text of the first top-level
// member with the key, whatever is nested inside the members.
module JsonScanning {
  import opened ByteText
  import opened JsonUtil

  // ------------------------------------------------------- one piece at a time

  lemma {:induction false} SpaceIsDropped(w: string, tail: string)
    requires forall i :: 0 <= i < |w| ==> IsSpace(w[i])
    ensures DropSpace(w + tail) == DropSpace(tail)
  {
    if w == "" {
      assert w + tail == tail;
    } else {
      assert (w + tail)[1..] == w[1..] + tail;
      SpaceIsDropped(w[1..], tail);
    }
  }

  lemma SpaceStops(w: string, tail: string)
    requires Whitespace(w) && (tail == "" || !IsSpace(tail[0]))
    ensures DropSpace(w + tail) == tail
  {
    SpaceIsDropped(w, tail);
  }

  lemma {:induction false} UnitsAreScanned(us: seq<Unit>, tail: string)
    requires GoodUnits(us)
    ensures ScanUnits(PutUnits(us, ['"'] + tail)) == Decoded(Meaning(us), tail)
  {
    if us != [] {
      var text := PutUnits(us, ['"'] + tail);
      var rest := PutUnits(us[1..], ['"'] + tail);
      UnitsAreScanned(us[1..], tail);
      UnitIsScanned(us[0], rest);
    }
  }

  lemma UnitIsScanned(u: Unit, rest: string)
    requires GoodUnit(u)
    ensures ScanUnits(PutUnit(u, rest)) == ScanUnits(rest).Prefixed(UnitMeaning(u))
  {
    var text := PutUnit(u, rest);
    match u
    case Plain(c) => assert text[1..] == rest;
    case Escape(c) => assert text[2..] == rest;
    case Unicode(hex) => assert text[6..] == rest;
  }

  lemma StringIsScanned(us: seq<Unit>, tail: string)
    requires GoodUnits(us)
    ensures ScanString(PutString(us, tail)) == Decoded(Meaning(us), tail)
  {
    assert PutString(us, tail)[1..] == PutUnits(us, ['"'] + tail);
    UnitsAreScanned(us, tail);
  }

  // ------------------------------------------------- stepping over one value

  /** A character that neither opens nor closes anything. */
  predicate Inert(c: char) {
    c != '"' && c != '{' && c != '}' && c != '[' && c != ']'
  }

  lemma {:induction false} InertIsSkipped(w: string, tail: string, kind: Kind, depth: int)
    requires forall i :: 0 <= i < |w| ==> Inert(w[i])
    ensures SkipNested(w + tail, Open(kind), Close(kind), depth) == SkipNested(tail, Open(kind), Close(kind), depth)
  {
    if w == "" {
      assert w + tail == tail;
    } else {
      assert (w + tail)[1..] == w[1..] + tail;
      InertIsSkipped(w[1..], tail, kind, depth);
    }
  }

  lemma StringIsSkipped(us: seq<Unit>, tail: string, kind: Kind, depth: int)
    requires GoodUnits(us)
    ensures SkipNested(PutString(us, tail), Open(kind), Close(kind), depth)
            == SkipNested(tail, Open(kind), Close(kind), depth)
  {
    StringIsScanned(us, tail);
  }

  /** A bare value has no structural character in it. */
  lemma NumberIsBare(v: Value)
    requires v.Number? && GoodNumber(v)
    ensures NumberText(v) != ""
    ensures forall i :: 0 <= i < |NumberText(v)| ==> Inert(NumberText(v)[i]) && !EndsBare(NumberText(v)[i])
  {
  }

  lemma BracketsBalance(outer: Kind, inner: string, tail: string, kind: Kind, depth: int)
    requires depth >= 1
    requires var deeper := depth + (if outer == kind then 1 else 0);
             SkipNested(inner, Open(kind), Close(kind), deeper) ==
             SkipNested([Close(outer)] + tail, Open(kind), Close(kind), deeper)
    ensures SkipNested([Open(outer)] + inner, Open(kind), Close(kind), depth) ==
            SkipNested(tail, Open(kind), Close(kind), depth)
  {
    assert ([Open(outer)] + inner)[1..] == inner;
    assert ([Close(outer)] + tail)[1..] == tail;
  }

  // Inside brackets of its own kind or the other, a well-formed value leaves
  // the depth as it found it.
  lemma {:induction false} ValueIsSkipped(v: Value, tail: string, kind: Kind, depth: int)
    requires GoodValue(v) && depth >= 1
    ensures SkipNested(PutValue(v, tail), Open(kind), Close(kind), depth)
            == SkipNested(tail, Open(kind), Close(kind), depth)
    decreases v
  {
    match v {
      case Word(word) =>
        InertIsSkipped(word, tail, kind, depth);
      case Number(_, _, _, _) =>
        NumberIsBare(v);
        InertIsSkipped(NumberText(v), tail, kind, depth);
      case Quoted(units) =>
        StringIsSkipped(units, tail, kind, depth);
      case Empty(outer, gap) =>
        InertIsSkipped(gap, [Close(outer)] + tail, kind, depth + (if outer == kind then 1 else 0));
        BracketsBalance(outer, gap + ([Close(outer)] + tail), tail, kind, depth);
      case Nested(outer, items) =>
        ItemsAreSkipped(items, [Close(outer)] + tail, outer, kind, depth + (if outer == kind then 1 else 0));
        BracketsBalance(outer, PutItems(items, [Close(outer)] + tail), tail, kind, depth);
    }
  }

  lemma {:induction false} ItemsAreSkipped(items: Items, tail: string, outer: Kind, kind: Kind, depth: int)
    requires GoodItems(items, outer) && depth >= 1
    ensures SkipNested(PutItems(items, tail), Open(kind), Close(kind), depth)
            == SkipNested(tail, Open(kind), Close(kind), depth)
    decreases items
  {
    match items {
      case Last(item) =>
        ItemIsSkipped(item, tail, outer, kind, depth);
      case More(item, rest) =>
        ItemIsSkipped(item, [','] + PutItems(rest, tail), outer, kind, depth);
        InertIsSkipped([','], PutItems(rest, tail), kind, depth);
        ItemsAreSkipped(rest, tail, outer, kind, depth);
    }
  }

  lemma {:induction false} ItemIsSkipped(item: Item, tail: string, outer: Kind, kind: Kind, depth: int)
    requires GoodItem(item, outer) && depth >= 1
    ensures SkipNested(PutItem(item, tail), Open(kind), Close(kind), depth)
            == SkipNested(tail, Open(kind), Close(kind), depth)
    decreases item
  {
    var value := PutValue(item.value, item.after + tail);
    InertIsSkipped(item.before, PutName(item.name, value), kind, depth);
    NameIsSkipped(item.name, value, kind, depth);
    ValueIsSkipped(item.value, item.after + tail, kind, depth);
    InertIsSkipped(item.after, tail, kind, depth);
  }

  lemma NameIsSkipped(name: Option<Name>, tail: string, kind: Kind, depth: int)
    requires name.Some? ==>
               GoodUnits(name.value.key) && Whitespace(name.value.beforeColon) && Whitespace(name.value.afterColon)
    ensures SkipNested(PutName(name, tail), Open(kind), Close(kind), depth)
            == SkipNested(tail, Open(kind), Close(kind), depth)
  {
    if name.Some? {
      var n := name.value;
      var colon := [':'] + (n.afterColon + tail);
      StringIsSkipped(n.key, n.beforeColon + colon, kind, depth);
      InertIsSkipped(n.beforeColon, colon, kind, depth);
      InertIsSkipped([':'], n.afterColon + tail, kind, depth);
      InertIsSkipped(n.afterColon, tail, kind, depth);
    }
  }

  lemma {:induction false} BareIsDropped(w: string, tail: string)
    requires forall i :: 0 <= i < |w| ==> !EndsBare(w[i])
    requires tail == "" || EndsBare(tail[0])
    ensures DropBare(w + tail) == tail
  {
    if w == "" {
      assert w + tail == tail;
    } else {
      assert (w + tail)[1..] == w[1..] + tail;
      BareIsDropped(w[1..], tail);
    }
  }

  lemma {:induction false} ValueStarts(v: Value, tail: string)
    requires GoodValue(v)
    ensures PutValue(v, tail) != "" && !IsSpace(PutValue(v, tail)[0])
  {
    if v.Number? {
      NumberIsBare(v);
    }
  }

  // The scanner steps over exactly one value.
  lemma {:induction false} ValueIsStepped(v: Value, tail: string)
    requires GoodValue(v) && (tail == "" || EndsBare(tail[0]))
    ensures SkipValue(PutValue(v, tail)) == Some(tail)
  {
    ValueStarts(v, tail);
    match v {
      case Word(word) =>
        BareIsDropped(word, tail);
      case Number(_, _, _, _) =>
        NumberIsBare(v);
        BareIsDropped(NumberText(v), tail);
      case Quoted(units) =>
        StringIsScanned(units, tail);
      case Empty(kind, gap) =>
        var inner := gap + ([Close(kind)] + tail);
        assert PutValue(v, tail)[1..] == inner;
        InertIsSkipped(gap, [Close(kind)] + tail, kind, 1);
        assert ([Close(kind)] + tail)[1..] == tail;
      case Nested(kind, items) =>
        var inner := PutItems(items, [Close(kind)] + tail);
        assert PutValue(v, tail)[1..] == inner;
        ItemsAreSkipped(items, [Close(kind)] + tail, kind, kind, 1);
        assert ([Close(kind)] + tail)[1..] == tail;
    }
  }

  // --------------------------------------------- printing with a tail behind it

  lemma {:induction false} UnitsThenTail(us: seq<Unit>, mid: string, tail: string)
    ensures PutUnits(us, mid + tail) == PutUnits(us, mid) + tail
  {
    if us != [] {
      UnitsThenTail(us[1..], mid, tail);
      UnitThenTail(us[0], PutUnits(us[1..], mid), tail);
    }
  }

  lemma UnitThenTail(u: Unit, mid: string, tail: string)
    ensures PutUnit(u, mid + tail) == PutUnit(u, mid) + tail
  {}

  lemma StringThenTail(us: seq<Unit>, mid: string, tail: string)
    ensures PutString(us, mid + tail) == PutString(us, mid) + tail
  {
    assert ['"'] + (mid + tail) == (['"'] + mid) + tail;
    UnitsThenTail(us, ['"'] + mid, tail);
  }

  lemma {:induction false} ValueThenTail(v: Value, mid: string, tail: string)
    ensures PutValue(v, mid + tail) == PutValue(v, mid) + tail
    decreases v
  {
    match v {
      case Word(_) =>
      case Number(_, _, _, _) =>
      case Quoted(units) =>
        StringThenTail(units, mid, tail);
      case Empty(kind, gap) =>
      case Nested(kind, items) =>
        assert [Close(kind)] + (mid + tail) == [Close(kind)] + mid + tail;
        ItemsThenTail(items, [Close(kind)] + mid, tail);
    }
  }

  lemma {:induction false} ItemsThenTail(items: Items, mid: string, tail: string)
    ensures PutItems(items, mid + tail) == PutItems(items, mid) + tail
    decreases items
  {
    match items {
      case Last(item) =>
        ItemThenTail(item, mid, tail);
      case More(item, rest) =>
        ItemsThenTail(rest, mid, tail);
        assert [','] + (PutItems(rest, mid) + tail) == [','] + PutItems(rest, mid) + tail;
        ItemThenTail(item, [','] + PutItems(rest, mid), tail);
    }
  }

  lemma {:induction false} ItemThenTail(item: Item, mid: string, tail: string)
    ensures PutItem(item, mid + tail) == PutItem(item, mid) + tail
    decreases item
  {
    assert item.after + (mid + tail) == item.after + mid + tail;
    ValueThenTail(item.value, item.after + mid, tail);
    var value := PutValue(item.value, item.after + mid);
    if item.name.Some? {
      var n := item.name.value;
      var before := n.beforeColon + ([':'] + (n.afterColon + value));
      assert n.beforeColon + ([':'] + (n.afterColon + (value + tail))) == before + tail;
      StringThenTail(n.key, before, tail);
    }
  }

  // ---------------------------------------------------------- the main results

  lemma {:induction false} MemberIsRead(item: Item, tail: string)
    requires GoodItem(item, Object) && tail != "" && tail[0] in ",}"
    ensures ReadMember(PutItem(item, tail))
            == Member(Meaning(item.name.value.key), TextOf(item.value), item.after + tail)
  {
    var n := item.name.value;
    var rest := item.after + tail;
    var value := PutValue(item.value, rest);
    var colon := [':'] + (n.afterColon + value);
    SpaceStops(item.before, PutString(n.key, n.beforeColon + colon));
    StringIsScanned(n.key, n.beforeColon + colon);
    SpaceStops(n.beforeColon, colon);
    assert colon[1..] == n.afterColon + value;
    ValueStarts(item.value, rest);
    SpaceStops(n.afterColon, value);
    ValueIsStepped(item.value, rest);
    ValueThenTail(item.value, "", rest);
    assert "" + rest == rest;
    assert value[..|value| - |rest|] == TextOf(item.value);
  }

  lemma {:induction false} MembersAreSearched(items: Items, tail: string, key: string)
    requires GoodItems(items, Object)
    ensures FieldIn(PutItems(items, ['}'] + tail), key) == FirstMember(items, key)
    decreases items
  {
    var item := items.item;
    var behind := if items.Last? then ['}'] + tail else [','] + PutItems(items.rest, ['}'] + tail);
    MemberIsRead(item, behind);
    SpaceStops(item.after, behind);
    if items.More? {
      assert behind[1..] == PutItems(items.rest, ['}'] + tail);
      MembersAreSearched(items.rest, tail, key);
    }
  }

  /** For every well-formed object, in any whitespace and with anything behind it. */
  lemma RawFieldFindsFirstMember(before: string, items: Items, after: string, key: string)
    requires Whitespace(before) && GoodItems(items, Object)
    ensures RawField(before + PutValue(Nested(Object, items), after), key) == FirstMember(items, key)
  {
    var text := PutValue(Nested(Object, items), after);
    SpaceStops(before, text);
    assert text[1..] == PutItems(items, ['}'] + after);
    MembersAreSearched(items, after, key);
  }

  lemma RawFieldOfEmptyObject(before: string, gap: string, after: string, key: string)
    requires Whitespace(before) && Whitespace(gap)
    ensures RawField(before + PutValue(Empty(Object, gap), after), key) == None
  {
    var text := PutValue(Empty(Object, gap), after);
    SpaceStops(before, text);
    assert text[1..] == gap + (['}'] + after);
    SpaceStops(gap, ['}'] + after);
  }

  /** A well-formed text that is not an object has no fields. */
  lemma RawFieldOfOtherValues(before: string, v: Value, after: string, key: string)
    requires Whitespace(before) && GoodValue(v)
    requires !((v.Empty? || v.Nested?) && v.kind == Object)
    ensures RawField(before + PutValue(v, after), key) == None
  {
    var text := PutValue(v, after);
    ValueStarts(v, after);
    SpaceStops(before, text);
    if v.Number? {
      NumberIsBare(v);
      assert text[0] == NumberText(v)[0];
    }
  }

  // ------------------------------------------------------------ escaped strings

  const HEX := "0123456789abcdef"

  /** json_escape's choice of escape for one byte. */
  function EscapeUnit(c: char): Unit {
    match c
    case '"' => Escape('"')
    case '\\' => Escape('\\')
    case '\U{0008}' => Escape('b')
    case '\U{000C}' => Escape('f')
    case '\n' => Escape('n')
    case '\r' => Escape('r')
    case '\t' => Escape('t')
    case _ => if c < ' ' then Unicode("00" + [HEX[c as int / 16], HEX[c as int % 16]]) else Plain(c)
  }

  function EscapeUnits(s: string): (us: seq<Unit>)
    ensures |us| == |s| && GoodUnits(us)
  {
    seq(|s|, i requires 0 <= i < |s| => EscapeUnit(s[i]))
  }

  /** The text between the quotes. */
  function Escaped(s: string): string {
    PutUnits(EscapeUnits(s), "")
  }

  method JsonEscape(value: string) returns (escaped: string)
    ensures escaped == Escaped(value)
  {
    escaped := "";
    for i := 0 to |value|
      invariant escaped == Escaped(value[..i])
    {
      var us := EscapeUnits(value[..i + 1]);
      assert us[..i] == EscapeUnits(value[..i]) && us == us[..i] + [us[i]];
      UnitsAppend(us[..i], us[i]);
      escaped := escaped + PutUnit(EscapeUnit(value[i]), "");
    }
    assert value[..|value|] == value;
  }

  lemma {:induction false} UnitsAppend(us: seq<Unit>, u: Unit)
    ensures PutUnits(us + [u], "") == PutUnits(us, "") + PutUnit(u, "")
  {
    if us == [] {
      assert us + [u] == [u];
      assert [u][1..] == [];
    } else {
      assert (us + [u])[1..] == us[1..] + [u];
      UnitsAppend(us[1..], u);
    }
  }

  /** Every control byte has a two-character escape. */
  predicate SurvivesEscaping(s: string) {
    forall i :: 0 <= i < |s| ==> ' ' <= s[i] || s[i] in "\U{0008}\U{000C}\n\r\t"
  }

  lemma {:induction false} MeaningAt(us: seq<Unit>, i: nat)
    requires i < |us|
    ensures |Meaning(us)| == |us| && Meaning(us)[i] == UnitMeaning(us[i])
  {
    if i > 0 {
      MeaningAt(us[1..], i - 1);
    } else if |us| > 1 {
      MeaningAt(us[1..], 0);
    }
  }

  lemma EscapedMeaning(s: string)
    ensures Meaning(EscapeUnits(s)) == s <==> SurvivesEscaping(s)
  {
    var us := EscapeUnits(s);
    if s != "" {
      MeaningAt(us, 0);
    }
    forall i | 0 <= i < |s|
      ensures Meaning(us)[i] == UnitMeaning(EscapeUnit(s[i]))
    {
      EscapedMeaningAt(s, i);
    }
  }

  lemma EscapedMeaningAt(s: string, i: nat)
    requires i < |s|
    ensures |Meaning(EscapeUnits(s))| == |s| && Meaning(EscapeUnits(s))[i] == UnitMeaning(EscapeUnit(s[i]))
  {
    MeaningAt(EscapeUnits(s), i);
  }

  /** Unquoting a quoted escape gives the string back exactly when it has no other control byte. */
  lemma UnquoteUndoesEscape(s: string)
    ensures Unquote("\"" + Escaped(s) + "\"") == Some(s) <==> SurvivesEscaping(s)
  {
    var raw := "\"" + Escaped(s) + "\"";
    var us := EscapeUnits(s);
    UnitsThenTail(us, "", ['"']);
    assert "" + ['"'] == ['"'] && ['"'] + "" == ['"'];
    assert raw == ['"'] + (Escaped(s) + ['"']);
    assert raw == PutString(us, "");
    StringIsScanned(EscapeUnits(s), "");
    EscapedMeaning(s);
  }
}
