// src/transport/json_util.cpp: the hand-written scanner over JSON, and the
// grammar of RFC 8259 it is measured against.
module JsonUtil {
  import opened ByteText

  // ------------------------------------------------------------- the grammar
  //
  // A JSON text is given by its concrete syntax tree: every choice the grammar
  // leaves open (whitespace, escapes, digits) is a field. PutX(x, tail) is the
  // text of x followed by tail.

  /** One `char` of RFC 8259 section 7: unescaped, a two-character escape, or \uXXXX. */
  datatype Unit = Plain(c: char) | Escape(c: char) | Unicode(hex: string)

  datatype Kind = Object | Array

  datatype Value =
    | Word(word: string)
    | Number(minus: bool, whole: string, fraction: Option<string>, exponent: Option<Exponent>)
    | Quoted(units: seq<Unit>)
    | Empty(kind: Kind, gap: string)
    | Nested(kind: Kind, items: Items)

  datatype Exponent = Exponent(mark: char, sign: string, digits: string)

  datatype Items = Last(item: Item) | More(item: Item, rest: Items)

  /** An array element, or an object member when it has a name. */
  datatype Item = Item(before: string, name: Option<Name>, value: Value, after: string)

  datatype Name = Name(key: seq<Unit>, beforeColon: string, afterColon: string)

  const ESCAPES := "\"\\/bfnrt"

  predicate IsHexDigit(c: char) {
    IsDigit(c) || 'a' <= c <= 'f' || 'A' <= c <= 'F'
  }

  predicate GoodUnit(u: Unit) {
    match u
    case Plain(c) => ' ' <= c && c != '"' && c != '\\'
    case Escape(c) => c in ESCAPES
    case Unicode(hex) => |hex| == 4 && forall i :: 0 <= i < 4 ==> IsHexDigit(hex[i])
  }

  predicate GoodUnits(us: seq<Unit>) {
    forall i :: 0 <= i < |us| ==> GoodUnit(us[i])
  }

  /** `ws` of RFC 8259 section 2. */
  predicate Whitespace(w: string) {
    forall i :: 0 <= i < |w| ==> w[i] in " \t\n\r"
  }

  predicate Digits(s: string) {
    s != "" && AllDigits(s)
  }

  predicate GoodNumber(v: Value)
    requires v.Number?
  {
    && Digits(v.whole) && (v.whole[0] == '0' ==> |v.whole| == 1)
    && (v.fraction.Some? ==> Digits(v.fraction.value))
    && (v.exponent.Some? ==>
          && v.exponent.value.mark in "eE"
          && v.exponent.value.sign in ["", "+", "-"]
          && Digits(v.exponent.value.digits))
  }

  /** Section 3 of RFC 8259: the text is well formed. */
  predicate GoodValue(v: Value) {
    match v
    case Word(word) => word in ["true", "false", "null"]
    case Number(_, _, _, _) => GoodNumber(v)
    case Quoted(units) => GoodUnits(units)
    case Empty(_, gap) => Whitespace(gap)
    case Nested(kind, items) => GoodItems(items, kind)
  }

  predicate GoodItems(items: Items, kind: Kind) {
    GoodItem(items.item, kind) && (items.More? ==> GoodItems(items.rest, kind))
  }

  predicate GoodItem(item: Item, kind: Kind) {
    && Whitespace(item.before) && Whitespace(item.after)
    && (kind == Object <==> item.name.Some?)
    && (item.name.Some? ==>
          && GoodUnits(item.name.value.key)
          && Whitespace(item.name.value.beforeColon)
          && Whitespace(item.name.value.afterColon))
    && GoodValue(item.value)
  }

  function PutUnit(u: Unit, tail: string): string {
    match u
    case Plain(c) => [c] + tail
    case Escape(c) => ['\\', c] + tail
    case Unicode(hex) => ['\\', 'u'] + hex + tail
  }

  function PutUnits(us: seq<Unit>, tail: string): string {
    if us == [] then tail else PutUnit(us[0], PutUnits(us[1..], tail))
  }

  function PutString(us: seq<Unit>, tail: string): string {
    ['"'] + PutUnits(us, ['"'] + tail)
  }

  function Open(kind: Kind): char {
    if kind == Object then '{' else '['
  }

  function Close(kind: Kind): char {
    if kind == Object then '}' else ']'
  }

  function NumberText(v: Value): string
    requires v.Number?
  {
    (if v.minus then "-" else "") + v.whole
    + (if v.fraction.Some? then "." + v.fraction.value else "")
    + (if v.exponent.Some? then [v.exponent.value.mark] + v.exponent.value.sign + v.exponent.value.digits else "")
  }

  function PutValue(v: Value, tail: string): string {
    match v
    case Word(word) => word + tail
    case Number(_, _, _, _) => NumberText(v) + tail
    case Quoted(units) => PutString(units, tail)
    case Empty(kind, gap) => [Open(kind)] + (gap + ([Close(kind)] + tail))
    case Nested(kind, items) => [Open(kind)] + PutItems(items, [Close(kind)] + tail)
  }

  function PutItems(items: Items, tail: string): string {
    match items
    case Last(item) => PutItem(item, tail)
    case More(item, rest) => PutItem(item, [','] + PutItems(rest, tail))
  }

  function PutItem(item: Item, tail: string): string {
    item.before + PutName(item.name, PutValue(item.value, item.after + tail))
  }

  function PutName(name: Option<Name>, tail: string): string {
    match name
    case None => tail
    case Some(l) => PutString(l.key, l.beforeColon + ([':'] + (l.afterColon + tail)))
  }

  /** The text of a value. */
  function TextOf(v: Value): string {
    PutValue(v, "")
  }

  /** What a character of a string denotes; the plugin reads every \uXXXX as `?`. */
  function UnitMeaning(u: Unit): char {
    match u
    case Plain(c) => c
    case Escape(c) => Unescaped(c)
    case Unicode(_) => '?'
  }

  function Unescaped(c: char): char {
    match c
    case 'b' => '\U{0008}'
    case 'f' => '\U{000C}'
    case 'n' => '\n'
    case 'r' => '\r'
    case 't' => '\t'
    case _ => c
  }

  function Meaning(us: seq<Unit>): string {
    if us == [] then "" else [UnitMeaning(us[0])] + Meaning(us[1..])
  }

  /** The text of the first member whose key denotes `key`: what a lookup should answer. */
  function FirstMember(items: Items, key: string): Option<string> {
    if items.item.name.Some? && Meaning(items.item.name.value.key) == key then Some(TextOf(items.item.value))
    else if items.More? then FirstMember(items.rest, key)
    else None
  }

  // ------------------------------------------------------------- the scanner
  //
  // The same scanner on suffixes: each function takes the text still to be
  // read and gives back the text after what it read.

  function DropSpace(s: string): (r: string)
    ensures |r| <= |s|
    ensures r != "" ==> !IsSpace(r[0])
  {
    if s != "" && IsSpace(s[0]) then DropSpace(s[1..]) else s
  }

  datatype Scan = NoString | Decoded(text: string, rest: string) {
    function Prefixed(c: char): Scan {
      if NoString? then NoString else Decoded([c] + text, rest)
    }

    function After(read: string): Scan {
      if NoString? then NoString else Decoded(read + text, rest)
    }
  }

  /** Reads a string whose opening quote is already behind. */
  function ScanUnits(s: string): (r: Scan)
    ensures r.Decoded? ==> |r.rest| < |s|
  {
    if s == "" then NoString
    else if s[0] == '"' then Decoded("", s[1..])
    else if s[0] != '\\' then ScanUnits(s[1..]).Prefixed(s[0])
    else if |s| < 2 then NoString
    else if s[1] == 'u' then
      if |s| < 6 then NoString else ScanUnits(s[6..]).Prefixed('?')
    else if s[1] in ESCAPES then ScanUnits(s[2..]).Prefixed(Unescaped(s[1]))
    else NoString
  }

  function ScanString(s: string): (r: Scan)
    ensures r.Decoded? ==> |r.rest| < |s|
  {
    if s == "" || s[0] != '"' then NoString else ScanUnits(s[1..])
  }

  function DepthAfter(c: char, open: char, close: char, depth: int): int {
    if c == open then depth + 1 else if c == close then depth - 1 else depth
  }

  /** Reads up to the bracket that closes `depth` open ones. */
  function SkipNested(s: string, open: char, close: char, depth: int): (r: Option<string>)
    ensures r.Some? ==> |r.value| < |s|
    decreases |s|
  {
    if s == "" then None
    else if s[0] == '"' then
      var scan := ScanString(s);
      if scan.NoString? then None else SkipNested(scan.rest, open, close, depth)
    else
      var d := DepthAfter(s[0], open, close, depth);
      if s[0] == close && s[0] != open && d == 0 then Some(s[1..]) else SkipNested(s[1..], open, close, d)
  }

  predicate EndsBare(c: char) {
    c == ',' || c == '}' || c == ']' || IsSpace(c)
  }

  function DropBare(s: string): (r: string)
    ensures |r| <= |s|
  {
    if s != "" && !EndsBare(s[0]) then DropBare(s[1..]) else s
  }

  function SkipValue(text: string): (r: Option<string>)
    ensures r.Some? ==> |r.value| < |text|
  {
    var s := DropSpace(text);
    if s == "" then None
    else if s[0] == '"' then
      var scan := ScanString(s);
      if scan.NoString? then None else Some(scan.rest)
    else if s[0] == '{' then SkipNested(s, '{', '}', 0)
    else if s[0] == '[' then SkipNested(s, '[', ']', 0)
    else
      var r := DropBare(s);
      if |r| < |s| then Some(r) else None
  }

  datatype Member = NoMember | Member(name: string, value: string, rest: string)

  /** Reads one `"name": value`, up to and including the value. */
  function ReadMember(text: string): (r: Member)
    ensures r.Member? ==> |r.rest| < |text|
  {
    var name := ScanString(DropSpace(text));
    if name.NoString? then NoMember else ReadNamed(name.text, name.rest)
  }

  function ReadNamed(name: string, text: string): (r: Member)
    ensures r.Member? ==> |r.rest| < |text|
  {
    var colon := DropSpace(text);
    if colon == "" || colon[0] != ':' then NoMember else ReadValued(name, DropSpace(colon[1..]))
  }

  function ReadValued(name: string, value: string): (r: Member)
    ensures r.Member? ==> |r.rest| < |value|
  {
    var after := SkipValue(value);
    if after.None? then NoMember else Member(name, value[..|value| - |after.value|], after.value)
  }

  /** Looks through the members of an object whose opening brace is already behind. */
  function FieldIn(text: string, key: string): Option<string>
    decreases |text|
  {
    var m := ReadMember(text);
    if m.NoMember? then None
    else if m.name == key then Some(m.value)
    else FieldPast(m.rest, key)
  }

  /** The rest of the search once a member has not matched: past the comma, if there is one. */
  function FieldPast(text: string, key: string): Option<string>
    decreases |text|
  {
    var comma := DropSpace(text);
    if comma == "" || comma[0] != ',' then None else FieldIn(comma[1..], key)
  }

  function RawField(json: string, key: string): Option<string> {
    var s := DropSpace(json);
    if s == "" || s[0] != '{' then None else FieldIn(s[1..], key)
  }

  function Unquote(raw: string): Option<string> {
    var scan := ScanString(DropSpace(raw));
    if scan.NoString? then None else Some(scan.text)
  }

  // ------------------------------------------------- the scanner, in its loops

  lemma DropSpaceAt(json: string, pos: nat)
    requires pos <= |json|
    ensures DropSpace(json[pos..])
            == if pos < |json| && IsSpace(json[pos]) then DropSpace(json[pos + 1..]) else json[pos..]
  {
    if pos < |json| {
      assert json[pos..][1..] == json[pos + 1..];
    }
  }

  lemma DropBareAt(json: string, pos: nat)
    requires pos <= |json|
    ensures DropBare(json[pos..])
            == if pos < |json| && !EndsBare(json[pos]) then DropBare(json[pos + 1..]) else json[pos..]
  {
    if pos < |json| {
      assert json[pos..][1..] == json[pos + 1..];
    }
  }

  lemma ScanUnitsAt(json: string, pos: nat)
    requires pos <= |json|
    ensures ScanUnits(json[pos..]) ==
            if pos == |json| then NoString
            else if json[pos] == '"' then Decoded("", json[pos + 1..])
            else if json[pos] != '\\' then ScanUnits(json[pos + 1..]).Prefixed(json[pos])
            else if pos + 1 == |json| then NoString
            else if json[pos + 1] == 'u' then
              if pos + 6 > |json| then NoString else ScanUnits(json[pos + 6..]).Prefixed('?')
            else if json[pos + 1] in ESCAPES then ScanUnits(json[pos + 2..]).Prefixed(Unescaped(json[pos + 1]))
            else NoString
  {
    var s := json[pos..];
    if pos < |json| {
      assert s[1..] == json[pos + 1..];
    }
    if pos + 2 <= |json| {
      assert s[2..] == json[pos + 2..];
    }
    if pos + 6 <= |json| {
      assert s[6..] == json[pos + 6..];
    }
  }

  lemma SkipNestedAt(json: string, pos: nat, open: char, close: char, depth: int)
    requires pos < |json| && json[pos] != '"'
    ensures SkipNested(json[pos..], open, close, depth) ==
            var d := DepthAfter(json[pos], open, close, depth);
            if json[pos] == close && json[pos] != open && d == 0 then Some(json[pos + 1..])
            else SkipNested(json[pos + 1..], open, close, d)
  {
    assert json[pos..][1..] == json[pos + 1..];
  }

  method SkipWs(json: string, start: nat) returns (pos: nat)
    requires start <= |json|
    ensures start <= pos <= |json| && json[pos..] == DropSpace(json[start..])
    ensures pos < |json| ==> !IsSpace(json[pos])
  {
    pos := start;
    while pos < |json| && IsSpace(json[pos])
      invariant start <= pos <= |json|
      invariant DropSpace(json[pos..]) == DropSpace(json[start..])
    {
      DropSpaceAt(json, pos);
      pos := pos + 1;
    }
    DropSpaceAt(json, pos);
  }

  method ParseStringAt(json: string, start: nat) returns (ok: bool, pos: nat, out: string)
    requires start <= |json|
    ensures start <= pos <= |json|
    ensures ScanString(json[start..]) == if ok then Decoded(out, json[pos..]) else NoString
    ensures ok ==> start < pos
  {
    pos, out := start, "";
    if pos >= |json| || json[pos] != '"' {
      return false, pos, out;
    }
    pos := pos + 1;
    assert json[start..][1..] == json[pos..];
    ghost var whole := ScanUnits(json[pos..]);
    while pos < |json|
      invariant start < pos <= |json|
      invariant whole == ScanUnits(json[pos..]).After(out)
    {
      ScanUnitsAt(json, pos);
      var ch := json[pos];
      pos := pos + 1;
      if ch == '"' {
        return true, pos, out;
      }
      if ch != '\\' {
        AfterOneMore(out, ch, ScanUnits(json[pos..]));
        out := out + [ch];
        continue;
      }
      var known, next, meant := ParseEscapeAt(json, pos);
      if !known {
        return false, pos, out;
      }
      pos := next;
      AfterOneMore(out, meant, ScanUnits(json[pos..]));
      out := out + [meant];
    }
    return false, pos, out;
  }

  /** What follows a backslash: the character meant, and where the next one stands. */
  method ParseEscapeAt(json: string, pos: nat) returns (ok: bool, next: nat, meant: char)
    requires 0 < pos <= |json| && json[pos - 1] == '\\'
    ensures ok ==> pos < next <= |json| && ScanUnits(json[pos - 1..]) == ScanUnits(json[next..]).Prefixed(meant)
    ensures !ok ==> ScanUnits(json[pos - 1..]) == NoString
  {
    ScanUnitsAt(json, pos - 1);
    ok, next, meant := false, pos, '?';
    if pos >= |json| {
      return;
    }
    var escaped := json[pos];
    next := pos + 1;
    if escaped == 'u' {
      if next + 4 > |json| {
        return;
      }
      next := next + 4;
    } else if escaped in ESCAPES {
      meant := Unescaped(escaped);
    } else {
      return;
    }
    ok := true;
  }

  lemma AfterOneMore(out: string, c: char, scan: Scan)
    ensures scan.Prefixed(c).After(out) == scan.After(out + [c])
  {
    if scan.Decoded? {
      assert out + ([c] + scan.text) == out + [c] + scan.text;
    }
  }

  method SkipBracketed(json: string, start: nat, open: char, close: char) returns (ok: bool, pos: nat)
    requires start < |json| && json[start] == open && open != close && open != '"'
    ensures start <= pos <= |json|
    ensures SkipNested(json[start..], open, close, 0) == if ok then Some(json[pos..]) else None
  {
    pos := start;
    var depth := 0;
    while pos < |json|
      invariant start <= pos <= |json|
      invariant SkipNested(json[start..], open, close, 0) == SkipNested(json[pos..], open, close, depth)
    {
      var ch := json[pos];
      if ch == '"' {
        var ignored;
        ok, pos, ignored := ParseStringAt(json, pos);
        if !ok {
          return false, pos;
        }
        continue;
      }
      SkipNestedAt(json, pos, open, close, depth);
      pos := pos + 1;
      if ch == open {
        depth := depth + 1;
      } else if ch == close {
        depth := depth - 1;
        if depth == 0 {
          return true, pos;
        }
      }
    }
    return false, pos;
  }

  method SkipValueAt(json: string, start: nat) returns (ok: bool, pos: nat)
    requires start <= |json|
    ensures start <= pos <= |json|
    ensures SkipValue(json[start..]) == if ok then Some(json[pos..]) else None
  {
    pos := SkipWs(json, start);
    if pos >= |json| {
      return false, pos;
    }
    var first := json[pos];
    if first == '"' {
      var ignored;
      ok, pos, ignored := ParseStringAt(json, pos);
      return;
    }
    if first == '{' || first == '[' {
      ok, pos := SkipBracketed(json, pos, first, if first == '{' then '}' else ']');
      return;
    }
    var begin := pos;
    while pos < |json| && json[pos] != ',' && json[pos] != '}' && json[pos] != ']' && !IsSpace(json[pos])
      invariant begin <= pos <= |json|
      invariant DropBare(json[begin..]) == DropBare(json[pos..])
    {
      DropBareAt(json, pos);
      pos := pos + 1;
    }
    DropBareAt(json, pos);
    return pos > begin, pos;
  }

  method ReadMemberAt(json: string, start: nat) returns (ok: bool, pos: nat, name: string, valueStart: nat)
    requires start <= |json|
    ensures valueStart <= pos <= |json| && (ok ==> start < pos)
    ensures ReadMember(json[start..]) == if ok then Member(name, json[valueStart..pos], json[pos..]) else NoMember
  {
    pos := SkipWs(json, start);
    valueStart, name := start, "";
    if pos >= |json| || json[pos] == '}' {
      return false, pos, name, valueStart;
    }
    ok, pos, name := ParseStringAt(json, pos);
    if !ok {
      return false, pos, name, valueStart;
    }
    assert ReadMember(json[start..]) == ReadNamed(name, json[pos..]);
    ok, pos, valueStart := ReadNamedAt(json, pos, name);
  }

  method ReadNamedAt(json: string, start: nat, name: string) returns (ok: bool, pos: nat, valueStart: nat)
    requires start <= |json|
    ensures valueStart <= pos <= |json| && (ok ==> start < pos)
    ensures ReadNamed(name, json[start..]) == if ok then Member(name, json[valueStart..pos], json[pos..]) else NoMember
  {
    pos := SkipWs(json, start);
    valueStart := start;
    if pos >= |json| || json[pos] != ':' {
      return false, pos, valueStart;
    }
    assert json[pos..][1..] == json[pos + 1..];
    pos := pos + 1;
    pos := SkipWs(json, pos);
    valueStart := pos;
    ok, pos := SkipValueAt(json, pos);
    assert json[valueStart..][..pos - valueStart] == json[valueStart..pos];
  }

  method PastComma(json: string, start: nat, ghost key: string) returns (ok: bool, pos: nat)
    requires start <= |json|
    ensures ok ==> start < pos <= |json|
    ensures FieldPast(json[start..], key) == if ok then FieldIn(json[pos..], key) else None
  {
    pos := SkipWs(json, start);
    if pos >= |json| || json[pos] != ',' {
      return false, pos;
    }
    assert json[pos..][1..] == json[pos + 1..];
    return true, pos + 1;
  }

  method JsonRawField(json: string, key: string) returns (field: Option<string>)
    ensures field == RawField(json, key)
  {
    assert json[0..] == json;
    var pos := SkipWs(json, 0);
    if pos >= |json| || json[pos] != '{' {
      return None;
    }
    assert json[pos..][1..] == json[pos + 1..];
    field := FieldInAt(json, pos + 1, key);
  }

  method FieldInAt(json: string, start: nat, key: string) returns (field: Option<string>)
    requires start <= |json|
    ensures field == FieldIn(json[start..], key)
  {
    var pos := start;
    ghost var answer := FieldIn(json[start..], key);
    while true
      invariant start <= pos <= |json|
      invariant answer == FieldIn(json[pos..], key)
      decreases |json| - pos
    {
      var ok, name, valueStart;
      ok, pos, name, valueStart := ReadMemberAt(json, pos);
      if !ok {
        return None;
      }
      if name == key {
        return Some(json[valueStart..pos]);
      }
      assert answer == FieldPast(json[pos..], key);
      ok, pos := PastComma(json, pos, key);
      if !ok {
        return None;
      }
    }
  }

  method JsonUnquote(raw: string) returns (value: Option<string>)
    ensures value == Unquote(raw)
  {
    assert raw[0..] == raw;
    var pos := SkipWs(raw, 0);
    var ok, next, text := ParseStringAt(raw, pos);
    return if ok then Some(text) else None;
  }
}
