/** Strings as the program sees them, UTF-16 code units, and JSON.stringify of a string array
    (ECMA-262 QuoteJSONString, RFC 8259 section 7) with the reader that undoes it. */
module Text {
  import opened Collections

  type Unit = u: nat | u < 0x1_0000

  type Text = seq<Unit>

  const QUOTE: Unit := 0x22
  const COMMA: Unit := 0x2c
  const OPEN: Unit := 0x5b
  const BACKSLASH: Unit := 0x5c
  const CLOSE: Unit := 0x5d
  const LOWER_U: Unit := 0x75

  // A literal of the program.
  function Ascii(s: string): (text: Text)
    requires forall i :: 0 <= i < |s| ==> s[i] as int < 0x80
    ensures |text| == |s| && forall i :: 0 <= i < |s| ==> text[i] == s[i] as int
  {
    seq(|s|, i requires 0 <= i < |s| => s[i] as int)
  }

  predicate Leading(u: Unit) { 0xd800 <= u < 0xdc00 }

  predicate Trailing(u: Unit) { 0xdc00 <= u < 0xe000 }

  // The letter after the backslash for the units that have a short escape.
  function Short(u: Unit): Option<Unit> {
    if u == 0x08 then Some(0x62)
    else if u == 0x09 then Some(0x74)
    else if u == 0x0a then Some(0x6e)
    else if u == 0x0c then Some(0x66)
    else if u == 0x0d then Some(0x72)
    else if u == QUOTE || u == BACKSLASH then Some(u)
    else None
  }

  function Digit(n: nat): Unit
    requires n < 16
  {
    if n < 10 then 0x30 + n else 0x61 + n - 10
  }

  function Hex(u: Unit): Text {
    [Digit(u / 0x1000), Digit(u / 0x100 % 0x10), Digit(u / 0x10 % 0x10), Digit(u % 0x10)]
  }

  // One unit that is not half of a surrogate pair.
  function Escape(u: Unit): Text {
    if Short(u).Some? then [BACKSLASH, Short(u).value]
    else if u < 0x20 || Leading(u) || Trailing(u) then [BACKSLASH, LOWER_U] + Hex(u)
    else [u]
  }

  function Body(s: Text): Text {
    if s == [] then []
    else if |s| > 1 && Leading(s[0]) && Trailing(s[1]) then s[..2] + Body(s[2..])
    else Escape(s[0]) + Body(s[1..])
  }

  function Quote(s: Text): Text {
    [QUOTE] + Body(s) + [QUOTE]
  }

  function Elements(list: seq<Text>): Text {
    if list == [] then []
    else if |list| == 1 then Quote(list[0])
    else Quote(list[0]) + [COMMA] + Elements(list[1..])
  }

  function Stringify(list: seq<Text>): Text {
    [OPEN] + Elements(list) + [CLOSE]
  }

  // ---- Reading it back ----

  function Value(digit: Unit): Option<nat> {
    if 0x30 <= digit <= 0x39 then Some(digit - 0x30)
    else if 0x61 <= digit <= 0x66 then Some(digit - 0x61 + 10)
    else if 0x41 <= digit <= 0x46 then Some(digit - 0x41 + 10)
    else None
  }

  function UnHex(t: Text): Option<Unit>
    requires |t| == 4
  {
    var a, b, c, d := Value(t[0]), Value(t[1]), Value(t[2]), Value(t[3]);
    if a.Some? && b.Some? && c.Some? && d.Some? && a.value < 16 && b.value < 16 && c.value < 16 && d.value < 16
    then Some(a.value * 0x1000 + b.value * 0x100 + c.value * 0x10 + d.value)
    else None
  }

  function LongFor(letter: Unit): Option<Unit> {
    if letter == 0x62 then Some(0x08)
    else if letter == 0x74 then Some(0x09)
    else if letter == 0x6e then Some(0x0a)
    else if letter == 0x66 then Some(0x0c)
    else if letter == 0x72 then Some(0x0d)
    else if letter == QUOTE || letter == BACKSLASH || letter == 0x2f then Some(letter)
    else None
  }

  // The next unit of a string and the number of units it took, or None at anything else.
  function NextUnit(t: Text): (r: Option<(Unit, nat)>)
    ensures r.Some? ==> 0 < r.value.1 <= |t|
  {
    if t == [] || t[0] < 0x20 || t[0] == QUOTE then None
    else if t[0] != BACKSLASH then Some((t[0], 1))
    else if |t| > 1 && LongFor(t[1]).Some? then Some((LongFor(t[1]).value, 2))
    else if |t| > 5 && t[1] == LOWER_U && UnHex(t[2..6]).Some? then Some((UnHex(t[2..6]).value, 6))
    else None
  }

  // The string up to its closing quote, and the text after that quote.
  function ReadString(t: Text): (r: Option<(Text, Text)>)
    ensures r.Some? ==> |r.value.1| < |t|
    decreases |t|
  {
    if t != [] && t[0] == QUOTE then Some(([], t[1..]))
    else
      var next := NextUnit(t);
      if next.None? then None
      else
        var rest := ReadString(t[next.value.1..]);
        if rest.None? then None else Some(([next.value.0] + rest.value.0, rest.value.1))
  }

  function ReadElements(t: Text): Option<seq<Text>>
    decreases |t|
  {
    if t == [] || t[0] != QUOTE then None
    else
      var head := ReadString(t[1..]);
      if head.None? then None
      else
        var after := head.value.1;
        if after == [CLOSE] then Some([head.value.0])
        else if after != [] && after[0] == COMMA then
          var tail := ReadElements(after[1..]);
          if tail.None? then None else Some([head.value.0] + tail.value)
        else None
  }

  function Parse(t: Text): Option<seq<Text>> {
    if |t| < 2 || t[0] != OPEN then None
    else if t == [OPEN, CLOSE] then Some([])
    else ReadElements(t[1..])
  }

  // ---- The reader undoes the writer ----

  lemma ValueDigit(n: nat)
    requires n < 16
    ensures Value(Digit(n)) == Some(n)
  {
  }

  lemma FourDigits(u: nat)
    requires u < 0x1_0000
    ensures u / 0x1000 < 16
    ensures u / 0x1000 * 0x1000 + u / 0x100 % 0x10 * 0x100 + u / 0x10 % 0x10 * 0x10 + u % 0x10 == u
  {
    var a, b := u / 0x10, u / 0x100;
    assert u == a * 0x10 + u % 0x10;
    assert b == a / 0x10 && a == b * 0x10 + a % 0x10;
    assert u / 0x1000 == b / 0x10 && b == b / 0x10 * 0x10 + b % 0x10;
  }

  lemma UnHexHex(u: Unit)
    ensures UnHex(Hex(u)) == Some(u)
  {
    FourDigits(u);
    ValueDigit(u / 0x1000);
    ValueDigit(u / 0x100 % 0x10);
    ValueDigit(u / 0x10 % 0x10);
    ValueDigit(u % 0x10);
    hide Value, Digit;
  }

  lemma EscapeRead(u: Unit, rest: Text)
    ensures NextUnit(Escape(u) + rest) == Some((u, |Escape(u)|))
  {
    UnHexHex(u);
    hide UnHex, Hex;
    var t := Escape(u) + rest;
    if Short(u).Some? {
      assert t[0] == BACKSLASH && t[1] == Short(u).value;
    } else if u < 0x20 || Leading(u) || Trailing(u) {
      HexLength(u);
      assert t[..2] == [BACKSLASH, LOWER_U] && t[2..6] == Hex(u);
      assert t[0] == BACKSLASH && t[1] == LOWER_U;
    } else {
      assert t[0] == u;
    }
  }

  lemma HexLength(u: Unit)
    ensures |Hex(u)| == 4
  {
  }

  lemma ReadOneMore(t: Text, u: Unit, n: nat)
    requires NextUnit(t) == Some((u, n))
    ensures n <= |t|
    ensures ReadString(t[n..]).Some? ==>
              ReadString(t) == Some(([u] + ReadString(t[n..]).value.0, ReadString(t[n..]).value.1))
  {
  }

  lemma {:induction false} BodyRead(s: Text, rest: Text)
    ensures ReadString(Body(s) + [QUOTE] + rest) == Some((s, rest))
    decreases |s|
  {
    hide Escape, NextUnit;
    var t := Body(s) + [QUOTE] + rest;
    if s == [] {
      assert t[0] == QUOTE && t[1..] == rest;
    } else if |s| > 1 && Leading(s[0]) && Trailing(s[1]) {
      var after := Body(s[2..]) + [QUOTE] + rest;
      assert t == [s[0]] + ([s[1]] + after);
      RawRead(s[0], [s[1]] + after);
      RawRead(s[1], after);
      ReadOneMore(t, s[0], 1);
      assert t[1..] == [s[1]] + after;
      ReadOneMore(t[1..], s[1], 1);
      assert t[1..][1..] == after;
      BodyRead(s[2..], rest);
      assert s == [s[0]] + ([s[1]] + s[2..]);
    } else {
      var after := Body(s[1..]) + [QUOTE] + rest;
      assert t == Escape(s[0]) + after;
      EscapeRead(s[0], after);
      ReadOneMore(t, s[0], |Escape(s[0])|);
      assert t[|Escape(s[0])|..] == after;
      BodyRead(s[1..], rest);
      assert s == [s[0]] + s[1..];
    }
  }

  lemma RawRead(u: Unit, rest: Text)
    requires Leading(u) || Trailing(u)
    ensures NextUnit([u] + rest) == Some((u, 1))
  {
  }

  lemma {:induction false} ElementsRead(list: seq<Text>)
    requires list != []
    ensures ReadElements(Elements(list) + [CLOSE]) == Some(list)
    decreases |list|
  {
    hide ReadString, Body;
    if |list| == 1 {
      LastElementRead(list[0]);
      assert list == [list[0]];
    } else {
      ElementsRead(list[1..]);
      hide ReadElements, Elements;
      FirstElementRead(list);
    }
  }

  lemma LastElementRead(x: Text)
    ensures ReadElements(Elements([x]) + [CLOSE]) == Some([x])
  {
    hide ReadString, Body;
    var t := Elements([x]) + [CLOSE];
    assert t == [QUOTE] + (Body(x) + [QUOTE] + [CLOSE]);
    assert t[1..] == Body(x) + [QUOTE] + [CLOSE];
    BodyRead(x, [CLOSE]);
  }

  lemma FirstElementRead(list: seq<Text>)
    requires |list| > 1 && ReadElements(Elements(list[1..]) + [CLOSE]) == Some(list[1..])
    ensures ReadElements(Elements(list) + [CLOSE]) == Some(list)
  {
    hide ReadString, Body, ReadElements, Elements;
    ElementsMore(list);
    OneMoreRead(list[0], Elements(list[1..]) + [CLOSE], list[1..]);
    assert [list[0]] + list[1..] == list;
  }

  lemma ElementsMore(list: seq<Text>)
    requires |list| > 1
    ensures Elements(list) + [CLOSE]
         == [QUOTE] + (Body(list[0]) + [QUOTE] + ([COMMA] + (Elements(list[1..]) + [CLOSE])))
  {
    Regrouped(Body(list[0]), Elements(list[1..]));
    hide Body;
  }

  lemma Regrouped(body: Text, rest: Text)
    ensures [QUOTE] + body + [QUOTE] + [COMMA] + rest + [CLOSE]
         == [QUOTE] + (body + [QUOTE] + ([COMMA] + (rest + [CLOSE])))
  {
  }

  lemma OneMoreRead(x: Text, rest: Text, more: seq<Text>)
    requires rest != [] && ReadElements(rest) == Some(more)
    ensures ReadElements([QUOTE] + (Body(x) + [QUOTE] + ([COMMA] + rest))) == Some([x] + more)
  {
    hide ReadString, Body;
    var after := [COMMA] + rest;
    var t := [QUOTE] + (Body(x) + [QUOTE] + after);
    assert t[1..] == Body(x) + [QUOTE] + after;
    BodyRead(x, after);
    assert after[1..] == rest && after[0] == COMMA;
    assert after != [CLOSE];
  }

  // JSON.stringify of a string array can be read back, whatever units the strings hold.
  lemma StringifyReads(list: seq<Text>)
    ensures Parse(Stringify(list)) == Some(list)
  {
    var t := Stringify(list);
    if list == [] {
      assert t == [OPEN, CLOSE];
    } else {
      ElementsRead(list);
      assert t[1..] == Elements(list) + [CLOSE];
      assert Elements(list)[0] == QUOTE;
      assert t[1] == QUOTE;
    }
  }

  // So two arrays with the same text are the same array.
  lemma StringifyInjective(a: seq<Text>, b: seq<Text>)
    requires Stringify(a) == Stringify(b)
    ensures a == b
  {
    StringifyReads(a);
    StringifyReads(b);
  }
}
