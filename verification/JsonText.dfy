/** JSON values and their text, as `JSON.stringify` writes it (RFC 8259, sections 4 to 7). */
module JsonText {
  import opened Text
  import opened Wrappers

  /** A number is represented by the text `Number.prototype.toString` gives it, so `-0` is `0`. */
  predicate IsNumUnit(u: Unit) {
    48 <= u <= 57 || u == 43 || u == 45 || u == 46 || u == 69 || u == 101
  }

  predicate IsNumText(t: Text) {
    t != [] && (forall i :: 0 <= i < |t| ==> IsNumUnit(t[i])) && (t[0] == 45 || 48 <= t[0] <= 57)
  }

  type NumText = t: Text | IsNumText(t) witness [48]

  datatype Json =
    | JNull
    | JBool(b: bool)
    | JNum(n: NumText)
    | JStr(s: Text)
    | JArr(items: seq<Json>)
    | JObj(props: seq<Prop<Json>>)

  predicate IsLead(u: Unit) { 0xD800 <= u <= 0xDBFF }

  predicate IsTrail(u: Unit) { 0xDC00 <= u <= 0xDFFF }

  function Hex(d: int): Unit
    requires 0 <= d < 16
  {
    if d < 10 then 48 + d else 87 + d
  }

  /** A code unit inside a quoted string; a surrogate that is not part of a pair is escaped. */
  function EscUnit(u: Unit): Text {
    if u == 8 then [92, 98] else if u == 9 then [92, 116] else if u == 10 then [92, 110]
    else if u == 12 then [92, 102] else if u == 13 then [92, 114] else if u == 34 then [92, 34] else if u == 92 then [92, 92]
    else if u < 32 || IsLead(u) || IsTrail(u) then
      [92, 117, Hex(u / 4096), Hex(u / 256 % 16), Hex(u / 16 % 16), Hex(u % 16)]
    else [u]
  }

  predicate Paired(s: Text) { |s| > 1 && IsLead(s[0]) && IsTrail(s[1]) }

  /** The text of `s` up to and including the closing quote, followed by `r`. */
  function Escape(s: Text, r: Text): Text {
    if s == [] then [34] + r
    else if Paired(s) then s[..2] + Escape(s[2..], r)
    else EscUnit(s[0]) + Escape(s[1..], r)
  }

  function Quote(s: Text, r: Text): Text { [34] + Escape(s, r) }

  /** The text of `v`, followed by `r`. */
  function Write(v: Json, r: Text): Text {
    match v
    case JNull => [110, 117, 108, 108] + r
    case JBool(true) => [116, 114, 117, 101] + r
    case JBool(false) => [102, 97, 108, 115, 101] + r
    case JNum(n) => n + r
    case JStr(s) => Quote(s, r)
    case JArr(items) => [91] + WriteItems(items, r)
    case JObj(props) => [123] + WriteProps(props, r)
  }

  function WriteItems(items: seq<Json>, r: Text): Text {
    if items == [] then [93] + r
    else Write(items[0], if |items| == 1 then [93] + r else [44] + WriteItems(items[1..], r))
  }

  function WriteProps(props: seq<Prop<Json>>, r: Text): Text {
    if props == [] then [125] + r
    else Quote(props[0].key, [58] + Write(props[0].value, if |props| == 1 then [125] + r else [44] + WriteProps(props[1..], r)))
  }

  /** `JSON.stringify`. */
  function Encode(v: Json): Text { Write(v, []) }

  /* ------------------------------------------------------------------- reading it back -- */

  const QUOTE: Unit := 34
  const ESCAPE: Unit := 92

  function HexValue(u: Unit): Option<int> {
    if 48 <= u <= 57 then Some(u - 48) else if 97 <= u <= 102 then Some(u - 87) else if 65 <= u <= 70 then Some(u - 55) else None
  }

  /** Section 7: what the two-character escapes stand for. */
  function ShortEscape(u: Unit): Option<Unit> {
    if u == 34 || u == 92 || u == 47 then Some(u)
    else if u == 98 then Some(8) else if u == 102 then Some(12) else if u == 110 then Some(10)
    else if u == 114 then Some(13) else if u == 116 then Some(9) else None
  }

  /** One escape sequence at the head of the text: the unit it stands for, and its length. */
  function ReadEscape(t: Text): (p: Option<(Unit, nat)>)
    ensures p.Some? ==> 0 < p.value.1 <= |t|
  {
    if |t| < 2 then None
    else if ShortEscape(t[1]).Some? then Some((ShortEscape(t[1]).value, 2))
    else if t[1] != 117 || |t| < 6 then None
    else
      var a, b, c, d := HexValue(t[2]), HexValue(t[3]), HexValue(t[4]), HexValue(t[5]);
      if a.None? || b.None? || c.None? || d.None? then None
      else Some(((4096 * a.value + 256 * b.value + 16 * c.value + d.value) % 0x10000, 6))
  }

  /** A string after its opening quote, and what follows its closing quote. */
  function ReadString(t: Text): (p: Option<(Text, Text)>)
    ensures p.Some? ==> |p.value.1| < |t|
    decreases |t|
  {
    if t == [] || (t[0] < 32 && t[0] != QUOTE) then None
    else if t[0] == QUOTE then Some(([], t[1..]))
    else
      var head := if t[0] == ESCAPE then ReadEscape(t) else Some((t[0], 1));
      if head.None? then None
      else
        var tail := ReadString(t[head.value.1..]);
        if tail.None? then None else Some(([head.value.0] + tail.value.0, tail.value.1))
  }

  predicate StartsWith(t: Text, x: Text) { |x| <= |t| && t[..|x|] == x }

  /** The longest run of units a number may contain. */
  function NumRun(t: Text): (n: nat)
    ensures n <= |t| && (forall i :: 0 <= i < n ==> IsNumUnit(t[i])) && (n < |t| ==> !IsNumUnit(t[n]))
  {
    if t == [] || !IsNumUnit(t[0]) then 0 else 1 + NumRun(t[1..])
  }

  /** Section 3: the literal names, written out. */
  function ReadLiteral(t: Text): (p: Option<(Json, Text)>)
    ensures p.Some? ==> |p.value.1| < |t|
  {
    if StartsWith(t, Ascii("null")) then Some((JNull, t[4..]))
    else if StartsWith(t, Ascii("true")) then Some((JBool(true), t[4..]))
    else if StartsWith(t, Ascii("false")) then Some((JBool(false), t[5..]))
    else None
  }

  /** One value at the head of the text, and what follows it; white space is not allowed for. */
  function ReadValue(t: Text): (p: Option<(Json, Text)>)
    ensures p.Some? ==> |p.value.1| < |t|
    decreases |t|, 0
  {
    if t == [] then None
    else if t[0] == QUOTE then
      var s := ReadString(t[1..]);
      if s.None? then None else Some((JStr(s.value.0), s.value.1))
    else if t[0] == 91 then
      if |t| > 1 && t[1] == 93 then Some((JArr([]), t[2..]))
      else
        var items := ReadItems(t[1..]);
        if items.None? then None else Some((JArr(items.value.0), items.value.1))
    else if t[0] == 123 then
      if |t| > 1 && t[1] == 125 then Some((JObj([]), t[2..]))
      else
        var props := ReadProps(t[1..]);
        if props.None? then None else Some((JObj(props.value.0), props.value.1))
    else if IsNumText(t[..NumRun(t)]) then Some((JNum(t[..NumRun(t)]), t[NumRun(t)..]))
    else ReadLiteral(t)
  }

  /** Section 5: values separated by commas, up to the closing bracket. */
  function ReadItems(t: Text): (p: Option<(seq<Json>, Text)>)
    ensures p.Some? ==> |p.value.1| < |t|
    decreases |t|, 1
  {
    var head := ReadValue(t);
    if head.None? || head.value.1 == [] then None
    else if head.value.1[0] == 93 then Some(([head.value.0], head.value.1[1..]))
    else if head.value.1[0] != 44 then None
    else
      var tail := ReadItems(head.value.1[1..]);
      if tail.None? then None else Some(([head.value.0] + tail.value.0, tail.value.1))
  }

  /** Section 4: a name, a colon and a value, separated by commas, up to the closing brace. */
  function ReadProps(t: Text): (p: Option<(seq<Prop<Json>>, Text)>)
    ensures p.Some? ==> |p.value.1| < |t|
    decreases |t|, 1
  {
    if t == [] || t[0] != QUOTE then None
    else
      var name := ReadString(t[1..]);
      if name.None? || name.value.1 == [] || name.value.1[0] != 58 then None
      else
        var head := ReadValue(name.value.1[1..]);
        if head.None? || head.value.1 == [] then None
        else
          var p := Prop(name.value.0, head.value.0);
          if head.value.1[0] == 125 then Some(([p], head.value.1[1..]))
          else if head.value.1[0] != 44 then None
          else
            var tail := ReadProps(head.value.1[1..]);
            if tail.None? then None else Some(([p] + tail.value.0, tail.value.1))
  }

  /** `JSON.parse` of a text without white space. */
  function Decode(t: Text): Option<Json> {
    var p := ReadValue(t);
    if p.Some? && p.value.1 == [] then Some(p.value.0) else None
  }

  /* --------------------------------------------------------------- the round trip -- */

  lemma HexDigits(u: Unit)
    ensures (4096 * (u / 4096) + 256 * (u / 256 % 16) + 16 * (u / 16 % 16) + u % 16) % 0x10000 == u
  {
    var a := u / 16;
    var b := a / 16;
    var c := b / 16;
    assert b == u / 256 && c == u / 4096;
    assert u == 16 * a + u % 16 && a == 16 * b + a % 16 && b == 16 * c + b % 16;
  }

  lemma HexReads(d: int)
    requires 0 <= d < 16
    ensures HexValue(Hex(d)) == Some(d)
  {
  }

  lemma ReadLongEscape(u: Unit, r: Text)
    ensures ReadEscape([92, 117, Hex(u / 4096), Hex(u / 256 % 16), Hex(u / 16 % 16), Hex(u % 16)] + r) == Some((u, 6))
  {
    HexDigits(u);
    HexReads(u / 4096);
    HexReads(u / 256 % 16);
    HexReads(u / 16 % 16);
    HexReads(u % 16);
  }

  /** A unit is read back from the way it is written, whatever follows. */
  lemma ReadUnit(u: Unit, r: Text)
    ensures var t := EscUnit(u) + r; var p := ReadString(r);
      ReadString(t) == if p.None? then None else Some(([u] + p.value.0, p.value.1))
  {
    var t := EscUnit(u) + r;
    assert t[|EscUnit(u)|..] == r;
    if u == 34 || u == 92 || u < 32 || IsLead(u) || IsTrail(u) {
      ReadEscapedUnit(u, r);
    }
  }

  lemma ReadEscapedUnit(u: Unit, r: Text)
    requires u == 34 || u == 92 || u < 32 || IsLead(u) || IsTrail(u)
    ensures EscUnit(u)[0] == ESCAPE && ReadEscape(EscUnit(u) + r) == Some((u, |EscUnit(u)|))
  {
    if u != 34 && u != 92 && !(8 <= u <= 10) && !(12 <= u <= 13) { ReadLongEscape(u, r); }
  }

  lemma {:induction false} ReadEscaped(s: Text, r: Text)
    ensures ReadString(Escape(s, r)) == Some((s, r))
    decreases |s|
  {
    if s == [] {
      assert ([34] + r)[1..] == r;
    } else if Paired(s) {
      ReadEscaped(s[2..], r);
      ReadPair(s[0], s[1], Escape(s[2..], r));
      assert s[..2] == [s[0], s[1]] && s == [s[0]] + ([s[1]] + s[2..]);
    } else {
      ReadEscaped(s[1..], r);
      ReadUnit(s[0], Escape(s[1..], r));
      assert s == [s[0]] + s[1..];
    }
  }

  lemma ReadPair(lead: Unit, trail: Unit, r: Text)
    requires IsLead(lead) && IsTrail(trail) && ReadString(r).Some?
    ensures var p := ReadString(r).value; ReadString([lead, trail] + r) == Some(([lead] + ([trail] + p.0), p.1))
  {
    var t := [lead, trail] + r;
    assert t[1..] == [trail] + r && t[1..][1..] == r;
  }

  /** What may follow a value: the end, or a unit no number contains. */
  predicate Delimited(r: Text) { r == [] || !IsNumUnit(r[0]) }

  lemma ReadNumber(n: NumText, r: Text)
    requires Delimited(r)
    ensures ReadValue(n + r) == Some((JNum(n), r))
  {
    var t := n + r;
    var k := NumRun(t);
    assert forall i :: 0 <= i < |n| ==> t[i] == n[i];
    if k > |n| { RunPast(n, r); }
    assert t[..|n|] == n && t[|n|..] == r;
  }

  lemma RunPast(n: Text, r: Text)
    requires NumRun(n + r) > |n|
    ensures !Delimited(r)
  {
    assert (n + r)[|n|] == r[0];
  }

  lemma ReadsLiteral(v: Json, r: Text)
    requires v.JNull? || v.JBool?
    ensures ReadValue(Write(v, r)) == Some((v, r))
  {
    var t := Write(v, r);
    assert Ascii("null") == [110, 117, 108, 108] && Ascii("true") == [116, 114, 117, 101] && Ascii("false") == [102, 97, 108, 115, 101];
    assert NumRun(t) == 0;
    var x := if v.JNull? then Ascii("null") else if v.b then Ascii("true") else Ascii("false");
    assert t == x + r && t[..|x|] == x && t[|x|..] == r;
    if v.JBool? {
      assert t[..4][0] != Ascii("null")[0];
      if !v.b { assert t[..4][0] != Ascii("true")[0]; }
    }
  }

  lemma FirstUnit(v: Json, r: Text)
    ensures Write(v, r) != [] && Write(v, r)[0] != 93
  {
  }

  /** A value is read back from its text, whatever follows. */
  lemma {:induction false} ReadWritten(v: Json, r: Text)
    requires Delimited(r)
    ensures ReadValue(Write(v, r)) == Some((v, r))
    decreases v, 0
  {
    match v
    case JNull => ReadsLiteral(v, r);
    case JBool(_) => ReadsLiteral(v, r);
    case JNum(n) => ReadNumber(n, r);
    case JStr(s) =>
      ReadEscaped(s, r);
      assert Write(v, r)[1..] == Escape(s, r);
    case JArr(items) =>
      assert Write(v, r)[1..] == WriteItems(items, r);
      if items == [] {
        assert Write(v, r)[2..] == r;
      } else {
        FirstUnit(items[0], if |items| == 1 then [93] + r else [44] + WriteItems(items[1..], r));
        ReadWrittenItems(items, r);
      }
    case JObj(props) =>
      assert Write(v, r)[1..] == WriteProps(props, r);
      if props == [] {
        assert Write(v, r)[2..] == r;
      } else {
        ReadWrittenProps(props, r);
      }
  }

  lemma {:induction false} ReadWrittenItems(items: seq<Json>, r: Text)
    requires items != []
    ensures ReadItems(WriteItems(items, r)) == Some((items, r))
    decreases items
  {
    if |items| == 1 {
      ReadWritten(items[0], [93] + r);
      assert ([93] + r)[1..] == r && items == [items[0]];
    } else {
      var more := WriteItems(items[1..], r);
      ReadWritten(items[0], [44] + more);
      assert ([44] + more)[1..] == more && items == [items[0]] + items[1..];
      ReadWrittenItems(items[1..], r);
    }
  }

  lemma {:induction false} ReadWrittenProps(props: seq<Prop<Json>>, r: Text)
    requires props != []
    ensures ReadProps(WriteProps(props, r)) == Some((props, r))
    decreases props
  {
    var after := if |props| == 1 then [125] + r else [44] + WriteProps(props[1..], r);
    var rest := [58] + Write(props[0].value, after);
    ReadEscaped(props[0].key, rest);
    ReadWritten(props[0].value, after);
    assert WriteProps(props, r)[1..] == Escape(props[0].key, rest) && rest[1..] == Write(props[0].value, after);
    if |props| == 1 {
      assert after[1..] == r && props == [props[0]];
    } else {
      assert after[1..] == WriteProps(props[1..], r);
      ReadWrittenProps(props[1..], r);
      assert props == [props[0]] + props[1..];
    }
  }

  /** `JSON.parse` reads back what `JSON.stringify` writes. */
  lemma RoundTrip(v: Json)
    ensures Decode(Encode(v)) == Some(v)
  {
    ReadWritten(v, []);
  }

  /** So two values have the same JSON text only if they are the same value. */
  lemma EncodeInjective(v: Json, w: Json)
    requires Encode(v) == Encode(w)
    ensures v == w
  {
    RoundTrip(v);
    RoundTrip(w);
  }

  /* ------------------------------------------------------- the text has an encoding -- */

  /** Every surrogate is half of a pair, so UTF-8 encoding loses nothing. */
  predicate WellFormed(t: Text) {
    t == [] || if Paired(t) then WellFormed(t[2..]) else !IsLead(t[0]) && !IsTrail(t[0]) && WellFormed(t[1..])
  }

  predicate IsPlain(u: Unit) { !IsLead(u) && !IsTrail(u) }

  lemma {:induction false} PlainThen(x: Text, r: Text)
    requires (forall i :: 0 <= i < |x| ==> IsPlain(x[i])) && WellFormed(r)
    ensures WellFormed(x + r)
  {
    if x == [] {
      assert x + r == r;
    } else {
      PlainThen(x[1..], r);
      assert IsPlain(x[0]) && (x + r)[1..] == x[1..] + r;
    }
  }

  lemma {:induction false} EscapeWellFormed(s: Text, r: Text)
    requires WellFormed(r)
    ensures WellFormed(Escape(s, r))
    decreases |s|
  {
    if s == [] {
      PlainThen([34], r);
    } else if Paired(s) {
      EscapeWellFormed(s[2..], r);
      assert Escape(s, r)[2..] == Escape(s[2..], r);
    } else {
      EscapeWellFormed(s[1..], r);
      PlainThen(EscUnit(s[0]), Escape(s[1..], r));
    }
  }

  lemma QuoteWellFormed(s: Text, r: Text)
    requires WellFormed(r)
    ensures WellFormed(Quote(s, r))
  {
    EscapeWellFormed(s, r);
    PlainThen([34], Escape(s, r));
  }

  /** JSON text never contains a lone surrogate, even when a string in it does. */
  lemma {:induction false} WriteWellFormed(v: Json, r: Text)
    requires WellFormed(r)
    ensures WellFormed(Write(v, r))
    decreases v, 0
  {
    match v
    case JNull => PlainThen([110, 117, 108, 108], r);
    case JBool(x) => PlainThen(if x then [116, 114, 117, 101] else [102, 97, 108, 115, 101], r);
    case JNum(n) =>
      assert forall i :: 0 <= i < |n| ==> IsNumUnit(n[i]) ==> IsPlain(n[i]);
      PlainThen(n, r);
    case JStr(s) => QuoteWellFormed(s, r);
    case JArr(items) =>
      ItemsWellFormed(items, r);
      PlainThen([91], WriteItems(items, r));
    case JObj(props) =>
      PropsWellFormed(props, r);
      PlainThen([123], WriteProps(props, r));
  }

  lemma {:induction false} ItemsWellFormed(items: seq<Json>, r: Text)
    requires WellFormed(r)
    ensures WellFormed(WriteItems(items, r))
    decreases items
  {
    PlainThen([93], r);
    if |items| > 1 {
      ItemsWellFormed(items[1..], r);
      PlainThen([44], WriteItems(items[1..], r));
    }
    if items != [] { WriteWellFormed(items[0], if |items| == 1 then [93] + r else [44] + WriteItems(items[1..], r)); }
  }

  lemma {:induction false} PropsWellFormed(props: seq<Prop<Json>>, r: Text)
    requires WellFormed(r)
    ensures WellFormed(WriteProps(props, r))
    decreases props
  {
    PlainThen([125], r);
    if |props| > 1 {
      PropsWellFormed(props[1..], r);
      PlainThen([44], WriteProps(props[1..], r));
    }
    if props != [] {
      var after := if |props| == 1 then [125] + r else [44] + WriteProps(props[1..], r);
      WriteWellFormed(props[0].value, after);
      PlainThen([58], Write(props[0].value, after));
      QuoteWellFormed(props[0].key, [58] + Write(props[0].value, after));
    }
  }
}
