// UTF-8 (section 3 of RFC 3629) and the compact JSON text that serde_json writes
// (string escapes as in section 7 of RFC 8259).
module Json {
  import opened Prelude
  import opened Numerals

  function Utf8Char(c: char): seq<byte> {
    var n := c as int;
    if n < 0x80 then
      [n as byte]
    else if n < 0x800 then
      [(0xC0 + n / 0x40) as byte, (0x80 + n % 0x40) as byte]
    else if n < 0x1_0000 then
      [(0xE0 + n / 0x1000) as byte, (0x80 + n / 0x40 % 0x40) as byte, (0x80 + n % 0x40) as byte]
    else
      [(0xF0 + n / 0x4_0000) as byte, (0x80 + n / 0x1000 % 0x40) as byte,
       (0x80 + n / 0x40 % 0x40) as byte, (0x80 + n % 0x40) as byte]
  }

  function Utf8(s: string): seq<byte> {
    if s == [] then [] else Utf8Char(s[0]) + Utf8(s[1..])
  }

  function HexDigit(d: int): byte
    requires 0 <= d < 16
  {
    (if d < 10 then 0x30 + d else 0x57 + d) as byte
  }

  // serde_json's escape table: short forms for quote, backslash and five controls,
  // `\u00XX` for the other controls, every other byte unchanged.
  function EscapeByte(b: byte): seq<byte> {
    if b == 0x22 then [0x5C, 0x22]
    else if b == 0x5C then [0x5C, 0x5C]
    else if b == 0x08 then [0x5C, 0x62]
    else if b == 0x09 then [0x5C, 0x74]
    else if b == 0x0A then [0x5C, 0x6E]
    else if b == 0x0C then [0x5C, 0x66]
    else if b == 0x0D then [0x5C, 0x72]
    else if b < 0x20 then
      [0x5C, 0x75, 0x30, 0x30, HexDigit(b as int / 16), HexDigit(b as int % 16)]
    else [b]
  }

  function EscapeBytes(bs: seq<byte>): seq<byte> {
    if bs == [] then [] else EscapeByte(bs[0]) + EscapeBytes(bs[1..])
  }

  function Quoted(s: string): seq<byte> {
    [0x22] + EscapeBytes(Utf8(s)) + [0x22]
  }

  datatype Json =
    | JNull
    | JBool(b: bool)
    | JNum(n: nat)
    | JStr(s: string)
    | JArr(items: seq<Json>)
    | JObj(fields: seq<Field>)

  datatype Field = Field(name: string, value: Json)

  function Render(j: Json): seq<byte> {
    match j
    case JNull => [0x6E, 0x75, 0x6C, 0x6C]
    case JBool(true) => [0x74, 0x72, 0x75, 0x65]
    case JBool(false) => [0x66, 0x61, 0x6C, 0x73, 0x65]
    case JNum(n) => Utf8(Decimal(n))
    case JStr(s) => Quoted(s)
    case JArr(items) => [0x5B] + RenderItems(items) + [0x5D]
    case JObj(fields) => [0x7B] + RenderFields(fields) + [0x7D]
  }

  function RenderItems(items: seq<Json>): seq<byte> {
    if items == [] then []
    else Render(items[0]) + (if |items| == 1 then [] else [0x2C]) + RenderItems(items[1..])
  }

  function RenderField(f: Field): seq<byte> {
    Quoted(f.name) + [0x3A] + Render(f.value)
  }

  function RenderFields(fields: seq<Field>): seq<byte> {
    if fields == [] then []
    else RenderField(fields[0]) + (if |fields| == 1 then [] else [0x2C]) + RenderFields(fields[1..])
  }

  function Size(j: Json): nat { |Render(j)| }

  /** No byte escapes to more than six bytes, and a whole string to no more than six times its length. */
  lemma {:induction false} EscapeBound(bs: seq<byte>)
    ensures |bs| <= |EscapeBytes(bs)| <= 6 * |bs|
  {
    if bs != [] {
      EscapeBound(bs[1..]);
    }
  }

  lemma {:induction false} Utf8Concat(s: string, t: string)
    ensures Utf8(s + t) == Utf8(s) + Utf8(t)
  {
    if s == [] {
      assert s + t == t;
    } else {
      Utf8Concat(s[1..], t);
      assert (s + t)[0] == s[0] && (s + t)[1..] == s[1..] + t;
      JoinThree(Utf8Char(s[0]), Utf8(s[1..]), Utf8(t));
    }
  }

  lemma JoinThree(head: seq<byte>, rest: seq<byte>, tail: seq<byte>)
    ensures head + (rest + tail) == head + rest + tail
  {
  }

  // Characters that stand for themselves in a JSON string.
  predicate PlainText(s: string) {
    forall i :: 0 <= i < |s| ==> ' ' <= s[i] < 0x7F as char && s[i] != '"' && s[i] != '\\'
  }

  lemma {:induction false} PlainSize(s: string)
    requires PlainText(s)
    ensures |EscapeBytes(Utf8(s))| == |Utf8(s)| == |s|
  {
    if s != [] {
      var b := s[0] as int as byte;
      PlainSize(s[1..]);
      PlainChar(s[0]);
      assert Utf8(s) == [b] + Utf8(s[1..]);
      EscapeOne(b, Utf8(s[1..]));
    }
  }

  lemma PlainChar(c: char)
    requires ' ' <= c < 0x7F as char && c != '"' && c != '\\'
    ensures var b := c as int as byte; Utf8Char(c) == [b] && EscapeByte(b) == [b]
  {
  }

  lemma EscapeOne(b: byte, bs: seq<byte>)
    ensures EscapeBytes([b] + bs) == EscapeByte(b) + EscapeBytes(bs)
  {
    assert ([b] + bs)[1..] == bs;
  }

  lemma TextSize(s: string)
    requires PlainText(s)
    ensures Size(JStr(s)) == |s| + 2
  {
    PlainSize(s);
  }

  // A field and a comma.
  function Width(f: Field): nat { |RenderField(f)| + 1 }

  // A list of fields with a comma after each.
  function Extent(fs: seq<Field>): nat {
    if fs == [] then 0 else Width(fs[0]) + Extent(fs[1..])
  }

  lemma {:induction false} FieldsExtent(fs: seq<Field>)
    requires fs != []
    ensures |RenderFields(fs)| + 1 == Extent(fs)
  {
    if |fs| > 1 {
      FieldsExtent(fs[1..]);
    }
  }

  lemma ObjExtent(fs: seq<Field>)
    requires fs != []
    ensures Size(JObj(fs)) == Extent(fs) + 1
  {
    FieldsExtent(fs);
  }

  lemma {:induction false} PutExtent(fs: seq<Field>, i: nat, f: Field)
    requires i < |fs| && f.name == fs[i].name
    ensures Extent(fs[i := f]) == Extent(fs) + Size(f.value) - Size(fs[i].value)
  {
    if i > 0 {
      PutExtent(fs[1..], i - 1, f);
      assert fs[i := f][1..] == fs[1..][i - 1 := f];
    } else {
      assert fs[i := f][1..] == fs[1..];
    }
  }

  /** Replacing one value changes an object's length by exactly the difference of the values. */
  lemma PutSize(fs: seq<Field>, i: nat, f: Field)
    requires i < |fs| && f.name == fs[i].name
    ensures Size(JObj(fs[i := f])) == Size(JObj(fs)) + Size(f.value) - Size(fs[i].value)
  {
    PutExtent(fs, i, f);
    ObjExtent(fs);
    ObjExtent(fs[i := f]);
  }

  lemma {:induction false} ExtentConcat(fs: seq<Field>, gs: seq<Field>)
    ensures Extent(fs + gs) == Extent(fs) + Extent(gs)
  {
    if fs == [] {
      assert fs + gs == gs;
    } else {
      var all := fs + gs;
      ExtentConcat(fs[1..], gs);
      assert all[0] == fs[0] && all[1..] == fs[1..] + gs;
      assert Extent(all) == Width(fs[0]) + Extent(all[1..]);
    }
  }

  lemma {:induction false} ValueWithin(fs: seq<Field>, i: nat)
    requires i < |fs|
    ensures Size(fs[i].value) <= Extent(fs)
  {
    if i > 0 {
      ValueWithin(fs[1..], i - 1);
    }
  }

  /** No value of an object is longer than the object. */
  lemma ValueNoLonger(fs: seq<Field>, i: nat)
    requires i < |fs|
    ensures Size(fs[i].value) <= Size(JObj(fs))
  {
    ValueWithin(fs, i);
    ObjExtent(fs);
  }
}
