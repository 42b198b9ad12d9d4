/** Reading JSON strings and arrays of them back, as section 7 of RFC 8259 says: what a reader
    gets from the text the audit hash is taken over. */
module JsonReader {
  import opened Wrappers
  import opened CanonicalJson

  function HexValue(h: char): (n: Option<int>)
    ensures n.Some? ==> 0 <= n.value < 16
  {
    if '0' <= h <= '9' then Some(h as int - '0' as int)
    else if 'a' <= h <= 'f' then Some(h as int - 'a' as int + 10)
    else if 'A' <= h <= 'F' then Some(h as int - 'A' as int + 10)
    else None
  }

  function HexNumber(s: string, acc: nat): (n: Option<nat>)
    decreases |s|
  {
    if s == [] then Some(acc)
    else match HexValue(s[0])
      case None => None
      case Some(d) => HexNumber(s[1..], 16 * acc + d)
  }

  /** What the character after a backslash stands for, other than `u`. */
  function Escaped(h: char): Option<int> {
    if h == '"' then Some(0x22) else if h == '\\' then Some(0x5C) else if h == '/' then Some(0x2F)
    else if h == 'b' then Some(0x08) else if h == 'f' then Some(0x0C) else if h == 'n' then Some(0x0A)
    else if h == 'r' then Some(0x0D) else if h == 't' then Some(0x09) else None
  }

  datatype Piece = Piece(unit: int, length: nat)

  /** The UTF-16 unit at the start of `s`, and how many characters it takes. */
  function ReadUnit(s: string): (r: Option<Piece>)
    requires s != []
    ensures r.Some? ==> 0 < r.value.length <= |s|
  {
    if s[0] != '\\' then
      if 0x20 <= s[0] as int < 0x1_0000 && s[0] != '"' then Some(Piece(s[0] as int, 1)) else None
    else if |s| < 2 then None
    else if s[1] == 'u' then
      if |s| < 6 then None
      else match HexNumber(s[2..6], 0)
        case None => None
        case Some(u) => Some(Piece(u, 6))
    else match Escaped(s[1])
      case None => None
      case Some(u) => Some(Piece(u, 2))
  }

  datatype Parsed<T> = Parsed(value: T, rest: string)

  /** The units up to the closing quote. */
  function ReadBody(s: string): (r: Option<Parsed<seq<int>>>)
    ensures r.Some? ==> |r.value.rest| < |s|
    decreases |s|
  {
    if s == [] then None
    else if s[0] == '"' then Some(Parsed([], s[1..]))
    else match ReadUnit(s)
      case None => None
      case Some(p) =>
        (match ReadBody(s[p.length..])
         case None => None
         case Some(r) => Some(Parsed([p.unit] + r.value, r.rest)))
  }

  function ReadString(s: string): (r: Option<Parsed<seq<int>>>)
    ensures r.Some? ==> |r.value.rest| < |s|
  {
    if s == [] || s[0] != '"' then None else ReadBody(s[1..])
  }

  /** The strings of an array that is open, which is not empty, up to its closing bracket. */
  function ReadItems(s: string): Option<Parsed<seq<seq<int>>>>
    decreases |s|
  {
    match ReadString(s)
    case None => None
    case Some(first) =>
      if first.rest == [] then None
      else if first.rest[0] == ']' then Some(Parsed([first.value], first.rest[1..]))
      else if first.rest[0] != ',' then None
      else match ReadItems(first.rest[1..])
        case None => None
        case Some(more) => Some(Parsed([first.value] + more.value, more.rest))
  }

  function ReadArray(s: string): Option<Parsed<seq<seq<int>>>> {
    if s == [] || s[0] != '[' then None
    else if |s| > 1 && s[1] == ']' then Some(Parsed([], s[2..]))
    else ReadItems(s[1..])
  }

  /** The UTF-16 units of a text: one for a code point of the basic plane, which a lone surrogate is
      too, and a pair of surrogates for any other. */
  function Units(s: Text): seq<int> {
    if s == [] then [] else UnitsOf(s[0]) + Units(s[1..])
  }

  function UnitsOf(c: CodePoint): seq<int> {
    if c < 0x1_0000 then [c as int] else [0xD800 + (c - 0x1_0000) / 0x400, 0xDC00 + (c - 0x1_0000) % 0x400]
  }

  lemma DigitValue(n: int)
    requires 0 <= n < 16
    ensures HexValue(HexDigit(n)) == Some(n)
  {
  }

  lemma FourDigits(a: char, b: char, c: char, d: char)
    requires HexValue(a).Some? && HexValue(b).Some? && HexValue(c).Some? && HexValue(d).Some?
    ensures HexNumber([a, b, c, d], 0)
            == Some(16 * (16 * (16 * HexValue(a).value + HexValue(b).value) + HexValue(c).value) + HexValue(d).value)
  {
    hide HexValue, HexNumber;
    var va, vb, vc, vd := HexValue(a).value, HexValue(b).value, HexValue(c).value, HexValue(d).value;
    NextDigit(a, [b, c, d], 0);
    NextDigit(b, [c, d], va);
    NextDigit(c, [d], 16 * va + vb);
    NextDigit(d, [], 16 * (16 * va + vb) + vc);
    assert [a] + [b, c, d] == [a, b, c, d] && [b] + [c, d] == [b, c, d] && [c] + [d] == [c, d] && [d] + [] == [d];
  }

  lemma NextDigit(h: char, rest: string, acc: nat)
    requires HexValue(h).Some?
    ensures HexNumber([h] + rest, acc) == HexNumber(rest, 16 * acc + HexValue(h).value)
    ensures HexNumber([], acc) == Some(acc)
    ensures HexNumber([], 16 * acc + HexValue(h).value) == Some(16 * acc + HexValue(h).value)
  {
    assert ([h] + rest)[1..] == rest;
  }

  lemma UnitReads(u: int, rest: string)
    requires 0 <= u < 0x1_0000
    ensures ReadUnit(Unit(u) + rest) == Some(Piece(u, 6)) && (Unit(u) + rest)[6..] == rest
  {
    var s, d3, d2, d1, d0 := Unit(u), u / 16 / 16 / 16, u / 16 / 16 % 16, u / 16 % 16, u % 16;
    DigitValue(d3);
    DigitValue(d2);
    DigitValue(d1);
    DigitValue(d0);
    assert (s + rest)[2..6] == [HexDigit(d3), HexDigit(d2), HexDigit(d1), HexDigit(d0)];
    FourDigits(HexDigit(d3), HexDigit(d2), HexDigit(d1), HexDigit(d0));
  }

  /** What an escape adds to what is read after it. */
  lemma EscapeReads(c: CodePoint, tail: string, r: Parsed<seq<int>>)
    requires ReadBody(tail) == Some(r)
    ensures ReadBody(Escape(c) + tail) == Some(Parsed(UnitsOf(c) + r.value, r.rest))
  {
    var all := Escape(c) + tail;
    hide ReadBody, ReadUnit, Unit;
    if Plain(c) || Short(c) != [] {
      ShortReads(c, tail);
      PieceReads(all, c as int, |Escape(c)|, tail, r);
    } else if c < 0x1_0000 {
      OneUnitReads(c, tail, r);
    } else {
      OneUnitReads(LowUnit(c), tail, r);
      OneUnitReads(HighUnit(c), Unit(LowUnit(c)) + tail, Parsed([LowUnit(c)] + r.value, r.rest));
      PairRegrouped(Unit(HighUnit(c)), Unit(LowUnit(c)), tail, HighUnit(c), LowUnit(c), r.value);
    }
  }

  lemma OneUnitReads(u: int, tail: string, r: Parsed<seq<int>>)
    requires 0 <= u < 0x1_0000 && ReadBody(tail) == Some(r)
    ensures ReadBody(Unit(u) + tail) == Some(Parsed([u] + r.value, r.rest))
  {
    UnitReads(u, tail);
    hide ReadBody, ReadUnit, Unit;
    PieceReads(Unit(u) + tail, u, 6, tail, r);
  }

  lemma PairRegrouped(a: string, b: string, tail: string, x: int, y: int, more: seq<int>)
    ensures (a + b) + tail == a + (b + tail) && [x] + ([y] + more) == [x, y] + more
  {
  }

  lemma ShortReads(c: CodePoint, tail: string)
    requires Plain(c) || Short(c) != []
    ensures ReadUnit(Escape(c) + tail) == Some(Piece(c as int, |Escape(c)|))
    ensures (Escape(c) + tail)[|Escape(c)|..] == tail
  {
  }

  lemma PieceReads(s: string, unit: int, length: nat, tail: string, r: Parsed<seq<int>>)
    requires s != [] && s[0] != '"' && ReadUnit(s) == Some(Piece(unit, length)) && length <= |s| && s[length..] == tail
    requires ReadBody(tail) == Some(r)
    ensures ReadBody(s) == Some(Parsed([unit] + r.value, r.rest))
  {
    hide ReadUnit;
  }

  /** A quoted text is read back as its UTF-16 units, whatever follows it. */
  lemma {:induction false} BodyReads(s: Text, rest: string)
    ensures ReadBody(Body(s) + ['"'] + rest) == Some(Parsed(Units(s), rest))
  {
    if s == [] {
      NothingReads(rest);
    } else {
      var tail := Body(s[1..]) + ['"'] + rest;
      BodyReads(s[1..], rest);
      EscapeReads(s[0], tail, Parsed(Units(s[1..]), rest));
      Regrouped(Escape(s[0]), Body(s[1..]), rest);
      hide ReadBody, Escape, UnitsOf;
    }
  }

  lemma NothingReads(rest: string)
    ensures ReadBody([] + ['"'] + rest) == Some(Parsed([], rest))
  {
    assert [] + ['"'] + rest == ['"'] + rest && (['"'] + rest)[1..] == rest;
  }

  lemma Regrouped(first: string, body: string, rest: string)
    ensures (first + body) + ['"'] + rest == first + (body + ['"'] + rest)
  {
  }

  lemma QuoteReads(s: Text, rest: string)
    ensures ReadString(Quote(s) + rest) == Some(Parsed(Units(s), rest))
  {
    hide ReadBody, Body, Units;
    BodyReads(s, rest);
    assert (Quote(s) + rest)[1..] == Body(s) + ['"'] + rest;
  }

  function AllUnits(fs: seq<Text>): seq<seq<int>> {
    if fs == [] then [] else [Units(fs[0])] + AllUnits(fs[1..])
  }

  lemma {:induction false} FieldsRead(fs: seq<Text>)
    requires fs != []
    ensures ReadItems(Fields(fs) + [']']) == Some(Parsed(AllUnits(fs), []))
  {
    hide Quote, ReadString, Units;
    if |fs| == 1 {
      QuoteReads(fs[0], [']']);
      assert AllUnits(fs) == [Units(fs[0])] && [']'][1..] == [];
    } else {
      var rest := [','] + Fields(fs[1..]) + [']'];
      FieldsRead(fs[1..]);
      QuoteReads(fs[0], rest);
      assert Fields(fs) + [']'] == Quote(fs[0]) + rest;
      assert rest[1..] == Fields(fs[1..]) + [']'];
    }
  }

  /** The text under the hash is a JSON array, and reading it gives back every field, in UTF-16 units
      and in order. */
  lemma EncodeReads(fs: seq<Text>)
    ensures ReadArray(Encode(fs)) == Some(Parsed(AllUnits(fs), []))
  {
    hide ReadItems, AllUnits, Fields;
    NoUnits();
    if fs == [] {
      assert Encode(fs) == ['[', ']'] && Encode(fs)[2..] == [];
    } else {
      FieldsRead(fs);
      assert Encode(fs)[1..] == Fields(fs) + [']'];
      StartsWithQuote(fs);
    }
  }

  lemma NoUnits()
    ensures AllUnits([]) == [] && Fields([]) == []
  {
  }

  lemma StartsWithQuote(fs: seq<Text>)
    requires fs != []
    ensures Fields(fs) != [] && Fields(fs)[0] == '"'
  {
  }
}
