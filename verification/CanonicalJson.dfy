/** The ASCII JSON array of strings that the audit hash is taken over, and why it is injective.
    Python strings are sequences of code points; the encoder is `json.dumps` with
    `ensure_ascii`, whose escapes are those of section 7 of RFC 8259. */
module CanonicalJson {

  type CodePoint = c: int | 0 <= c < 0x11_0000

  type Text = seq<CodePoint>

  predicate Surrogate(c: int) {
    0xD800 <= c < 0xE000
  }

  /** A Unicode scalar value: any code point but a surrogate. */
  predicate Scalar(c: CodePoint) {
    !Surrogate(c)
  }

  ghost predicate Scalars(s: Text) {
    forall i :: 0 <= i < |s| ==> Scalar(s[i])
  }

  function HexDigit(n: int): (h: char)
    requires 0 <= n < 16
  {
    "0123456789abcdef"[n]
  }

  /** One UTF-16 unit as `\uXXXX`. */
  function Unit(u: int): (s: string)
    requires 0 <= u < 0x1_0000
    ensures |s| == 6 && s[0] == '\\' && s[1] == 'u'
  {
    var (a, b, c) := (u / 16, u / 16 / 16, u / 16 / 16 / 16);
    ['\\', 'u', HexDigit(c), HexDigit(b % 16), HexDigit(a % 16), HexDigit(u % 16)]
  }

  predicate Plain(c: CodePoint) {
    0x20 <= c < 0x7F && c != 0x22 && c != 0x5C
  }

  /** The two-character escape's second character, for the code points that have one. */
  function Short(c: CodePoint): (r: seq<char>)
    ensures |r| <= 1
  {
    if c == 0x22 then ['"'] else if c == 0x5C then ['\\']
    else if c == 0x08 then ['b'] else if c == 0x09 then ['t'] else if c == 0x0A then ['n']
    else if c == 0x0C then ['f'] else if c == 0x0D then ['r'] else []
  }

  function HighUnit(c: CodePoint): (u: int)
    requires c >= 0x1_0000
    ensures 0xD800 <= u < 0xDC00
  {
    0xD800 + (c - 0x1_0000) / 0x400
  }

  function LowUnit(c: CodePoint): (u: int)
    requires c >= 0x1_0000
    ensures 0xDC00 <= u < 0xE000
  {
    0xDC00 + (c - 0x1_0000) % 0x400
  }

  function Escape(c: CodePoint): (s: string)
    ensures 0 < |s| && s[0] != '"'
  {
    if Plain(c) then [c as char]
    else if Short(c) != [] then ['\\'] + Short(c)
    else if c < 0x1_0000 then Unit(c)
    else Unit(HighUnit(c)) + Unit(LowUnit(c))
  }

  function Body(s: Text): string {
    if s == [] then [] else Escape(s[0]) + Body(s[1..])
  }

  function Quote(s: Text): string {
    ['"'] + Body(s) + ['"']
  }

  /** `json.dumps(fields, separators=(",", ":"), ensure_ascii=True)` of a tuple of strings. */
  function Fields(fs: seq<Text>): string {
    if fs == [] then [] else if |fs| == 1 then Quote(fs[0]) else Quote(fs[0]) + [','] + Fields(fs[1..])
  }

  function Encode(fs: seq<Text>): string {
    ['['] + Fields(fs) + [']']
  }

  // ------------------------------------------------------------- injectivity

  lemma HexInjective(m: int, n: int)
    requires 0 <= m < 16 && 0 <= n < 16 && HexDigit(m) == HexDigit(n)
    ensures m == n
  {
  }

  lemma UnitInjective(u: int, v: int)
    requires 0 <= u < 0x1_0000 && 0 <= v < 0x1_0000 && Unit(u) == Unit(v)
    ensures u == v
  {
    assert Unit(u)[2] == Unit(v)[2] && Unit(u)[3] == Unit(v)[3] && Unit(u)[4] == Unit(v)[4] && Unit(u)[5] == Unit(v)[5];
    HexInjective(u / 16 / 16 / 16, v / 16 / 16 / 16);
    HexInjective(u / 16 / 16 % 16, v / 16 / 16 % 16);
    HexInjective(u / 16 % 16, v / 16 % 16);
    HexInjective(u % 16, v % 16);
  }

  /** Equal strings that start with pieces of equal length start with equal pieces. */
  lemma Split(a: string, r: string, b: string, t: string)
    requires a + r == b + t && |a| == |b|
    ensures a == b && r == t
  {
    assert a == (a + r)[..|a|] && b == (b + t)[..|b|];
    assert r == (a + r)[|a|..] && t == (b + t)[|b|..];
  }

  /** How an escape announces its own kind: by whether it starts with a backslash, what follows
      it, and for `\u` whether the unit is a high surrogate. */
  datatype Kind = Itself | Letter | OneUnit | TwoUnits

  function KindOf(c: CodePoint): Kind {
    if Plain(c) then Itself else if Short(c) != [] then Letter else if c < 0x1_0000 then OneUnit else TwoUnits
  }

  /** Both are scalar values, or both fit one UTF-16 unit. */
  predicate Comparable(c: CodePoint, d: CodePoint) {
    (Scalar(c) && Scalar(d)) || (c < 0x1_0000 && d < 0x1_0000)
  }

  lemma SameKind(c: CodePoint, r: string, d: CodePoint, t: string)
    requires Comparable(c, d) && Escape(c) + r == Escape(d) + t
    ensures KindOf(c) == KindOf(d)
  {
    Announces(c, r);
    Announces(d, t);
    if UnitKind(c) && UnitKind(d) {
      UnitInjective(UnitOf(c), UnitOf(d));
    }
  }

  predicate UnitKind(c: CodePoint) {
    KindOf(c) == OneUnit || KindOf(c) == TwoUnits
  }

  /** The first UTF-16 unit of an escaped code point. */
  function UnitOf(c: CodePoint): (u: int)
    ensures 0 <= u < 0x1_0000
  {
    if c < 0x1_0000 then c else HighUnit(c)
  }

  lemma Announces(c: CodePoint, r: string)
    ensures var s := Escape(c) + r;
            && (s[0] == '\\' <==> KindOf(c) != Itself)
            && (KindOf(c) != Itself ==> |s| > 1 && (s[1] == 'u' <==> UnitKind(c)))
            && (UnitKind(c) ==> |s| >= 6 && s[..6] == Unit(UnitOf(c)))
  {
    var s := Escape(c) + r;
    assert s[..|Escape(c)|] == Escape(c);
    if KindOf(c) == TwoUnits {
      assert Escape(c)[..6] == Unit(HighUnit(c));
      assert s[..6] == Escape(c)[..6];
    }
  }

  /** The escapes of scalar values form a prefix code, and different values differ; so do those of
      single UTF-16 units, surrogates included. */
  lemma EscapeIsPrefixCode(c: CodePoint, r: string, d: CodePoint, t: string)
    requires Comparable(c, d) && Escape(c) + r == Escape(d) + t
    ensures c == d && r == t
  {
    SameKind(c, r, d, t);
    Split(Escape(c), r, Escape(d), t);
    match KindOf(c)
    case Itself =>
      assert Escape(c)[0] == Escape(d)[0];
    case Letter =>
      assert Escape(c)[1] == Escape(d)[1];
    case OneUnit =>
      UnitInjective(c, d);
    case TwoUnits =>
      Split(Unit(HighUnit(c)), Unit(LowUnit(c)), Unit(HighUnit(d)), Unit(LowUnit(d)));
      UnitInjective(HighUnit(c), HighUnit(d));
      UnitInjective(LowUnit(c), LowUnit(d));
  }

  function Closed(s: Text, r: string): string {
    Body(s) + (['"'] + r)
  }

  lemma ClosedCons(s: Text, r: string)
    ensures s != [] ==> Closed(s, r) == Escape(s[0]) + Closed(s[1..], r)
    ensures s == [] ==> Closed(s, r) == ['"'] + r
    ensures Closed(s, r) != [] && (Closed(s, r)[0] == '"' <==> s == [])
  {
  }

  ghost predicate SingleUnits(s: Text) {
    forall i :: 0 <= i < |s| ==> s[i] < 0x1_0000
  }

  /** Both are texts of scalar values, or both of single UTF-16 units. */
  ghost predicate SameSort(s: Text, t: Text) {
    (Scalars(s) && Scalars(t)) || (SingleUnits(s) && SingleUnits(t))
  }

  /** A string body ends at its own closing quote, whatever follows it. */
  lemma {:induction false} BodyInjective(s: Text, r: string, t: Text, u: string)
    requires SameSort(s, t) && Closed(s, r) == Closed(t, u)
    ensures s == t && r == u
  {
    ClosedCons(s, r);
    ClosedCons(t, u);
    if s == [] {
      Split(['"'], r, ['"'], u);
    } else {
      EscapeIsPrefixCode(s[0], Closed(s[1..], r), t[0], Closed(t[1..], u));
      BodyInjective(s[1..], r, t[1..], u);
      assert s == [s[0]] + s[1..] && t == [t[0]] + t[1..];
    }
  }

  lemma QuoteInjective(s: Text, r: string, t: Text, u: string)
    requires SameSort(s, t) && Quote(s) + r == Quote(t) + u
    ensures s == t && r == u
  {
    QuoteClosed(s, r);
    QuoteClosed(t, u);
    Split(['"'], Closed(s, r), ['"'], Closed(t, u));
    BodyInjective(s, r, t, u);
    hide Body, Closed, Quote, SameSort;
  }

  lemma QuoteClosed(s: Text, r: string)
    ensures Quote(s) + r == ['"'] + Closed(s, r)
  {
    hide Body;
  }

  ghost predicate AllScalars(fs: seq<Text>) {
    forall i :: 0 <= i < |fs| ==> Scalars(fs[i])
  }

  lemma FieldsCons(fs: seq<Text>)
    requires |fs| > 1
    ensures Fields(fs) == Quote(fs[0]) + ([','] + Fields(fs[1..]))
  {
  }

  lemma {:induction false} FieldsInjective(fs: seq<Text>, gs: seq<Text>)
    requires |fs| == |gs| && (forall i :: 0 <= i < |fs| ==> SameSort(fs[i], gs[i])) && Fields(fs) == Fields(gs)
    ensures fs == gs
  {
    if |fs| == 1 {
      assert Quote(fs[0]) + [] == Quote(fs[0]) && Quote(gs[0]) + [] == Quote(gs[0]);
      QuoteInjective(fs[0], [], gs[0], []);
    } else if |fs| > 1 {
      FieldsCons(fs);
      FieldsCons(gs);
      QuoteInjective(fs[0], [','] + Fields(fs[1..]), gs[0], [','] + Fields(gs[1..]));
      Split([','], Fields(fs[1..]), [','], Fields(gs[1..]));
      FieldsInjective(fs[1..], gs[1..]);
      assert fs == [fs[0]] + fs[1..] && gs == [gs[0]] + gs[1..];
    }
  }

  /** Two tuples of the same number of scalar-value strings encode alike only if they are equal. */
  lemma EncodeInjective(fs: seq<Text>, gs: seq<Text>)
    requires AllScalars(fs) && AllScalars(gs) && |fs| == |gs| && Encode(fs) == Encode(gs)
    ensures fs == gs
  {
    SortedEncodeInjective(fs, gs);
  }

  lemma SortedEncodeInjective(fs: seq<Text>, gs: seq<Text>)
    requires |fs| == |gs| && (forall i :: 0 <= i < |fs| ==> SameSort(fs[i], gs[i])) && Encode(fs) == Encode(gs)
    ensures fs == gs
  {
    assert Encode(fs)[1..|Encode(fs)| - 1] == Fields(fs);
    assert Encode(gs)[1..|Encode(gs)| - 1] == Fields(gs);
    FieldsInjective(fs, gs);
  }

  lemma PairedUnits(c: CodePoint)
    requires c >= 0x1_0000
    ensures Body([HighUnit(c), LowUnit(c)]) == Body([c])
  {
    PairEscapes(c, []);
    BodyCons(c, []);
    hide Body;
    assert [HighUnit(c)] + ([LowUnit(c)] + []) == [HighUnit(c), LowUnit(c)] && [c] + [] == [c];
  }

  lemma BodyCons(c: CodePoint, s: Text)
    ensures Body([c] + s) == Escape(c) + Body(s)
  {
    assert ([c] + s)[1..] == s;
  }

  /** A surrogate pair is escaped like the character it makes. */
  lemma PairEscapes(c: CodePoint, s: Text)
    requires c >= 0x1_0000
    ensures Body([HighUnit(c)] + ([LowUnit(c)] + s)) == Escape(c) + Body(s)
  {
    hide Body, Unit, Escape;
    BodyCons(HighUnit(c), [LowUnit(c)] + s);
    BodyCons(LowUnit(c), s);
    LongEscapes(c);
  }

  lemma LongEscapes(c: CodePoint)
    requires c >= 0x1_0000
    ensures Escape(c) == Escape(HighUnit(c)) + Escape(LowUnit(c))
  {
    hide Unit;
  }

  /** Adjacent surrogates have to be excluded: a Python string of a high and a low one encodes like
      the supplementary character they would make. */
  lemma LoneSurrogatesCollide(c: CodePoint)
    requires c >= 0x1_0000
    ensures [HighUnit(c), LowUnit(c)] != [c] && Encode([[HighUnit(c), LowUnit(c)]]) == Encode([[c]])
  {
    hide Body;
    PairedUnits(c);
    var pair: Text, one: Text := [HighUnit(c), LowUnit(c)], [c];
    var fs: seq<Text>, gs: seq<Text> := [pair], [one];
    assert Fields(fs) == Quote(pair) && Fields(gs) == Quote(one);
  }

  // ------------------------------------------------- which texts encode alike

  predicate High(c: CodePoint) {
    0xD800 <= c < 0xDC00
  }

  predicate Low(c: CodePoint) {
    0xDC00 <= c < 0xE000
  }

  /** The supplementary character of a surrogate pair. */
  function Joined(high: CodePoint, low: CodePoint): (c: CodePoint)
    requires High(high) && Low(low)
    ensures c >= 0x1_0000 && HighUnit(c) == high && LowUnit(c) == low
  {
    0x1_0000 + (high - 0xD800) * 0x400 + (low - 0xDC00)
  }

  lemma JoinedUnits(c: CodePoint)
    requires c >= 0x1_0000
    ensures Joined(HighUnit(c), LowUnit(c)) == c
  {
  }

  /** The text with every adjacent high-low pair replaced by its character. */
  function Merged(s: Text): Text {
    if s == [] then []
    else if |s| > 1 && High(s[0]) && Low(s[1]) then [Joined(s[0], s[1])] + Merged(s[2..])
    else [s[0]] + Merged(s[1..])
  }

  /** The text in UTF-16 units. */
  function Units(s: Text): Text {
    if s == [] then []
    else if s[0] < 0x1_0000 then [s[0]] + Units(s[1..])
    else [HighUnit(s[0]), LowUnit(s[0])] + Units(s[1..])
  }

  lemma {:induction false} UnitsAreSingle(s: Text)
    ensures SingleUnits(Units(s))
  {
    if s != [] {
      UnitsAreSingle(s[1..]);
    }
  }

  lemma {:induction false} UnitsKeepBody(s: Text)
    ensures Body(Units(s)) == Body(s)
  {
    if s != [] {
      UnitsKeepBody(s[1..]);
      var rest := Units(s[1..]);
      assert s == [s[0]] + s[1..];
      BodyCons(s[0], s[1..]);
      hide Body;
      if s[0] < 0x1_0000 {
        BodyCons(s[0], rest);
      } else {
        PairEscapes(s[0], rest);
        assert [HighUnit(s[0]), LowUnit(s[0])] + rest == [HighUnit(s[0])] + ([LowUnit(s[0])] + rest);
      }
    }
  }

  lemma {:induction false} UnitsOfMerged(s: Text)
    ensures Units(Merged(s)) == Units(s)
  {
    if |s| > 1 && High(s[0]) && Low(s[1]) {
      var rest := Merged(s[2..]);
      UnitsOfMerged(s[2..]);
      assert ([Joined(s[0], s[1])] + rest)[1..] == rest && s[1..][1..] == s[2..];
      assert [s[0]] + ([s[1]] + Units(s[2..])) == [s[0], s[1]] + Units(s[2..]);
    } else if s != [] {
      UnitsOfMerged(s[1..]);
      assert ([s[0]] + Merged(s[1..]))[1..] == Merged(s[1..]);
    }
  }

  lemma {:induction false} MergedOfUnits(s: Text)
    ensures Merged(Units(s)) == Merged(s)
  {
    if s != [] {
      var rest := Units(s[1..]);
      if s[0] >= 0x1_0000 {
        MergedOfUnits(s[1..]);
        JoinedUnits(s[0]);
        assert ([HighUnit(s[0]), LowUnit(s[0])] + rest)[2..] == rest;
      } else if |s| > 1 && High(s[0]) && Low(s[1]) {
        MergedOfUnits(s[2..]);
        assert s[1..][1..] == s[2..];
        assert ([s[0]] + rest)[2..] == Units(s[2..]);
      } else {
        MergedOfUnits(s[1..]);
        assert ([s[0]] + rest)[1..] == rest;
        assert |rest| > 0 && Low(rest[0]) ==> |s| > 1 && Low(s[1]);
      }
    }
  }

  function AllUnits(fs: seq<Text>): (us: seq<Text>)
    ensures |us| == |fs| && forall i :: 0 <= i < |fs| ==> us[i] == Units(fs[i])
  {
    seq(|fs|, i requires 0 <= i < |fs| => Units(fs[i]))
  }

  lemma {:induction false} UnitsKeepFields(fs: seq<Text>)
    ensures Fields(AllUnits(fs)) == Fields(fs)
  {
    if fs != [] {
      UnitsKeepBody(fs[0]);
      UnitsKeepFields(fs[1..]);
      assert AllUnits(fs)[1..] == AllUnits(fs[1..]);
    }
  }

  /** Two tuples of as many strings encode alike exactly when they are equal after every adjacent
      surrogate pair is merged, whatever else the strings hold, lone surrogates included. */
  lemma EncodesAlikeIff(fs: seq<Text>, gs: seq<Text>)
    requires |fs| == |gs|
    ensures Encode(fs) == Encode(gs) <==> forall i :: 0 <= i < |fs| ==> Merged(fs[i]) == Merged(gs[i])
  {
    UnitsKeepFields(fs);
    UnitsKeepFields(gs);
    forall i | 0 <= i < |fs|
      ensures SameSort(AllUnits(fs)[i], AllUnits(gs)[i])
      ensures Units(fs[i]) == Units(gs[i]) <==> Merged(fs[i]) == Merged(gs[i])
    {
      UnitsAreSingle(fs[i]);
      UnitsAreSingle(gs[i]);
      UnitsOfMerged(fs[i]);
      UnitsOfMerged(gs[i]);
      MergedOfUnits(fs[i]);
      MergedOfUnits(gs[i]);
    }
    hide Units, Merged, Fields, SameSort;
    if Encode(fs) == Encode(gs) {
      SortedEncodeInjective(AllUnits(fs), AllUnits(gs));
      assert forall i :: 0 <= i < |fs| ==> AllUnits(fs)[i] == AllUnits(gs)[i];
    }
    if forall i :: 0 <= i < |fs| ==> Merged(fs[i]) == Merged(gs[i]) {
      assert AllUnits(fs) == AllUnits(gs);
    }
  }
}
