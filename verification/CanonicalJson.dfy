/**
 Canonical JSON: the text under every digest, approval binding and signature. Strings are
 sequences of UTF-16 code units, printed as well-formed `JSON.stringify` prints them; numbers are
 integers. The parser reads JSON without insignificant white space, which canonical text never has.
 */
module CanonicalJson {
  import opened Wrappers

  type Unit = x: int | 0 <= x < 0x1_0000
  type Text = seq<Unit>

  datatype Member = Member(key: Text, value: Json)

  datatype Json =
    | Null
    | Bool(b: bool)
    | Number(n: int)
    | Str(s: Text)
    | Array(items: seq<Json>)
    | Object(members: seq<Member>)

  /** SHA-256, free of collisions: a digest is its preimage under a name. */
  datatype Digest = Sha256(preimage: Text)

  const QUOTE: Unit := 0x22
  const COMMA: Unit := 0x2C
  const MINUS: Unit := 0x2D
  const SLASH: Unit := 0x2F
  const ZERO: Unit := 0x30
  const COLON: Unit := 0x3A
  const OPEN_BRACKET: Unit := 0x5B
  const BACKSLASH: Unit := 0x5C
  const CLOSE_BRACKET: Unit := 0x5D
  const OPEN_BRACE: Unit := 0x7B
  const CLOSE_BRACE: Unit := 0x7D
  const TRUE: Text := [0x74, 0x72, 0x75, 0x65]
  const FALSE: Text := [0x66, 0x61, 0x6C, 0x73, 0x65]
  const NULL: Text := [0x6E, 0x75, 0x6C, 0x6C]

  // ---- Printing ---------------------------------------------------------------------------

  predicate High(u: Unit) { 0xD800 <= u <= 0xDBFF }
  predicate Low(u: Unit) { 0xDC00 <= u <= 0xDFFF }

  function HexDigit(d: int): (u: Unit)
    requires 0 <= d < 16
  {
    if d < 10 then 0x30 + d else 0x61 + d - 10
  }

  function UnicodeEscape(u: Unit): Text {
    [BACKSLASH, 0x75, HexDigit(u / 0x1000), HexDigit(u / 0x100 % 16), HexDigit(u / 16 % 16), HexDigit(u % 16)]
  }

  function EscapeUnit(u: Unit): Text {
    if u == QUOTE || u == BACKSLASH then [BACKSLASH, u]
    else if u == 0x08 then [BACKSLASH, 0x62]
    else if u == 0x0C then [BACKSLASH, 0x66]
    else if u == 0x0A then [BACKSLASH, 0x6E]
    else if u == 0x0D then [BACKSLASH, 0x72]
    else if u == 0x09 then [BACKSLASH, 0x74]
    else if u < 0x20 || High(u) || Low(u) then UnicodeEscape(u)
    else [u]
  }

  /** Paired surrogates stay as they are; a lone one is escaped. */
  function Escape(s: Text): Text {
    if s == [] then []
    else if |s| >= 2 && High(s[0]) && Low(s[1]) then [s[0], s[1]] + Escape(s[2..])
    else EscapeUnit(s[0]) + Escape(s[1..])
  }

  function Quote(s: Text): Text {
    [QUOTE] + Escape(s) + [QUOTE]
  }

  function Digits(n: nat): (t: Text)
    ensures t != []
  {
    if n < 10 then [ZERO + n] else Digits(n / 10) + [ZERO + n % 10]
  }

  function Decimal(n: int): Text {
    if n < 0 then [MINUS] + Digits(-n) else Digits(n)
  }

  function Join(parts: seq<Text>): Text {
    if parts == [] then []
    else if |parts| == 1 then parts[0]
    else parts[0] + [COMMA] + Join(parts[1..])
  }

  /** Strict ordering by UTF-16 code unit. */
  predicate Before(a: Text, b: Text) {
    b != [] && (a == [] || a[0] < b[0] || (a[0] == b[0] && Before(a[1..], b[1..])))
  }

  function Insert(m: Member, sorted: seq<Member>): (r: seq<Member>)
    ensures multiset(r) == multiset(sorted) + multiset{m}
  {
    if sorted == [] || Before(m.key, sorted[0].key) then
      [m] + sorted
    else
      assert sorted == [sorted[0]] + sorted[1..];
      [sorted[0]] + Insert(m, sorted[1..])
  }

  function Sort(members: seq<Member>): (r: seq<Member>)
    ensures multiset(r) == multiset(members)
  {
    if members == [] then []
    else
      assert members == [members[0]] + members[1..];
      Insert(members[0], Sort(members[1..]))
  }

  lemma SortKeepsMembers(members: seq<Member>)
    ensures |Sort(members)| == |members|
    ensures forall m :: m in Sort(members) <==> m in members
  {
    assert |multiset(Sort(members))| == |multiset(members)|;
    forall m ensures m in Sort(members) <==> m in members {
      assert m in Sort(members) <==> m in multiset(Sort(members));
      assert m in members <==> m in multiset(members);
    }
  }

  /** The canonical text: keys in order, everything else as JSON prints it. */
  function Canonical(v: Json): Text
    decreases v, 1, 0
  {
    match v
    case Null => NULL
    case Bool(b) => if b then TRUE else FALSE
    case Number(n) => Decimal(n)
    case Str(s) => Quote(s)
    case Array(items) => [OPEN_BRACKET] + Join(CanonicalItems(v, items)) + [CLOSE_BRACKET]
    case Object(members) =>
      SortKeepsMembers(members);
      [OPEN_BRACE] + Join(CanonicalMembers(v, Sort(members))) + [CLOSE_BRACE]
  }

  function CanonicalItems(v: Json, items: seq<Json>): seq<Text>
    requires v.Array? && forall i | i in items :: i in v.items
    decreases v, 0, |items|
  {
    if items == [] then []
    else
      assert items[0] in v.items;
      [Canonical(items[0])] + CanonicalItems(v, items[1..])
  }

  function CanonicalMembers(v: Json, members: seq<Member>): seq<Text>
    requires v.Object? && forall m | m in members :: m in v.members
    decreases v, 0, |members|
  {
    if members == [] then []
    else
      assert members[0] in v.members;
      [Quote(members[0].key) + [COLON] + Canonical(members[0].value)] + CanonicalMembers(v, members[1..])
  }

  function DigestOf(v: Json): Digest {
    Sha256(Canonical(v))
  }

  // ---- Parsing ----------------------------------------------------------------------------

  datatype Parsed<+T> = Parsed(value: T, rest: Text) | Malformed {
    predicate IsFailure() { Malformed? }

    function PropagateFailure<U>(): Parsed<U>
      requires Malformed?
    {
      Malformed
    }

    function Extract(): (T, Text)
      requires Parsed?
    {
      (value, rest)
    }
  }

  predicate Digit(u: Unit) { ZERO <= u <= 0x39 }

  function HexValue(u: Unit): Option<int> {
    if Digit(u) then Some(u - 0x30)
    else if 0x61 <= u <= 0x66 then Some(u - 0x61 + 10)
    else if 0x41 <= u <= 0x46 then Some(u - 0x41 + 10)
    else None
  }

  /** The unit a backslash stands for, and how many units it took. */
  function Unescape(s: Text): (r: Parsed<Unit>)
    ensures r.Parsed? ==> |r.rest| < |s|
  {
    if s == [] then Malformed
    else if s[0] == QUOTE || s[0] == BACKSLASH || s[0] == SLASH then Parsed(s[0], s[1..])
    else if s[0] == 0x62 then Parsed(0x08, s[1..])
    else if s[0] == 0x66 then Parsed(0x0C, s[1..])
    else if s[0] == 0x6E then Parsed(0x0A, s[1..])
    else if s[0] == 0x72 then Parsed(0x0D, s[1..])
    else if s[0] == 0x74 then Parsed(0x09, s[1..])
    else if s[0] == 0x75 && |s| >= 5 then
      (match (HexValue(s[1]), HexValue(s[2]), HexValue(s[3]), HexValue(s[4]))
       case (Some(a), Some(b), Some(c), Some(d)) =>
         var u := a * 0x1000 + b * 0x100 + c * 16 + d;
         if 0 <= u < 0x1_0000 then Parsed(u, s[5..]) else Malformed
       case _ => Malformed)
    else Malformed
  }

  /** The units of a string, up to its closing quote. */
  function ParseUnits(s: Text): (r: Parsed<Text>)
    ensures r.Parsed? ==> |r.rest| < |s|
  {
    if s == [] || s[0] < 0x20 then Malformed
    else if s[0] == QUOTE then Parsed([], s[1..])
    else if s[0] == BACKSLASH then
      var (u, rest) :- Unescape(s[1..]);
      var (units, rest) :- ParseUnits(rest);
      Parsed([u] + units, rest)
    else
      var (units, rest) :- ParseUnits(s[1..]);
      Parsed([s[0]] + units, rest)
  }

  function ParseDigits(s: Text, acc: nat): (r: Parsed<nat>)
    ensures r.Parsed? && |r.rest| <= |s|
  {
    if s != [] && Digit(s[0]) then ParseDigits(s[1..], acc * 10 + (s[0] - ZERO)) else Parsed(acc, s)
  }

  /** No leading zeros. */
  function ParseNatural(s: Text): (r: Parsed<nat>)
    ensures r.Parsed? ==> |r.rest| < |s|
  {
    if s == [] || !Digit(s[0]) then Malformed
    else if s[0] == ZERO then Parsed(0, s[1..])
    else ParseDigits(s[1..], s[0] - ZERO)
  }

  function ParseLiteral(s: Text, word: Text, v: Json): (r: Parsed<Json>)
    requires word != []
    ensures r.Parsed? ==> |r.rest| < |s|
  {
    if word <= s then Parsed(v, s[|word|..]) else Malformed
  }

  function ParseValue(s: Text): (r: Parsed<Json>)
    ensures r.Parsed? ==> |r.rest| < |s|
    decreases |s|, 0
  {
    if s == [] then Malformed
    else if s[0] == QUOTE then
      var (units, rest) :- ParseUnits(s[1..]);
      Parsed(Str(units), rest)
    else if s[0] == MINUS then
      var (n, rest) :- ParseNatural(s[1..]);
      Parsed(Number(0 - n), rest)
    else if Digit(s[0]) then
      var (n, rest) :- ParseNatural(s);
      Parsed(Number(n), rest)
    else if s[0] == OPEN_BRACKET then
      if |s| >= 2 && s[1] == CLOSE_BRACKET then Parsed(Array([]), s[2..])
      else
        var (items, rest) :- ParseItems(s[1..]);
        Parsed(Array(items), rest)
    else if s[0] == OPEN_BRACE then
      if |s| >= 2 && s[1] == CLOSE_BRACE then Parsed(Object([]), s[2..])
      else
        var (members, rest) :- ParseMembers(s[1..]);
        Parsed(Object(members), rest)
    else if s[0] == TRUE[0] then ParseLiteral(s, TRUE, Bool(true))
    else if s[0] == FALSE[0] then ParseLiteral(s, FALSE, Bool(false))
    else ParseLiteral(s, NULL, Null)
  }

  /** One or more items and the closing bracket. */
  function ParseItems(s: Text): (r: Parsed<seq<Json>>)
    ensures r.Parsed? ==> |r.rest| < |s|
    decreases |s|, 1
  {
    var (v, rest) :- ParseValue(s);
    if rest == [] then Malformed
    else if rest[0] == CLOSE_BRACKET then Parsed([v], rest[1..])
    else if rest[0] == COMMA then
      var (items, rest) :- ParseItems(rest[1..]);
      Parsed([v] + items, rest)
    else Malformed
  }

  /** One or more members and the closing brace. */
  function ParseMembers(s: Text): (r: Parsed<seq<Member>>)
    ensures r.Parsed? ==> |r.rest| < |s|
    decreases |s|, 1
  {
    if s == [] || s[0] != QUOTE then Malformed
    else
      var (key, rest) :- ParseUnits(s[1..]);
      if rest == [] || rest[0] != COLON then Malformed
      else
        var (v, rest) :- ParseValue(rest[1..]);
        if rest == [] then Malformed
        else if rest[0] == CLOSE_BRACE then Parsed([Member(key, v)], rest[1..])
        else if rest[0] == COMMA then
          var (members, rest) :- ParseMembers(rest[1..]);
          Parsed([Member(key, v)] + members, rest)
        else Malformed
  }

  function Parse(s: Text): Option<Json> {
    match ParseValue(s)
    case Parsed(v, rest) => if rest == [] then Some(v) else None
    case Malformed => None
  }

  // ---- Strings and numbers read back ------------------------------------------------------

  lemma DigitsOfUnit(u: Unit)
    ensures u == u / 0x1000 * 0x1000 + u / 0x100 % 16 * 0x100 + u / 16 % 16 * 16 + u % 16
  {
    var a, b, c := u / 16, u / 0x100, u / 0x1000;
    assert b == a / 16 && c == b / 16;
    assert u == a * 16 + u % 16 && a == b * 16 + a % 16 && b == c * 16 + b % 16;
  }

  lemma HexDigitReadsBack(d: int)
    requires 0 <= d < 16
    ensures HexValue(HexDigit(d)) == Some(d)
  {}

  lemma HexReadsBack(u: Unit, tail: Text)
    ensures Unescape(UnicodeEscape(u)[1..] + tail) == Parsed(u, tail)
  {
    var a, b, c, d := u / 0x1000, u / 0x100 % 16, u / 16 % 16, u % 16;
    var s := UnicodeEscape(u)[1..] + tail;
    HexDigitReadsBack(a);
    HexDigitReadsBack(b);
    HexDigitReadsBack(c);
    HexDigitReadsBack(d);
    DigitsOfUnit(u);
    assert s[5..] == tail;
    assert s[0] == 0x75 && s[1] == HexDigit(a) && s[2] == HexDigit(b) && s[3] == HexDigit(c) && s[4] == HexDigit(d);
  }

  lemma EscapedUnitReadsBack(u: Unit, tail: Text)
    ensures if EscapeUnit(u)[0] == BACKSLASH then Unescape(EscapeUnit(u)[1..] + tail) == Parsed(u, tail)
            else EscapeUnit(u) == [u] && u >= 0x20 && u != QUOTE
  {
    var e := EscapeUnit(u);
    if |e| == 2 {
      assert e[1..] + tail == [e[1]] + tail;
      assert ([e[1]] + tail)[1..] == tail;
    } else if |e| == 6 {
      HexReadsBack(u, tail);
    }
  }

  /** One unit more in front of what was read. */
  function Prepend(u: Unit, p: Parsed<Text>): Parsed<Text> {
    if p.Malformed? then Malformed else Parsed([u] + p.value, p.rest)
  }

  lemma PlainUnitIsRead(u: Unit, tail: Text)
    requires u >= 0x20 && u != QUOTE && u != BACKSLASH
    ensures ParseUnits([u] + tail) == Prepend(u, ParseUnits(tail))
  {
    assert ([u] + tail)[1..] == tail;
  }

  lemma PairIsRead(u: Unit, w: Unit, tail: Text)
    requires High(u) && Low(w)
    ensures ParseUnits([u, w] + tail) == Prepend(u, Prepend(w, ParseUnits(tail)))
  {
    PlainUnitIsRead(w, tail);
    PlainUnitIsRead(u, [w] + tail);
    assert [u, w] + tail == [u] + ([w] + tail);
  }

  lemma EscapedUnitIsRead(u: Unit, tail: Text)
    ensures ParseUnits(EscapeUnit(u) + tail) == Prepend(u, ParseUnits(tail))
  {
    var e := EscapeUnit(u);
    EscapedUnitReadsBack(u, tail);
    if e[0] == BACKSLASH {
      assert (e + tail)[1..] == e[1..] + tail;
    } else {
      PlainUnitIsRead(u, tail);
    }
  }

  ghost predicate ReadsBack(s: Text, rest: Text) {
    ParseUnits(Escape(s) + ([QUOTE] + rest)) == Parsed(s, rest)
  }

  lemma Associates(a: Text, b: Text, c: Text)
    ensures (a + b) + c == a + (b + c)
  {}

  lemma PairStep(s: Text, rest: Text)
    requires |s| >= 2 && High(s[0]) && Low(s[1]) && ReadsBack(s[2..], rest)
    ensures ReadsBack(s, rest)
  {
    var t := Escape(s[2..]) + ([QUOTE] + rest);
    assert Escape(s) + ([QUOTE] + rest) == [s[0], s[1]] + t;
    PairIsRead(s[0], s[1], t);
    assert [s[0]] + ([s[1]] + s[2..]) == s;
  }

  lemma UnitStep(s: Text, rest: Text)
    requires s != [] && !(|s| >= 2 && High(s[0]) && Low(s[1])) && ReadsBack(s[1..], rest)
    ensures ReadsBack(s, rest)
  {
    Associates(EscapeUnit(s[0]), Escape(s[1..]), [QUOTE] + rest);
    EscapedUnitIsRead(s[0], Escape(s[1..]) + ([QUOTE] + rest));
    assert [s[0]] + s[1..] == s;
  }

  lemma {:induction false} StringReadsBack(s: Text, rest: Text)
    ensures ParseUnits(Escape(s) + ([QUOTE] + rest)) == Parsed(s, rest)
  {
    if s == [] {
      assert [] + ([QUOTE] + rest) == [QUOTE] + rest;
      assert ([QUOTE] + rest)[1..] == rest;
    } else if |s| >= 2 && High(s[0]) && Low(s[1]) {
      StringReadsBack(s[2..], rest);
      PairStep(s, rest);
    } else {
      StringReadsBack(s[1..], rest);
      UnitStep(s, rest);
    }
  }

  lemma {:induction false} DigitsReadBack(n: nat, rest: Text)
    ensures ParseDigits(Digits(n) + rest, 0) == ParseDigits(rest, n)
    ensures Digit(Digits(n)[0]) && (n > 0 ==> Digits(n)[0] != ZERO)
  {
    if n < 10 {
      assert (Digits(n) + rest)[1..] == rest;
    } else {
      var d: Unit := ZERO + n % 10;
      DigitsReadBack(n / 10, [d] + rest);
      assert Digits(n) + rest == Digits(n / 10) + ([d] + rest);
      assert ([d] + rest)[1..] == rest;
    }
  }

  /** A number ends where the digits do. */
  predicate Ends(rest: Text) {
    rest == [] || !Digit(rest[0])
  }

  lemma NaturalReadsBack(n: nat, rest: Text)
    requires Ends(rest)
    ensures ParseNatural(Digits(n) + rest) == Parsed(n, rest)
    ensures Digit((Digits(n) + rest)[0])
  {
    DigitsReadBack(n, rest);
    if n == 0 {
      assert (Digits(n) + rest)[1..] == rest;
    }
  }

  lemma NumberReadsBack(n: int, rest: Text)
    requires Ends(rest)
    ensures ParseValue(Decimal(n) + rest) == Parsed(Number(n), rest)
  {
    if n < 0 {
      var text := Digits(-n) + rest;
      Associates([MINUS], Digits(-n), rest);
      assert ([MINUS] + text)[1..] == text;
      NaturalReadsBack(-n, rest);
    } else {
      NaturalReadsBack(n, rest);
    }
  }

  // ---- Values read back -------------------------------------------------------------------

  /** The value with the keys of every object in order. */
  function SortKeys(v: Json): Json {
    match v
    case Array(items) => Array(seq(|items|, i requires 0 <= i < |items| => SortKeys(items[i])))
    case Object(members) =>
      Object(Sort(seq(|members|, i requires 0 <= i < |members| => Member(members[i].key, SortKeys(members[i].value)))))
    case _ => v
  }

  /** JSON text with object members in the order they are in. */
  function Print(v: Json): Text
    decreases v, 1, 0
  {
    match v
    case Null => NULL
    case Bool(b) => if b then TRUE else FALSE
    case Number(n) => Decimal(n)
    case Str(s) => Quote(s)
    case Array(items) => [OPEN_BRACKET] + Join(PrintItems(v, items)) + [CLOSE_BRACKET]
    case Object(members) => [OPEN_BRACE] + Join(PrintMembers(v, members)) + [CLOSE_BRACE]
  }

  function PrintItems(v: Json, items: seq<Json>): seq<Text>
    requires v.Array? && forall i | i in items :: i in v.items
    decreases v, 0, |items|
  {
    if items == [] then []
    else
      assert items[0] in v.items;
      [Print(items[0])] + PrintItems(v, items[1..])
  }

  function PrintMembers(v: Json, members: seq<Member>): seq<Text>
    requires v.Object? && forall m | m in members :: m in v.members
    decreases v, 0, |members|
  {
    if members == [] then []
    else
      assert members[0] in v.members;
      [Quote(members[0].key) + [COLON] + Print(members[0].value)] + PrintMembers(v, members[1..])
  }

  lemma QuoteReadsBack(s: Text, rest: Text)
    ensures (Quote(s) + rest)[0] == QUOTE
    ensures ParseUnits((Quote(s) + rest)[1..]) == Parsed(s, rest)
  {
    assert (Quote(s) + rest)[1..] == Escape(s) + ([QUOTE] + rest);
    StringReadsBack(s, rest);
  }

  lemma LiteralReadsBack(word: Text, v: Json, rest: Text)
    requires word != []
    ensures ParseLiteral(word + rest, word, v) == Parsed(v, rest)
  {
    assert (word + rest)[|word|..] == rest;
  }

  /** What a printed value starts with is never a closing bracket. */
  lemma PrintStarts(v: Json)
    ensures Print(v) != [] && Print(v)[0] != CLOSE_BRACKET
  {
    if v.Number? {
      DigitsReadBack(if v.n < 0 then -v.n else v.n, []);
    }
  }

  lemma {:induction false} PrintReadsBack(v: Json, rest: Text)
    requires Ends(rest)
    ensures ParseValue(Print(v) + rest) == Parsed(v, rest)
    decreases v, 1, 0
  {
    match v {
      case Null => LiteralReadsBack(NULL, v, rest);
      case Bool(b) => LiteralReadsBack(if b then TRUE else FALSE, v, rest);
      case Number(n) => NumberReadsBack(n, rest);
      case Str(s) => QuoteReadsBack(s, rest);
      case Array(items) => ArrayReadsBack(v, rest);
      case Object(members) => ObjectReadsBack(v, rest);
    }
  }

  lemma {:induction false} ArrayReadsBack(v: Json, rest: Text)
    requires v.Array?
    ensures ParseValue(Print(v) + rest) == Parsed(v, rest)
    decreases v, 0, |v.items| + 1
  {
    var text := Print(v) + rest;
    if v.items == [] {
      assert Join(PrintItems(v, v.items)) == [];
      assert text == [OPEN_BRACKET, CLOSE_BRACKET] + rest;
      assert text[2..] == rest;
    } else {
      var body := ItemsText(v, v.items, rest);
      assert text == [OPEN_BRACKET] + body;
      assert text[1..] == body;
      ItemsReadBack(v, v.items, rest);
    }
  }

  lemma {:induction false} ObjectReadsBack(v: Json, rest: Text)
    requires v.Object?
    ensures ParseValue(Print(v) + rest) == Parsed(v, rest)
    decreases v, 0, |v.members| + 1
  {
    var text := Print(v) + rest;
    if v.members == [] {
      assert Join(PrintMembers(v, v.members)) == [];
      assert text == [OPEN_BRACE, CLOSE_BRACE] + rest;
      assert text[2..] == rest;
    } else {
      var body := MembersText(v, v.members, rest);
      assert text == [OPEN_BRACE] + body;
      assert text[1..] == body;
      MembersReadBack(v, v.members, rest);
    }
  }

  /** The items from `items` on, their closing bracket and the text after it. */
  function ItemsText(v: Json, items: seq<Json>, rest: Text): Text
    requires v.Array? && forall i | i in items :: i in v.items
  {
    Join(PrintItems(v, items)) + ([CLOSE_BRACKET] + rest)
  }

  function AfterItem(v: Json, items: seq<Json>, rest: Text): Text
    requires v.Array? && (forall i | i in items :: i in v.items) && items != []
  {
    if |items| == 1 then [CLOSE_BRACKET] + rest else [COMMA] + ItemsText(v, items[1..], rest)
  }

  lemma JoinSplits(parts: seq<Text>, tail: Text)
    requires parts != []
    ensures Join(parts) + tail == parts[0] + (if |parts| == 1 then tail else [COMMA] + (Join(parts[1..]) + tail))
  {
    if |parts| > 1 {
      Associates(parts[0] + [COMMA], Join(parts[1..]), tail);
      Associates(parts[0], [COMMA], Join(parts[1..]) + tail);
    }
  }

  lemma ItemsTextSplits(v: Json, items: seq<Json>, rest: Text)
    requires v.Array? && (forall i | i in items :: i in v.items) && items != []
    ensures items[0] in v.items && ItemsText(v, items, rest) == Print(items[0]) + AfterItem(v, items, rest)
  {
    assert items[0] in v.items;
    JoinSplits(PrintItems(v, items), [CLOSE_BRACKET] + rest);
    assert |items| > 1 ==> PrintItems(v, items[1..]) != [];
    assert PrintItems(v, items)[1..] == PrintItems(v, items[1..]);
  }

  lemma {:induction false} ItemsReadBack(v: Json, items: seq<Json>, rest: Text)
    requires v.Array? && (forall i | i in items :: i in v.items) && items != []
    ensures ParseItems(ItemsText(v, items, rest)) == Parsed(items, rest)
    ensures ItemsText(v, items, rest)[0] != CLOSE_BRACKET
    decreases v, 0, |items|
  {
    ItemsTextSplits(v, items, rest);
    var tail := AfterItem(v, items, rest);
    PrintStarts(items[0]);
    PrintReadsBack(items[0], tail);
    assert [items[0]] + items[1..] == items;
    if |items| == 1 {
      assert items == [items[0]];
      assert tail[1..] == rest;
    } else {
      assert tail[1..] == ItemsText(v, items[1..], rest);
      ItemsReadBack(v, items[1..], rest);
    }
  }

  function MembersText(v: Json, members: seq<Member>, rest: Text): Text
    requires v.Object? && forall m | m in members :: m in v.members
  {
    Join(PrintMembers(v, members)) + ([CLOSE_BRACE] + rest)
  }

  function AfterMember(v: Json, members: seq<Member>, rest: Text): Text
    requires v.Object? && (forall m | m in members :: m in v.members) && members != []
  {
    if |members| == 1 then [CLOSE_BRACE] + rest else [COMMA] + MembersText(v, members[1..], rest)
  }

  lemma MembersTextSplits(v: Json, members: seq<Member>, rest: Text)
    requires v.Object? && (forall m | m in members :: m in v.members) && members != []
    ensures members[0] in v.members
    ensures MembersText(v, members, rest)
         == Quote(members[0].key) + ([COLON] + (Print(members[0].value) + AfterMember(v, members, rest)))
  {
    assert members[0] in v.members;
    var quoted, value, after := Quote(members[0].key), Print(members[0].value), AfterMember(v, members, rest);
    JoinSplits(PrintMembers(v, members), [CLOSE_BRACE] + rest);
    assert |members| > 1 ==> PrintMembers(v, members[1..]) != [];
    assert PrintMembers(v, members)[1..] == PrintMembers(v, members[1..]);
    Associates(quoted + [COLON], value, after);
    Associates(quoted, [COLON], value + after);
  }

  lemma {:induction false} MembersReadBack(v: Json, members: seq<Member>, rest: Text)
    requires v.Object? && (forall m | m in members :: m in v.members) && members != []
    ensures ParseMembers(MembersText(v, members, rest)) == Parsed(members, rest)
    decreases v, 0, |members|
  {
    MembersTextSplits(v, members, rest);
    var key, value := members[0].key, members[0].value;
    var tail := AfterMember(v, members, rest);
    QuoteReadsBack(key, [COLON] + (Print(value) + tail));
    assert ([COLON] + (Print(value) + tail))[1..] == Print(value) + tail;
    PrintReadsBack(value, tail);
    assert [Member(key, value)] + members[1..] == members;
    if |members| == 1 {
      assert members == [Member(key, value)];
      assert tail[1..] == rest;
    } else {
      assert tail[1..] == MembersText(v, members[1..], rest);
      MembersReadBack(v, members[1..], rest);
    }
  }

  // ---- The canonical text is the printed value, keys in order -----------------------------

  /** The member with its value's keys in order. */
  function Image(m: Member): Member {
    Member(m.key, SortKeys(m.value))
  }

  function Images(members: seq<Member>): (r: seq<Member>)
    ensures |r| == |members|
  {
    seq(|members|, i requires 0 <= i < |members| => Image(members[i]))
  }

  lemma {:induction false} InsertImages(m: Member, sorted: seq<Member>)
    ensures Insert(Image(m), Images(sorted)) == Images(Insert(m, sorted))
  {
    if sorted == [] || Before(m.key, sorted[0].key) {
      ImagesCons(m, sorted);
    } else {
      InsertImages(m, sorted[1..]);
      assert Images(sorted)[1..] == Images(sorted[1..]);
      ImagesCons(sorted[0], Insert(m, sorted[1..]));
    }
  }

  lemma ImagesCons(m: Member, rest: seq<Member>)
    ensures Images([m] + rest) == [Image(m)] + Images(rest)
  {}

  lemma SortCons(m: Member, rest: seq<Member>)
    ensures Sort([m] + rest) == Insert(m, Sort(rest))
  {
    assert ([m] + rest)[1..] == rest;
  }

  lemma {:induction false} SortImages(members: seq<Member>)
    ensures Sort(Images(members)) == Images(Sort(members))
  {
    if members != [] {
      SortImages(members[1..]);
      InsertImages(members[0], Sort(members[1..]));
      ImagesCons(members[0], members[1..]);
      SortCons(Image(members[0]), Images(members[1..]));
      assert [members[0]] + members[1..] == members;
    }
  }

  lemma SortKeysSorts(v: Json)
    requires v.Object?
    ensures SortKeys(v) == Object(Sort(Images(v.members)))
  {
    assert Images(v.members)
        == seq(|v.members|, i requires 0 <= i < |v.members| => Member(v.members[i].key, SortKeys(v.members[i].value)));
  }

  lemma SortedMembers(v: Json)
    requires v.Object?
    ensures SortKeys(v) == Object(Images(Sort(v.members)))
    ensures forall m :: m in v.members <==> m in Sort(v.members)
  {
    SortKeysSorts(v);
    SortImages(v.members);
    SortKeepsMembers(v.members);
  }

  lemma {:induction false} CanonicalPrints(v: Json)
    ensures Canonical(v) == Print(SortKeys(v))
    decreases v, 1, 0
  {
    if v.Array? {
      assert SortKeys(v).items[0..] == SortKeys(v).items;
      assert v.items[0..] == v.items;
      ItemsPrint(v, 0);
    } else if v.Object? {
      SortedMembers(v);
      assert SortKeys(v).members[0..] == SortKeys(v).members;
      assert Sort(v.members)[0..] == Sort(v.members);
      MembersPrint(v, Sort(v.members), 0);
    }
  }

  lemma {:induction false} ItemsPrint(v: Json, k: nat)
    requires v.Array? && k <= |v.items|
    ensures CanonicalItems(v, v.items[k..]) == PrintItems(SortKeys(v), SortKeys(v).items[k..])
    decreases v, 0, |v.items| - k
  {
    if k < |v.items| {
      CanonicalPrints(v.items[k]);
      ItemsPrint(v, k + 1);
      assert v.items[k..][1..] == v.items[k + 1..];
      assert SortKeys(v).items[k..][1..] == SortKeys(v).items[k + 1..];
    }
  }

  lemma {:induction false} MembersPrint(v: Json, sorted: seq<Member>, k: nat)
    requires v.Object? && k <= |sorted| && SortKeys(v) == Object(Images(sorted))
    requires forall m :: m in v.members <==> m in sorted
    ensures CanonicalMembers(v, sorted[k..]) == PrintMembers(SortKeys(v), SortKeys(v).members[k..])
    decreases v, 0, |sorted| - k
  {
    if k < |sorted| {
      assert sorted[k] in v.members;
      CanonicalPrints(sorted[k].value);
      MembersPrint(v, sorted, k + 1);
      assert sorted[k..][1..] == sorted[k + 1..];
      assert SortKeys(v).members[k..][1..] == SortKeys(v).members[k + 1..];
    }
  }

  /** Canonical text is decodable: it parses to the value with its keys in order. */
  lemma CanonicalReadsBack(v: Json)
    ensures Parse(Canonical(v)) == Some(SortKeys(v))
  {
    CanonicalPrints(v);
    PrintReadsBack(SortKeys(v), []);
    assert Canonical(v) + [] == Canonical(v);
  }

  // ---- Equal texts are equal values -------------------------------------------------------

  function Keys(members: seq<Member>): set<Text> {
    set m | m in members :: m.key
  }

  /** Equal up to the order of object keys: the same keys, and the same value under each. */
  predicate Same(v: Json, w: Json) {
    match v
    case Array(items) =>
      w.Array? && |items| == |w.items| && forall i | 0 <= i < |items| :: Same(items[i], w.items[i])
    case Object(members) =>
      w.Object? && Keys(members) == Keys(w.members) &&
      forall m, n | m in members && n in w.members && m.key == n.key :: Same(m.value, n.value)
    case _ => v == w
  }

  predicate DistinctKeys(members: seq<Member>) {
    forall i, j | 0 <= i < j < |members| :: members[i].key != members[j].key
  }

  /** No object holds a key twice, at any depth. */
  predicate Proper(v: Json) {
    match v
    case Array(items) => forall i | i in items :: Proper(i)
    case Object(members) => DistinctKeys(members) && forall m | m in members :: Proper(m.value)
    case _ => true
  }

  predicate Ascending(members: seq<Member>) {
    forall i, j | 0 <= i < j < |members| :: Before(members[i].key, members[j].key)
  }

  lemma {:induction false} BeforeIsStrict(a: Text)
    ensures !Before(a, a)
  {
    if a != [] { BeforeIsStrict(a[1..]); }
  }

  lemma {:induction false} BeforeIsTransitive(a: Text, b: Text, c: Text)
    requires Before(a, b) && Before(b, c)
    ensures Before(a, c)
  {
    if a != [] && a[0] == b[0] == c[0] { BeforeIsTransitive(a[1..], b[1..], c[1..]); }
  }

  lemma {:induction false} BeforeIsTotal(a: Text, b: Text)
    ensures a == b || Before(a, b) || Before(b, a)
  {
    if a != [] && b != [] && a[0] == b[0] {
      BeforeIsTotal(a[1..], b[1..]);
      assert a == [a[0]] + a[1..] && b == [b[0]] + b[1..];
    }
  }

  lemma InsertKeepsMembers(m: Member, sorted: seq<Member>)
    ensures forall n :: n in Insert(m, sorted) <==> n == m || n in sorted
  {
    forall n ensures n in Insert(m, sorted) <==> n == m || n in sorted {
      assert n in Insert(m, sorted) <==> n in multiset(Insert(m, sorted));
    }
  }

  lemma {:induction false} InsertAscends(m: Member, sorted: seq<Member>)
    requires Ascending(sorted) && forall n | n in sorted :: n.key != m.key
    ensures Ascending(Insert(m, sorted))
  {
    if sorted == [] {
    } else if Before(m.key, sorted[0].key) {
      forall j | 1 <= j < |sorted| ensures Before(m.key, sorted[j].key) {
        BeforeIsTransitive(m.key, sorted[0].key, sorted[j].key);
      }
    } else {
      BeforeIsTotal(m.key, sorted[0].key);
      InsertAscends(m, sorted[1..]);
      InsertKeepsMembers(m, sorted[1..]);
      var tail := Insert(m, sorted[1..]);
      forall j | 0 <= j < |tail| ensures Before(sorted[0].key, tail[j].key) {
        assert tail[j] in tail;
      }
    }
  }

  lemma {:induction false} SortAscends(members: seq<Member>)
    requires DistinctKeys(members)
    ensures Ascending(Sort(members))
  {
    if members != [] {
      SortAscends(members[1..]);
      SortKeepsMembers(members[1..]);
      InsertAscends(members[0], Sort(members[1..]));
    }
  }

  lemma {:induction false} AscendingIsUnique(a: seq<Member>, b: seq<Member>)
    requires Ascending(a) && Ascending(b) && forall m :: m in a <==> m in b
    ensures a == b
  {
    assert a != [] ==> a[0] in b;
    assert b != [] ==> b[0] in a;
    if a != [] {
      BeforeIsStrict(a[0].key);
      if a[0] != b[0] { BeforeIsTransitive(a[0].key, b[0].key, a[0].key); }
      forall m ensures m in a[1..] <==> m in b[1..] {
        if m in a[1..] || m in b[1..] {
          assert m in a && m in b && Before(a[0].key, m.key);
        }
      }
      AscendingIsUnique(a[1..], b[1..]);
    }
  }

  lemma ImageIn(members: seq<Member>, n: Member)
    ensures n in Images(members) <==> exists m :: m in members && n == Image(m)
  {
    if n in Images(members) {
      var i :| 0 <= i < |members| && Images(members)[i] == n;
      assert members[i] in members;
    }
    if m :| m in members && n == Image(m) {
      var i :| 0 <= i < |members| && members[i] == m;
      assert Images(members)[i] == n;
    }
  }

  lemma SameMembersSortAlike(a: seq<Member>, b: seq<Member>)
    requires DistinctKeys(a) && DistinctKeys(b) && forall m :: m in a <==> m in b
    ensures Sort(a) == Sort(b)
  {
    SortAscends(a);
    SortAscends(b);
    SortKeepsMembers(a);
    SortKeepsMembers(b);
    AscendingIsUnique(Sort(a), Sort(b));
  }

  /** Objects whose members have the same images sort alike. */
  lemma SameImagesSortAlike(v: Json, w: Json)
    requires v.Object? && w.Object? && DistinctKeys(v.members) && DistinctKeys(w.members)
    requires forall n :: n in Images(v.members) <==> n in Images(w.members)
    ensures SortKeys(v) == SortKeys(w)
  {
    assert DistinctKeys(Images(v.members)) && DistinctKeys(Images(w.members));
    SameMembersSortAlike(Images(v.members), Images(w.members));
    SortKeysSorts(v);
    SortKeysSorts(w);
  }

  lemma {:induction false} SameSortsAlike(v: Json, w: Json)
    requires Proper(v) && Proper(w) && Same(v, w)
    ensures SortKeys(v) == SortKeys(w)
    decreases v, 1
  {
    if v.Array? {
      forall i | 0 <= i < |v.items| ensures SortKeys(v).items[i] == SortKeys(w).items[i] {
        SameSortsAlike(v.items[i], w.items[i]);
      }
    } else if v.Object? {
      forall n ensures n in Images(v.members) <==> n in Images(w.members) {
        ImageIn(v.members, n);
        ImageIn(w.members, n);
        if m :| m in v.members && n == Image(m) { LeftImage(v, w, m); }
        if o :| o in w.members && n == Image(o) { RightImage(v, w, o); }
      }
      SameImagesSortAlike(v, w);
    }
  }

  lemma {:induction false} LeftImage(v: Json, w: Json, m: Member)
    requires v.Object? && Proper(v) && Proper(w) && Same(v, w) && m in v.members
    ensures w.Object? && Image(m) in Images(w.members)
    decreases v, 0
  {
    assert m.key in Keys(w.members);
    var o :| o in w.members && o.key == m.key;
    SameSortsAlike(m.value, o.value);
    ImageIn(w.members, Image(m));
  }

  lemma {:induction false} RightImage(v: Json, w: Json, o: Member)
    requires v.Object? && Proper(v) && Proper(w) && Same(v, w) && w.Object? && o in w.members
    ensures Image(o) in Images(v.members)
    decreases v, 0
  {
    assert o.key in Keys(v.members);
    var m :| m in v.members && o.key == m.key;
    SameSortsAlike(m.value, o.value);
    ImageIn(v.members, Image(o));
  }

  /** Members of objects that sort alike have the same images. */
  lemma SortedAlikeShares(v: Json, w: Json, m: Member)
    requires v.Object? && w.Object? && SortKeys(v) == SortKeys(w) && m in v.members
    ensures exists n :: n in w.members && Image(n) == Image(m)
  {
    SortKeysSorts(v);
    SortKeysSorts(w);
    SortKeepsMembers(Images(v.members));
    SortKeepsMembers(Images(w.members));
    ImageIn(v.members, Image(m));
    ImageIn(w.members, Image(m));
    assert Image(m) in Images(w.members);
  }

  lemma {:induction false} SortedAlikeIsSame(v: Json, w: Json)
    requires Proper(v) && Proper(w) && SortKeys(v) == SortKeys(w)
    ensures Same(v, w)
    decreases v, 1
  {
    if v.Array? {
      forall i | 0 <= i < |v.items| ensures Same(v.items[i], w.items[i]) {
        assert SortKeys(v).items[i] == SortKeys(w).items[i];
        SortedAlikeIsSame(v.items[i], w.items[i]);
      }
    } else if v.Object? {
      forall m | m in v.members ensures m.key in Keys(w.members) {
        SortedAlikeShares(v, w, m);
        var o :| o in w.members && Image(o) == Image(m);
      }
      forall n | n in w.members ensures n.key in Keys(v.members) {
        SortedAlikeShares(w, v, n);
        var o :| o in v.members && Image(o) == Image(n);
      }
      forall m, n | m in v.members && n in w.members && m.key == n.key ensures Same(m.value, n.value) {
        SortedValuesAreSame(v, w, m, n);
      }
    }
  }

  lemma {:induction false} SortedValuesAreSame(v: Json, w: Json, m: Member, n: Member)
    requires v.Object? && w.Object? && Proper(v) && Proper(w) && SortKeys(v) == SortKeys(w)
    requires m in v.members && n in w.members && m.key == n.key
    ensures Same(m.value, n.value)
    decreases v, 0
  {
    SortedAlikeShares(v, w, m);
    var o :| o in w.members && Image(o) == Image(m);
    OneMemberPerKey(w.members, o, n);
    SortedAlikeIsSame(m.value, n.value);
  }

  lemma OneMemberPerKey(members: seq<Member>, m: Member, n: Member)
    requires DistinctKeys(members) && m in members && n in members && m.key == n.key
    ensures m == n
  {}

  /** Two values print alike exactly when they are equal up to the order of object keys. */
  lemma PrintAlikeIffSame(v: Json, w: Json)
    requires Proper(v) && Proper(w)
    ensures Canonical(v) == Canonical(w) <==> Same(v, w)
  {
    CanonicalReadsBack(v);
    CanonicalReadsBack(w);
    CanonicalPrints(v);
    CanonicalPrints(w);
    if Canonical(v) == Canonical(w) { SortedAlikeIsSame(v, w); }
    if Same(v, w) { SameSortsAlike(v, w); }
  }

  /** Equal digests are equal payloads. */
  lemma EqualDigestsAreSame(v: Json, w: Json)
    requires Proper(v) && Proper(w)
    ensures DigestOf(v) == DigestOf(w) <==> Same(v, w)
  {
    PrintAlikeIffSame(v, w);
  }
}
