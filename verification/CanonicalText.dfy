/**
 The canonical text itself. Reading back and being injective do not say which of many texts for a value is
 printed; this does: among the texts that parse to the value with its keys in order, and in which no lone
 surrogate stands unescaped, the canonical one is the shortest, and with lower-case escapes the only one
 of that length.
 */
module CanonicalText {
  import opened Wrappers
  import opened CanonicalJson

  // ---- Texts ------------------------------------------------------------------------------

  /** Every surrogate stands in a pair. */
  predicate Paired(t: Text) {
    t == [] ||
    if High(t[0]) then |t| >= 2 && Low(t[1]) && Paired(t[2..]) else !Low(t[0]) && Paired(t[1..])
  }

  predicate UpperHex(u: Unit) {
    0x41 <= u <= 0x46
  }

  /** The hex digits of its escapes are lower case; a backslash stands in an escape only. */
  predicate LowerCase(t: Text) {
    t == [] ||
    if t[0] != BACKSLASH then LowerCase(t[1..])
    else if |t| >= 6 && t[1] == 0x75
    then !UpperHex(t[2]) && !UpperHex(t[3]) && !UpperHex(t[4]) && !UpperHex(t[5]) && LowerCase(t[6..])
    else |t| >= 2 && LowerCase(t[2..])
  }

  /** Well formed, and of two such texts with the same meaning and length there is only one. */
  predicate Tidy(t: Text) {
    Paired(t) && LowerCase(t)
  }

  lemma TidyUnit(u: Unit, t: Text)
    requires u != BACKSLASH && !High(u) && !Low(u)
    ensures Paired([u] + t) <==> Paired(t)
    ensures LowerCase([u] + t) <==> LowerCase(t)
  {
    assert ([u] + t)[1..] == t;
  }

  /** Keys are ordered by their first different unit; of two keys one of which begins the other, the shorter is first. */
  lemma {:induction false} KeyOrder(a: Text, b: Text)
    ensures Before(a, b) <==>
            exists k :: 0 <= k <= |a| && k < |b| && a[..k] == b[..k] && (k == |a| || a[k] < b[k])
  {
    if b != [] && (a == [] || a[0] != b[0]) {
      assert a[..0] == b[..0];
      forall k | 0 < k <= |a| && k < |b| ensures a[..k] != b[..k] { assert a[..k][0] == a[0] && b[..k][0] == b[0]; }
    } else if b != [] {
      KeyOrder(a[1..], b[1..]);
      if k :| 0 <= k <= |a[1..]| && k < |b[1..]| && a[1..][..k] == b[1..][..k] && (k == |a[1..]| || a[1..][k] < b[1..][k]) {
        assert a[..k + 1] == [a[0]] + a[1..][..k] && b[..k + 1] == [b[0]] + b[1..][..k];
      }
      if k :| 0 <= k <= |a| && k < |b| && a[..k] == b[..k] && (k == |a| || a[k] < b[k]) {
        assert a[1..][..k - 1] == a[..k][1..] && b[1..][..k - 1] == b[..k][1..];
      }
    }
  }

  // ---- Strings are the shortest -----------------------------------------------------------

  /**
   What is left to show of a piece that was parsed: `rest` is as well formed as the whole, the piece is no
   shorter than `printed`, and a lower-case piece of that length is `printed`.
   */
  predicate NoShorter(t: Text, rest: Text, printed: Text) {
    Paired(rest) && |t| - |rest| >= |printed| && (LowerCase(t) ==> LowerCase(rest)) &&
    (LowerCase(t) && |t| - |rest| == |printed| ==> t == printed + rest)
  }

  lemma HexIsUnique(d: Unit)
    requires HexValue(d).Some? && !UpperHex(d)
    ensures 0 <= HexValue(d).value < 16 && d == HexDigit(HexValue(d).value)
  {}

  /** Six units with four hex digits: the escape of the unit they are the digits of. */
  lemma HexEscapeIsUnique(s: Text)
    requires |s| >= 5 && s[0] == 0x75 && Unescape(s).Parsed?
    requires !UpperHex(s[1]) && !UpperHex(s[2]) && !UpperHex(s[3]) && !UpperHex(s[4])
    ensures [BACKSLASH] + s == UnicodeEscape(Unescape(s).value) + s[5..]
  {
    HexIsUnique(s[1]);
    HexIsUnique(s[2]);
    HexIsUnique(s[3]);
    HexIsUnique(s[4]);
    var a, b, c, d := HexValue(s[1]).value, HexValue(s[2]).value, HexValue(s[3]).value, HexValue(s[4]).value;
    var u := a * 0x1000 + b * 0x100 + c * 16 + d;
    assert u / 16 == a * 0x100 + b * 16 + c && u / 0x100 == a * 16 + b && u / 0x1000 == a;
    assert u % 16 == d && u / 16 % 16 == c && u / 0x100 % 16 == b;
    assert s == [s[0], s[1], s[2], s[3], s[4]] + s[5..];
  }

  /** The escape read at a backslash, taken off the text. */
  lemma EscapeIsNoShorter(t: Text)
    requires t != [] && t[0] == BACKSLASH && Unescape(t[1..]).Parsed? && Paired(t)
    ensures var u, rest := Unescape(t[1..]).value, Unescape(t[1..]).rest;
            NoShorter(t, rest, EscapeUnit(u)) && (|t| - |rest| == 2 || |t| - |rest| == 6) &&
            (High(u) || Low(u) ==> |t| - |rest| == 6)
  {
    if t[1] == 0x75 { HexEscapeIsNoShorter(t); } else { ShortEscapeIsNoShorter(t); }
  }

  lemma ShortEscapeIsNoShorter(t: Text)
    requires |t| >= 2 && t[0] == BACKSLASH && t[1] != 0x75 && Unescape(t[1..]).Parsed? && Paired(t)
    ensures var u, rest := Unescape(t[1..]).value, Unescape(t[1..]).rest;
            NoShorter(t, rest, EscapeUnit(u)) && |t| - |rest| == 2 && !High(u) && !Low(u)
  {
    assert t[1..][1..] == t[2..] && Paired(t[1..]) && Paired(t[1..][1..]);
    assert t == [t[0], t[1]] + t[2..];
  }

  lemma HexEscapeIsNoShorter(t: Text)
    requires |t| >= 2 && t[0] == BACKSLASH && t[1] == 0x75 && Unescape(t[1..]).Parsed? && Paired(t)
    ensures var u, rest := Unescape(t[1..]).value, Unescape(t[1..]).rest;
            NoShorter(t, rest, EscapeUnit(u)) && |t| - |rest| == 6
  {
    var s := t[1..];
    assert t == [BACKSLASH] + s && s[5..] == t[6..] && Unescape(s).rest == t[6..];
    PairedAfterEscape(t);
    EscapeLengths(Unescape(s).value);
    if LowerCase(t) { HexEscapeIsUnique(s); }
  }

  lemma EscapeLengths(u: Unit)
    ensures |EscapeUnit(u)| <= 6 && (|EscapeUnit(u)| == 6 ==> EscapeUnit(u) == UnicodeEscape(u))
  {}

  lemma PairedAfterEscape(t: Text)
    requires |t| >= 6 && Paired(t) && t[0] == BACKSLASH && t[1] == 0x75
    requires HexValue(t[2]).Some? && HexValue(t[3]).Some? && HexValue(t[4]).Some? && HexValue(t[5]).Some?
    ensures Paired(t[6..])
  {
    assert t[1..][0] == t[1] && t[1..][1..] == t[2..] && t[2..][1..] == t[3..];
    assert t[3..][1..] == t[4..] && t[4..][1..] == t[5..] && t[5..][1..] == t[6..];
    assert Paired(t[1..]) && Paired(t[2..]) && Paired(t[3..]) && Paired(t[4..]) && Paired(t[5..]);
  }

  lemma JoinsPrinted(a: Text, b: Text, rest: Text)
    ensures (a + b) + rest == a + (b + rest)
  {}

  /** A string, up to its closing quote, is no shorter than the quoted form. */
  lemma {:induction false} StringIsNoShorter(t: Text)
    requires ParseUnits(t).Parsed? && Paired(t)
    ensures NoShorter(t, ParseUnits(t).rest, Escape(ParseUnits(t).value) + [QUOTE])
    decreases |t|
  {
    if t[0] == QUOTE {
      assert t == [QUOTE] + t[1..] && Escape([]) + [QUOTE] == [QUOTE];
    } else if t[0] == BACKSLASH {
      EscapedStringIsNoShorter(t);
    } else if High(t[0]) {
      PairIsNoShorter(t);
    } else {
      var s := ParseUnits(t).value;
      StringIsNoShorter(t[1..]);
      assert s == [t[0]] + ParseUnits(t[1..]).value;
      assert Escape(s) == [t[0]] + Escape(s[1..]);
      assert t == [t[0]] + t[1..];
      JoinsPrinted([t[0]], Escape(s[1..]) + [QUOTE], ParseUnits(t).rest);
      assert Escape(s) + [QUOTE] == [t[0]] + (Escape(s[1..]) + [QUOTE]);
    }
  }

  lemma {:induction false} PairIsNoShorter(t: Text)
    requires t != [] && High(t[0]) && ParseUnits(t).Parsed? && Paired(t)
    ensures NoShorter(t, ParseUnits(t).rest, Escape(ParseUnits(t).value) + [QUOTE])
    decreases |t|, 0
  {
    var tail := t[2..];
    assert t == [t[0], t[1]] + tail && t[1..] == [t[1]] + tail && t[1..][1..] == tail;
    PairIsRead(t[0], t[1], tail);
    StringIsNoShorter(tail);
    var s, rest := ParseUnits(t).value, ParseUnits(t).rest;
    assert s == [t[0]] + ([t[1]] + ParseUnits(tail).value) && s[2..] == ParseUnits(tail).value;
    assert Escape(s) + [QUOTE] == [t[0], t[1]] + (Escape(s[2..]) + [QUOTE]);
    JoinsPrinted([t[0], t[1]], Escape(s[2..]) + [QUOTE], rest);
    assert LowerCase(t) ==> LowerCase(t[1..]);
    assert LowerCase(t[1..]) ==> LowerCase(t[1..][1..]);
  }

  lemma {:induction false} EscapedStringIsNoShorter(t: Text)
    requires t != [] && t[0] == BACKSLASH && ParseUnits(t).Parsed? && Paired(t)
    ensures NoShorter(t, ParseUnits(t).rest, Escape(ParseUnits(t).value) + [QUOTE])
    decreases |t|, 0
  {
    var u, after := Unescape(t[1..]).value, Unescape(t[1..]).rest;
    EscapeIsNoShorter(t);
    StringIsNoShorter(after);
    var s, rest := ParseUnits(t).value, ParseUnits(t).rest;
    assert s == [u] + ParseUnits(after).value && s[1..] == ParseUnits(after).value;
    if |s| >= 2 && High(s[0]) && Low(s[1]) {
      SplitPairIsLonger(t, s, after, rest);
    } else {
      assert Escape(s) + [QUOTE] == EscapeUnit(u) + (Escape(s[1..]) + [QUOTE]);
      JoinsPrinted(EscapeUnit(u), Escape(s[1..]) + [QUOTE], rest);
    }
  }

  /** A pair whose first half is escaped is longer than the pair as it is. */
  lemma SplitPairIsLonger(t: Text, s: Text, after: Text, rest: Text)
    requires |s| >= 2 && High(s[0]) && Low(s[1]) && |t| - |after| == 6 && |rest| <= |after|
    requires NoShorter(t, after, EscapeUnit(s[0])) && NoShorter(after, rest, Escape(s[1..]) + [QUOTE])
    ensures NoShorter(t, rest, Escape(s) + [QUOTE])
  {
    assert Escape(s[1..]) == EscapeUnit(s[1]) + Escape(s[1..][1..]) && s[1..][1..] == s[2..];
    assert |Escape(s)| == 2 + |Escape(s[2..])|;
  }

  // ---- Numbers are the only ones ----------------------------------------------------------

  lemma {:induction false} DigitsAreRead(s: Text, acc: nat)
    requires acc > 0
    ensures Digits(acc) + s == Digits(ParseDigits(s, acc).value) + ParseDigits(s, acc).rest
    decreases |s|
  {
    if s != [] && Digit(s[0]) {
      var next := acc * 10 + (s[0] - ZERO);
      DigitsAreRead(s[1..], next);
      assert next / 10 == acc && next % 10 == s[0] - ZERO;
      assert Digits(next) == Digits(acc) + [s[0]];
      assert s == [s[0]] + s[1..];
      assert Digits(acc) + s == (Digits(acc) + [s[0]]) + s[1..];
    }
  }

  /** A natural number has one text. */
  lemma NaturalIsUnique(t: Text)
    requires ParseNatural(t).Parsed?
    ensures t == Digits(ParseNatural(t).value) + ParseNatural(t).rest
  {
    assert t == [t[0]] + t[1..];
    if t[0] != ZERO { DigitsAreRead(t[1..], t[0] - ZERO); }
  }

  predicate Ascii(t: Text) {
    forall i | 0 <= i < |t| :: t[i] < 0x80 && t[i] != BACKSLASH
  }

  lemma {:induction false} AsciiIsTidy(a: Text, rest: Text)
    requires Ascii(a)
    ensures (Paired(a + rest) <==> Paired(rest)) && (LowerCase(a + rest) <==> LowerCase(rest))
  {
    if a == [] {
      assert a + rest == rest;
    } else {
      assert (a + rest)[1..] == a[1..] + rest;
      AsciiIsTidy(a[1..], rest);
    }
  }

  lemma {:induction false} DigitsAreAscii(n: nat)
    ensures Ascii(Digits(n))
  {
    if n >= 10 { DigitsAreAscii(n / 10); }
  }

  lemma NumberIsNoShorter(t: Text)
    requires ParseValue(t).Parsed? && ParseValue(t).value.Number? && Paired(t)
    ensures NoShorter(t, ParseValue(t).rest, Decimal(ParseValue(t).value.n))
  {
    var n, rest := ParseValue(t).value.n, ParseValue(t).rest;
    if t[0] == MINUS {
      var m := ParseNatural(t[1..]).value;
      NaturalIsUnique(t[1..]);
      DigitsAreAscii(m);
      assert t == ([MINUS] + Digits(m)) + rest;
      AsciiIsTidy([MINUS] + Digits(m), rest);
    } else {
      NaturalIsUnique(t);
      DigitsAreAscii(n);
      AsciiIsTidy(Digits(n), rest);
    }
  }

  // ---- Values are the shortest ------------------------------------------------------------

  lemma WordIsNoShorter(t: Text, word: Text)
    requires word <= t && Ascii(word) && Paired(t)
    ensures NoShorter(t, t[|word|..], word)
  {
    assert t == word + t[|word|..];
    AsciiIsTidy(word, t[|word|..]);
  }

  /** One piece after another. */
  lemma PiecesAreNoShorter(t: Text, middle: Text, rest: Text, a: Text, b: Text)
    requires |rest| <= |middle| <= |t| && NoShorter(t, middle, a) && NoShorter(middle, rest, b)
    ensures NoShorter(t, rest, a + b)
  {
    JoinsPrinted(a, b, rest);
  }

  /** A value is no shorter than it is printed, with its members in the order they are in. */
  lemma {:induction false} ValueIsNoShorter(t: Text)
    requires ParseValue(t).Parsed? && Paired(t)
    ensures NoShorter(t, ParseValue(t).rest, Print(ParseValue(t).value))
    decreases |t|, 1
  {
    var v, rest := ParseValue(t).value, ParseValue(t).rest;
    if t[0] == QUOTE {
      WordIsNoShorter(t, [QUOTE]);
      StringIsNoShorter(t[1..]);
      PiecesAreNoShorter(t, t[1..], rest, [QUOTE], Escape(v.s) + [QUOTE]);
      assert [QUOTE] + (Escape(v.s) + [QUOTE]) == Quote(v.s);
    } else if t[0] == MINUS || Digit(t[0]) {
      NumberIsNoShorter(t);
    } else if t[0] == OPEN_BRACKET {
      ArrayIsNoShorter(t);
    } else if t[0] == OPEN_BRACE {
      ObjectIsNoShorter(t);
    } else {
      WordIsNoShorter(t, Print(v));
    }
  }

  lemma {:induction false} ArrayIsNoShorter(t: Text)
    requires t != [] && t[0] == OPEN_BRACKET && ParseValue(t).Parsed? && Paired(t)
    ensures NoShorter(t, ParseValue(t).rest, Print(ParseValue(t).value))
    decreases |t|, 0
  {
    var v := ParseValue(t).value;
    if |t| >= 2 && t[1] == CLOSE_BRACKET {
      assert Print(v) == [OPEN_BRACKET, CLOSE_BRACKET];
      WordIsNoShorter(t, [OPEN_BRACKET, CLOSE_BRACKET]);
    } else {
      WordIsNoShorter(t, [OPEN_BRACKET]);
      ItemsAreNoShorter(t[1..], v);
      PiecesAreNoShorter(t, t[1..], ParseValue(t).rest, [OPEN_BRACKET], Join(PrintItems(v, v.items)) + [CLOSE_BRACKET]);
      assert [OPEN_BRACKET] + (Join(PrintItems(v, v.items)) + [CLOSE_BRACKET]) == Print(v);
    }
  }

  lemma {:induction false} ObjectIsNoShorter(t: Text)
    requires t != [] && t[0] == OPEN_BRACE && ParseValue(t).Parsed? && Paired(t)
    ensures NoShorter(t, ParseValue(t).rest, Print(ParseValue(t).value))
    decreases |t|, 0
  {
    var v := ParseValue(t).value;
    if |t| >= 2 && t[1] == CLOSE_BRACE {
      assert Print(v) == [OPEN_BRACE, CLOSE_BRACE];
      WordIsNoShorter(t, [OPEN_BRACE, CLOSE_BRACE]);
    } else {
      WordIsNoShorter(t, [OPEN_BRACE]);
      MembersAreNoShorter(t[1..], v);
      PiecesAreNoShorter(t, t[1..], ParseValue(t).rest, [OPEN_BRACE], Join(PrintMembers(v, v.members)) + [CLOSE_BRACE]);
      assert [OPEN_BRACE] + (Join(PrintMembers(v, v.members)) + [CLOSE_BRACE]) == Print(v);
    }
  }

  lemma {:induction false} ItemsAreNoShorter(t: Text, v: Json)
    requires v.Array? && ParseItems(t).Parsed? && Paired(t) && forall i | i in ParseItems(t).value :: i in v.items
    ensures NoShorter(t, ParseItems(t).rest, Join(PrintItems(v, ParseItems(t).value)) + [CLOSE_BRACKET])
    decreases |t|, 2
  {
    var items, rest := ParseItems(t).value, ParseItems(t).rest;
    var after := ParseValue(t).rest;
    ValueIsNoShorter(t);
    assert items[0] == ParseValue(t).value;
    WordIsNoShorter(after, [after[0]]);
    if after[0] == CLOSE_BRACKET {
      assert PrintItems(v, items) == [Print(items[0])];
      PiecesAreNoShorter(t, after, rest, Print(items[0]), [CLOSE_BRACKET]);
    } else {
      assert items[1..] == ParseItems(after[1..]).value;
      assert forall i | i in items[1..] :: i in items;
      ItemsAreNoShorter(after[1..], v);
      var tail := Join(PrintItems(v, items[1..])) + [CLOSE_BRACKET];
      PiecesAreNoShorter(after, after[1..], rest, [COMMA], tail);
      PiecesAreNoShorter(t, after, rest, Print(items[0]), [COMMA] + tail);
      JoinSplits(PrintItems(v, items), [CLOSE_BRACKET]);
      assert PrintItems(v, items)[1..] == PrintItems(v, items[1..]);
    }
  }

  lemma {:induction false} MembersAreNoShorter(t: Text, v: Json)
    requires v.Object? && ParseMembers(t).Parsed? && Paired(t) && forall m | m in ParseMembers(t).value :: m in v.members
    ensures NoShorter(t, ParseMembers(t).rest, Join(PrintMembers(v, ParseMembers(t).value)) + [CLOSE_BRACE])
    decreases |t|, 2
  {
    var members, rest := ParseMembers(t).value, ParseMembers(t).rest;
    var after := MemberRest(t);
    MemberIsNoShorter(t);
    WordIsNoShorter(after, [after[0]]);
    var first := Quote(members[0].key) + [COLON] + Print(members[0].value);
    if after[0] == CLOSE_BRACE {
      assert PrintMembers(v, members) == [first];
      PiecesAreNoShorter(t, after, rest, first, [CLOSE_BRACE]);
    } else {
      assert members[1..] == ParseMembers(after[1..]).value;
      assert forall m | m in members[1..] :: m in members;
      MembersAreNoShorter(after[1..], v);
      var tail := Join(PrintMembers(v, members[1..])) + [CLOSE_BRACE];
      PiecesAreNoShorter(after, after[1..], rest, [COMMA], tail);
      PiecesAreNoShorter(t, after, rest, first, [COMMA] + tail);
      JoinSplits(PrintMembers(v, members), [CLOSE_BRACE]);
      assert PrintMembers(v, members)[1..] == PrintMembers(v, members[1..]);
    }
  }

  /** What follows the first member. */
  function MemberRest(t: Text): Text
    requires ParseMembers(t).Parsed?
  {
    ParseValue(ParseUnits(t[1..]).rest[1..]).rest
  }

  lemma {:induction false} MemberIsNoShorter(t: Text)
    requires ParseMembers(t).Parsed? && Paired(t)
    ensures var m := ParseMembers(t).value[0];
            NoShorter(t, MemberRest(t), Quote(m.key) + [COLON] + Print(m.value)) && |MemberRest(t)| < |t|
    decreases |t|, 0
  {
    var key, colon := ParseUnits(t[1..]).value, ParseUnits(t[1..]).rest;
    var v := ParseValue(colon[1..]).value;
    WordIsNoShorter(t, [QUOTE]);
    StringIsNoShorter(t[1..]);
    PiecesAreNoShorter(t, t[1..], colon, [QUOTE], Escape(key) + [QUOTE]);
    assert [QUOTE] + (Escape(key) + [QUOTE]) == Quote(key);
    WordIsNoShorter(colon, [COLON]);
    PiecesAreNoShorter(t, colon, colon[1..], Quote(key), [COLON]);
    ValueIsNoShorter(colon[1..]);
    PiecesAreNoShorter(t, colon[1..], MemberRest(t), Quote(key) + [COLON], Print(v));
  }

  // ---- The canonical text is tidy ---------------------------------------------------------

  lemma {:induction false} EscapeIsTidy(s: Text, rest: Text)
    ensures Tidy(Escape(s) + ([QUOTE] + rest)) <==> Tidy(rest)
  {
    if s == [] {
      assert [] + ([QUOTE] + rest) == [QUOTE] + rest;
      TidyUnit(QUOTE, rest);
    } else if |s| >= 2 && High(s[0]) && Low(s[1]) {
      var tail := Escape(s[2..]) + ([QUOTE] + rest);
      EscapeIsTidy(s[2..], rest);
      var t := [s[0], s[1]] + tail;
      assert Escape(s) + ([QUOTE] + rest) == t;
      PairIsTidy(s[0], s[1], tail);
    } else {
      var tail := Escape(s[1..]) + ([QUOTE] + rest);
      EscapeIsTidy(s[1..], rest);
      Associates(EscapeUnit(s[0]), Escape(s[1..]), [QUOTE] + rest);
      EscapedUnitIsTidy(s[0], tail);
    }
  }

  lemma PairIsTidy(u: Unit, w: Unit, tail: Text)
    requires High(u) && Low(w)
    ensures Tidy([u, w] + tail) <==> Tidy(tail)
  {
    var t := [u, w] + tail;
    assert t[2..] == tail && t[1..][1..] == tail;
    assert Paired(t) <==> Paired(t[2..]);
    assert LowerCase(t) <==> LowerCase(t[1..]);
    assert LowerCase(t[1..]) <==> LowerCase(t[1..][1..]);
  }

  lemma EscapedUnitIsTidy(u: Unit, tail: Text)
    ensures Tidy(EscapeUnit(u) + tail) <==> Tidy(tail)
  {
    var e := EscapeUnit(u);
    if |e| == 1 {
      TidyUnit(u, tail);
    } else if |e| == 2 {
      var t := e + tail;
      assert t[1..] == [e[1]] + tail && t[1..][1..] == tail && t[2..] == tail;
      assert Paired(t) <==> Paired(t[1..]);
      assert Paired(t[1..]) <==> Paired(t[1..][1..]);
      assert LowerCase(t) <==> LowerCase(t[2..]);
    } else {
      HexIsTidy(u, tail);
    }
  }

  lemma HexIsTidy(u: Unit, tail: Text)
    ensures Tidy(UnicodeEscape(u) + tail) <==> Tidy(tail)
  {
    var e := UnicodeEscape(u);
    var t := e + tail;
    assert t[6..] == tail && t[1..] == e[1..] + tail;
    AsciiIsTidy(e[1..], tail);
  }

  lemma {:induction false} PrintIsTidy(v: Json, rest: Text)
    ensures Tidy(Print(v) + rest) <==> Tidy(rest)
    decreases v, 1, 0
  {
    match v {
      case Null => AsciiIsTidy(NULL, rest);
      case Bool(b) => AsciiIsTidy(if b then TRUE else FALSE, rest);
      case Number(n) =>
        DigitsAreAscii(if n < 0 then -n else n);
        AsciiIsTidy(Decimal(n), rest);
      case Str(s) => QuoteIsTidy(s, rest);
      case Array(items) =>
        var body := Join(PrintItems(v, items)) + ([CLOSE_BRACKET] + rest);
        ItemsAreTidy(v, items, [CLOSE_BRACKET] + rest);
        TidyUnit(CLOSE_BRACKET, rest);
        TidyUnit(OPEN_BRACKET, body);
        assert Print(v) + rest == [OPEN_BRACKET] + body;
      case Object(members) =>
        var body := Join(PrintMembers(v, members)) + ([CLOSE_BRACE] + rest);
        MembersAreTidy(v, members, [CLOSE_BRACE] + rest);
        TidyUnit(CLOSE_BRACE, rest);
        TidyUnit(OPEN_BRACE, body);
        assert Print(v) + rest == [OPEN_BRACE] + body;
    }
  }

  lemma QuoteIsTidy(s: Text, rest: Text)
    ensures Tidy(Quote(s) + rest) <==> Tidy(rest)
  {
    EscapeIsTidy(s, rest);
    TidyUnit(QUOTE, Escape(s) + ([QUOTE] + rest));
    assert Quote(s) + rest == [QUOTE] + (Escape(s) + ([QUOTE] + rest));
  }

  lemma {:induction false} ItemsAreTidy(v: Json, items: seq<Json>, rest: Text)
    requires v.Array? && forall i | i in items :: i in v.items
    ensures Tidy(Join(PrintItems(v, items)) + rest) <==> Tidy(rest)
    decreases v, 0, |items|
  {
    if items == [] {
      assert Join(PrintItems(v, items)) + rest == rest;
    } else {
      assert items[0] in v.items;
      JoinSplits(PrintItems(v, items), rest);
      var tail := Join(PrintItems(v, items[1..])) + rest;
      if |items| == 1 {
        PrintIsTidy(items[0], rest);
      } else {
        PrintIsTidy(items[0], [COMMA] + tail);
        TidyUnit(COMMA, tail);
        ItemsAreTidy(v, items[1..], rest);
        assert PrintItems(v, items)[1..] == PrintItems(v, items[1..]);
      }
    }
  }

  lemma {:induction false} MembersAreTidy(v: Json, members: seq<Member>, rest: Text)
    requires v.Object? && forall m | m in members :: m in v.members
    ensures Tidy(Join(PrintMembers(v, members)) + rest) <==> Tidy(rest)
    decreases v, 0, |members|
  {
    if members == [] {
      assert Join(PrintMembers(v, members)) + rest == rest;
    } else {
      assert members[0] in v.members;
      JoinSplits(PrintMembers(v, members), rest);
      var tail := Join(PrintMembers(v, members[1..])) + rest;
      var after := if |members| == 1 then rest else [COMMA] + tail;
      var m := members[0];
      Associates(Quote(m.key) + [COLON], Print(m.value), after);
      Associates(Quote(m.key), [COLON], Print(m.value) + after);
      QuoteIsTidy(m.key, [COLON] + (Print(m.value) + after));
      TidyUnit(COLON, Print(m.value) + after);
      PrintIsTidy(m.value, after);
      if |members| > 1 {
        TidyUnit(COMMA, tail);
        MembersAreTidy(v, members[1..], rest);
        assert PrintMembers(v, members)[1..] == PrintMembers(v, members[1..]);
      }
    }
  }

  // ---- The theorems -----------------------------------------------------------------------

  /** A quoted string is the shortest of the texts that are read back as it, and the only tidy one so short. */
  lemma QuotedIsShortest(s: Text, t: Text)
    requires ParseUnits(t) == Parsed(s, []) && Paired(t)
    ensures |Escape(s)| + 1 <= |t| && (LowerCase(t) && |t| == |Escape(s)| + 1 ==> t == Escape(s) + [QUOTE])
    ensures ParseUnits(Escape(s) + [QUOTE]) == Parsed(s, []) && Tidy(Escape(s) + [QUOTE])
  {
    StringIsNoShorter(t);
    StringReadsBack(s, []);
    EscapeIsTidy(s, []);
    assert [QUOTE] + [] == [QUOTE];
    assert (Escape(s) + [QUOTE]) + [] == Escape(s) + [QUOTE];
  }

  /**
   The canonical text of a value is the one shortest among the texts without lone surrogates that parse to
   it, keys in order: no text is shorter, and only texts with upper-case escapes are as short.
   */
  lemma CanonicalIsShortest(v: Json, t: Text)
    requires Parse(t) == Some(SortKeys(v)) && Paired(t)
    ensures |Canonical(v)| <= |t| && (LowerCase(t) && |t| == |Canonical(v)| ==> t == Canonical(v))
    ensures Parse(Canonical(v)) == Some(SortKeys(v)) && Paired(Canonical(v)) && LowerCase(Canonical(v))
  {
    CanonicalReadsBack(v);
    CanonicalPrints(v);
    ValueIsNoShorter(t);
    PrintIsTidy(SortKeys(v), []);
    assert Print(SortKeys(v)) + [] == Print(SortKeys(v));
  }
}
