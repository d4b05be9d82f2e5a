/**
 How the catalog orders versions, and which one it takes for the latest. The order is compared with the
 precedence of semantic versioning, and the choice with the order in which the rows are listed: both
 differ for some versions the catalog schema admits, and the lemmas say for exactly which.
 */
module Versions {
  import opened Wrappers

  /** Digits as they are written: a number of zeros that add nothing, and the value. */
  datatype Number = Number(zeros: nat, value: nat)

  /** `tag` is what follows the first dash, if there is one, in UTF-16 code units. */
  datatype Version = Version(major: Number, minor: Number, patch: Number, tag: Option<seq<int>>)

  const DASH := 0x2D
  const DOT := 0x2E

  function UpTo(text: seq<int>, stop: int): seq<int> {
    if text == [] || text[0] == stop then [] else [text[0]] + UpTo(text[1..], stop)
  }

  /** The part that is compared: the tag up to any further dash. A tag may begin with one. */
  function Pre(v: Version): Option<seq<int>> {
    if v.tag.None? then None else Some(UpTo(v.tag.value, DASH))
  }

  predicate SameNumbers(a: Version, b: Version) {
    a.major.value == b.major.value && a.minor.value == b.minor.value && a.patch.value == b.patch.value
  }

  predicate SameRelease(a: Version, b: Version) {
    SameNumbers(a, b) && Pre(a) == Pre(b)
  }

  /** One has no tag, and the other's begins with a dash. */
  predicate Clash(a: Version, b: Version) {
    SameNumbers(a, b) && ((a.tag.None? && Dashed(b)) || (b.tag.None? && Dashed(a)))
  }

  predicate Dashed(v: Version) {
    v.tag.Some? && (v.tag.value == [] || v.tag.value[0] == DASH)
  }

  predicate Earlier(a: seq<int>, b: seq<int>) {
    b != [] && (a == [] || a[0] < b[0] || (a[0] == b[0] && Earlier(a[1..], b[1..])))
  }

  function CompareNumbers(a: Version, b: Version): int {
    if a.major.value != b.major.value then a.major.value - b.major.value
    else if a.minor.value != b.minor.value then a.minor.value - b.minor.value
    else a.patch.value - b.patch.value
  }

  function Compare(a: Version, b: Version): int {
    if CompareNumbers(a, b) != 0 then CompareNumbers(a, b) else ComparePre(Pre(a), Pre(b))
  }

  /** An empty part is taken for no part, but not by the comparison for equality that comes first. */
  function ComparePre(a: Option<seq<int>>, b: Option<seq<int>>): int {
    if a == b then 0
    else if a.UnwrapOr([]) == [] then 1
    else if b.UnwrapOr([]) == [] then -1
    else if Earlier(a.value, b.value) then -1 else 1
  }

  function Plain(n: nat): Number {
    Number(0, n)
  }

  lemma {:induction false} EarlierIsAnOrder(a: seq<int>, b: seq<int>, c: seq<int>)
    ensures !(Earlier(a, b) && Earlier(b, a))
    ensures a == b || Earlier(a, b) || Earlier(b, a)
    ensures Earlier(a, b) && Earlier(b, c) ==> Earlier(a, c)
  {
    if a != [] && b != [] {
      if c != [] {
        EarlierIsAnOrder(a[1..], b[1..], c[1..]);
      } else {
        EarlierIsAnOrder(a[1..], b[1..], []);
      }
      assert a == [a[0]] + a[1..] && b == [b[0]] + b[1..];
    }
  }

  /** Each compares as later than the other exactly if one has no tag and the other's begins with a dash. */
  lemma BothLaterIffClash(a: Version, b: Version)
    ensures Compare(a, b) > 0 && Compare(b, a) > 0 <==> Clash(a, b)
    ensures Compare(a, b) < 0 ==> Compare(b, a) > 0
  {
    if Pre(a).Some? && Pre(b).Some? { EarlierIsAnOrder(Pre(a).value, Pre(b).value, []); }
  }

  /** Such versions exist: `1.0.0` and `1.0.0--a`. */
  lemma DashedTagsClash()
    ensures var release, tagged := Version(Plain(1), Plain(0), Plain(0), None), Version(Plain(1), Plain(0), Plain(0), Some([DASH, 0x61]));
            Compare(release, tagged) > 0 && Compare(tagged, release) > 0
  {}

  /**
   Versions compare as equal exactly when their numbers agree and so do the first dash-separated parts
   of their tags, and but for clashes they are ordered.
   */
  lemma CompareIsAnOrder(a: Version, b: Version, c: Version)
    ensures Compare(a, b) == 0 <==> SameRelease(a, b)
    ensures !Clash(a, b) ==> (Compare(a, b) > 0 <==> Compare(b, a) < 0)
    ensures Compare(a, b) > 0 && Compare(b, c) > 0 ==> Compare(a, c) > 0 || (Clash(a, b) && SameRelease(a, c))
    ensures SameRelease(b, c) ==> Compare(a, b) == Compare(a, c) && Compare(b, a) == Compare(c, a)
  {
    BothLaterIffClash(a, b);
    if Pre(a).Some? && Pre(b).Some? && Pre(c).Some? {
      EarlierIsAnOrder(Pre(a).value, Pre(b).value, Pre(c).value);
      EarlierIsAnOrder(Pre(c).value, Pre(b).value, Pre(a).value);
      EarlierIsAnOrder(Pre(a).value, Pre(c).value, Pre(b).value);
    }
  }

  /** A version with a tag that does not begin with a dash sorts before the version without. */
  lemma PreReleasesComeFirst(release: Version, tagged: Version)
    requires SameNumbers(release, tagged) && release.tag.None? && tagged.tag.Some?
    ensures Compare(release, tagged) > 0
    ensures Compare(tagged, release) < 0 <==> !Dashed(tagged)
  {
    BothLaterIffClash(release, tagged);
  }

  /** Tags that differ only after a second dash tie: neither of two such versions is the later one. */
  lemma TruncatedTagsTie(a: Version, x: seq<int>, y: seq<int>)
    requires a.tag.Some? && DASH !in a.tag.value
    ensures Compare(a.(tag := Some(a.tag.value + [DASH] + x)), a.(tag := Some(a.tag.value + [DASH] + y))) == 0
  {
    PreStops(a.tag.value, x);
    PreStops(a.tag.value, y);
  }

  lemma {:induction false} PreStops(tag: seq<int>, rest: seq<int>)
    requires DASH !in tag
    ensures UpTo(tag + [DASH] + rest, DASH) == tag
  {
    if tag == [] {
      assert tag + [DASH] + rest == [DASH] + rest;
    } else {
      assert (tag + [DASH] + rest)[1..] == tag[1..] + [DASH] + rest;
      PreStops(tag[1..], rest);
    }
  }

  // ---- Semantic versioning ----------------------------------------------------------------

  predicate Digit(c: int) {
    0x30 <= c <= 0x39
  }

  predicate Alphanumeric(c: int) {
    Digit(c) || 0x41 <= c <= 0x5A || 0x61 <= c <= 0x7A
  }

  predicate Numeric(x: seq<int>) {
    forall c | c in x :: Digit(c)
  }

  /** An identifier of a semantic version's tag: not empty, and without leading zeros if it is a number. */
  predicate Identifier(x: seq<int>) {
    x != [] && (forall c | c in x :: Alphanumeric(c) || c == DASH) && (Numeric(x) && |x| > 1 ==> x[0] != 0x30)
  }

  function First(tag: seq<int>): seq<int> {
    UpTo(tag, DOT)
  }

  lemma {:induction false} UpToIsAPrefix(text: seq<int>, stop: int)
    ensures UpTo(text, stop) <= text && stop !in UpTo(text, stop)
    ensures |UpTo(text, stop)| < |text| ==> text[|UpTo(text, stop)|] == stop
  {
    if text != [] && text[0] != stop { UpToIsAPrefix(text[1..], stop); }
  }

  predicate More(tag: seq<int>) {
    |First(tag)| < |tag|
  }

  /** What follows the first dot. */
  function Rest(tag: seq<int>): (r: seq<int>)
    requires More(tag)
    ensures |r| < |tag|
  {
    tag[|First(tag)| + 1..]
  }

  lemma TagSplits(tag: seq<int>)
    ensures DOT !in First(tag)
    ensures tag == First(tag) + if More(tag) then [DOT] + Rest(tag) else []
  {
    UpToIsAPrefix(tag, DOT);
  }

  /** A tag that semantic versioning admits; the catalog schema admits more. */
  predicate Semantic(tag: seq<int>)
    decreases |tag|
  {
    Identifier(First(tag)) && (More(tag) ==> Semantic(Rest(tag)))
  }

  function Power(n: nat): nat {
    if n == 0 then 1 else 10 * Power(n - 1)
  }

  function Value(x: seq<int>): int {
    if x == [] then 0 else (x[0] - 0x30) * Power(|x| - 1) + Value(x[1..])
  }

  /** Numbers as numbers, numbers before words, words as text. */
  function CompareIdentifiers(x: seq<int>, y: seq<int>): int {
    if Numeric(x) && Numeric(y) then Value(x) - Value(y)
    else if Numeric(x) then -1
    else if Numeric(y) then 1
    else if x == y then 0
    else if Earlier(x, y) then -1 else 1
  }

  /** Identifier by identifier; of two tags one of which begins the other, the shorter is first. */
  function CompareTags(a: seq<int>, b: seq<int>): int
    decreases |a|
  {
    if First(a) != First(b) then CompareIdentifiers(First(a), First(b))
    else if !More(a) && !More(b) then 0
    else if !More(a) then -1
    else if !More(b) then 1
    else CompareTags(Rest(a), Rest(b))
  }

  /** Precedence as section 11 of Semantic Versioning 2.0.0 has it. */
  function Precedence(a: Version, b: Version): int {
    if CompareNumbers(a, b) != 0 then CompareNumbers(a, b)
    else
      match (a.tag, b.tag)
      case (None, None) => 0
      case (None, Some(_)) => 1
      case (Some(_), None) => -1
      case (Some(s), Some(t)) => CompareTags(s, t)
  }

  function Sign(n: int): int {
    if n < 0 then -1 else if n > 0 then 1 else 0
  }

  /** Of two different identifiers, `e` the earlier as text: a number behind a word, or behind more digits. */
  predicate Misplaced(e: seq<int>, l: seq<int>) {
    Numeric(l) && (!Numeric(e) || |e| > |l|)
  }

  /**
   The catalog and semantic versioning agree on tags first differing here: they differ before any dash, and
   what is earlier as text is not misplaced. At the very start an identifier that begins with a dash is
   taken for later, which only a number is before.
   */
  predicate OrderlyAt(x: seq<int>, y: seq<int>, start: bool) {
    var p, q := UpTo(x, DASH), UpTo(y, DASH);
    p != q &&
    if start && p == [] then Numeric(y)
    else if start && q == [] then Numeric(x)
    else if Earlier(p, q) then !Misplaced(x, y) else !Misplaced(y, x)
  }

  /** No dash stands before the first difference, and there the tags are orderly. */
  predicate Orderly(a: seq<int>, b: seq<int>, start: bool)
    decreases |a|
  {
    a == b ||
    if First(a) != First(b) then OrderlyAt(First(a), First(b), start)
    else DASH !in First(a) && (More(a) && More(b) ==> Orderly(Rest(a), Rest(b), false))
  }

  /** Versions whose order is the semantic one. */
  predicate InOrder(a: Version, b: Version) {
    CompareNumbers(a, b) != 0 ||
    match (a.tag, b.tag)
    case (None, None) => true
    case (None, Some(_)) => !Dashed(b)
    case (Some(_), None) => !Dashed(a)
    case (Some(s), Some(t)) => Orderly(s, t, true)
  }

  // Text.

  function CompareText(p: seq<int>, q: seq<int>): int {
    if p == q then 0 else if Earlier(p, q) then -1 else 1
  }

  lemma {:induction false} SharedStart(x: seq<int>, p: seq<int>, q: seq<int>)
    ensures Earlier(x + p, x + q) == Earlier(p, q) && (x + p == x + q <==> p == q)
  {
    if x == [] {
      assert x + p == p && x + q == q;
    } else {
      assert (x + p)[1..] == x[1..] + p && (x + q)[1..] == x[1..] + q;
      SharedStart(x[1..], p, q);
      assert x == [x[0]] + x[1..];
      if x + p == x + q { assert p == (x + p)[|x|..] && q == (x + q)[|x|..]; }
    }
  }

  predicate Trails(s: seq<int>) {
    s == [] || s[0] == DASH || s[0] == DOT
  }

  /** What follows two different words, a dash or a dot first, does not decide between them. */
  lemma {:induction false} TrailsDoNotDecide(p: seq<int>, q: seq<int>, s: seq<int>, t: seq<int>)
    requires p != q && Trails(s) && Trails(t)
    requires (forall c | c in p :: Alphanumeric(c)) && (forall c | c in q :: Alphanumeric(c))
    ensures p + s != q + t && Earlier(p + s, q + t) == Earlier(p, q)
  {
    if p == [] {
      assert p + s == s && (q + t)[0] == q[0] && q[0] in q;
    } else if q == [] {
      assert q + t == t && (p + s)[0] == p[0] && p[0] in p;
    } else {
      assert (p + s)[0] == p[0] && (q + t)[0] == q[0];
      assert (p + s)[1..] == p[1..] + s && (q + t)[1..] == q[1..] + t;
      assert p[0] in p && q[0] in q;
      if p[0] == q[0] {
        assert p == [p[0]] + p[1..] && q == [q[0]] + q[1..];
        TrailsDoNotDecide(p[1..], q[1..], s, t);
      }
    }
  }

  /** The compared part of an identifier or a tag, and what is cut from it or left after it. */
  lemma {:induction false} UpToJoins(x: seq<int>, rest: seq<int>)
    ensures UpTo(x + rest, DASH) == if DASH in x then UpTo(x, DASH) else x + UpTo(rest, DASH)
    ensures DASH !in x ==> UpTo(x, DASH) == x
  {
    if x == [] {
      assert x + rest == rest;
    } else {
      assert (x + rest)[1..] == x[1..] + rest && (x + rest)[0] == x[0];
      assert DASH in x <==> x[0] == DASH || DASH in x[1..];
      UpToJoins(x[1..], rest);
      if x[0] != DASH {
        assert UpTo(x + rest, DASH) == [x[0]] + UpTo(x[1..] + rest, DASH);
        assert [x[0]] + (x[1..] + UpTo(rest, DASH)) == x + UpTo(rest, DASH);
      }
    }
  }

  lemma PreOfTag(tag: seq<int>) returns (trail: seq<int>)
    requires Identifier(First(tag))
    ensures var x := First(tag);
            UpTo(tag, DASH) == UpTo(x, DASH) + trail && Trails(trail) && (forall c | c in UpTo(x, DASH) :: Alphanumeric(c))
    ensures DASH in First(tag) ==> trail == []
    ensures DASH !in First(tag) ==>
              UpTo(First(tag), DASH) == First(tag) && trail == if More(tag) then [DOT] + UpTo(Rest(tag), DASH) else []
  {
    var x := First(tag);
    var after := if More(tag) then [DOT] + Rest(tag) else [];
    TagSplits(tag);
    UpToJoins(x, after);
    UpToIsAPrefix(x, DASH);
    trail := if DASH in x then [] else UpTo(after, DASH);
    if More(tag) { assert after[1..] == Rest(tag); }
  }

  // Numbers.

  lemma {:induction false} ValueIsBounded(x: seq<int>)
    requires Numeric(x)
    ensures 0 <= Value(x) < Power(|x|)
    ensures x != [] && x[0] != 0x30 ==> Power(|x| - 1) <= Value(x)
  {
    if x != [] {
      ValueIsBounded(x[1..]);
      assert x[0] in x;
      DigitTimes(x[0] - 0x30, Power(|x| - 1));
    }
  }

  lemma DigitTimes(d: int, power: nat)
    requires 0 <= d <= 9
    ensures 0 <= d * power <= 9 * power && (d > 0 ==> power <= d * power)
  {
    assert (9 - d) * power >= 0;
    if d > 0 { assert (d - 1) * power >= 0; }
  }

  lemma {:induction false} PowersGrow(m: nat, n: nat)
    requires m <= n
    ensures Power(m) <= Power(n)
  {
    if m < n { PowersGrow(m, n - 1); }
  }

  lemma LongerIsMore(x: seq<int>, y: seq<int>)
    requires Identifier(x) && Identifier(y) && Numeric(x) && Numeric(y) && |x| < |y|
    ensures Value(x) < Value(y)
  {
    ValueIsBounded(x);
    ValueIsBounded(y);
    PowersGrow(|x|, |y| - 1);
  }

  lemma LeadingDigit(c: int, d: int, power: nat, r: int, s: int)
    requires c < d && r < power && 0 <= s
    ensures c * power + r < d * power + s
  {
    AtLeastOnce(d - c, power);
    assert d * power == c * power + (d - c) * power;
  }

  lemma {:induction false} AtLeastOnce(k: nat, power: nat)
    requires k > 0
    ensures power <= k * power
  {
    if k > 1 {
      AtLeastOnce(k - 1, power);
      assert k * power == (k - 1) * power + power;
    }
  }

  lemma {:induction false} EqualLengthAsText(x: seq<int>, y: seq<int>)
    requires Numeric(x) && Numeric(y) && |x| == |y|
    ensures Earlier(x, y) ==> Value(x) < Value(y)
    ensures Value(x) == Value(y) ==> x == y
  {
    if x != [] {
      EqualLengthAsText(x[1..], y[1..]);
      ValueIsBounded(x[1..]);
      ValueIsBounded(y[1..]);
      if x[0] < y[0] { LeadingDigit(x[0] - 0x30, y[0] - 0x30, Power(|x| - 1), Value(x[1..]), Value(y[1..])); }
      if y[0] < x[0] { LeadingDigit(y[0] - 0x30, x[0] - 0x30, Power(|x| - 1), Value(y[1..]), Value(x[1..])); }
      assert x == [x[0]] + x[1..] && y == [y[0]] + y[1..];
    }
  }

  lemma IdentifiersDiffer(x: seq<int>, y: seq<int>)
    requires Identifier(x) && Identifier(y)
    ensures CompareIdentifiers(x, y) == 0 <==> x == y
  {
    if Numeric(x) && Numeric(y) {
      if |x| < |y| { LongerIsMore(x, y); } else if |y| < |x| { LongerIsMore(y, x); } else { EqualLengthAsText(x, y); }
    }
  }

  lemma {:induction false} TagsDiffer(a: seq<int>, b: seq<int>)
    requires Semantic(a) && Semantic(b)
    ensures CompareTags(a, b) == 0 <==> a == b
    decreases |a|
  {
    IdentifiersDiffer(First(a), First(b));
    TagSplits(a);
    TagSplits(b);
    if First(a) == First(b) && More(a) && More(b) { TagsDiffer(Rest(a), Rest(b)); }
  }

  /** Where `x` is the earlier as text, it precedes `y` unless it is misplaced. */
  lemma EarlierPrecedes(x: seq<int>, y: seq<int>)
    requires Identifier(x) && Identifier(y) && UpTo(x, DASH) != UpTo(y, DASH) && Earlier(UpTo(x, DASH), UpTo(y, DASH))
    ensures Sign(CompareIdentifiers(x, y)) == if Misplaced(x, y) then 1 else -1
    ensures Sign(CompareIdentifiers(y, x)) == if Misplaced(x, y) then -1 else 1
  {
    var p, q := UpTo(x, DASH), UpTo(y, DASH);
    UpToIsAPrefix(x, DASH);
    UpToIsAPrefix(y, DASH);
    assert x == p + x[|p|..] && y == q + y[|q|..];
    TrailsDoNotDecide(p, q, x[|p|..], y[|q|..]);
    EarlierIsAnOrder(x, y, []);
    if Numeric(x) && Numeric(y) {
      if |x| < |y| { LongerIsMore(x, y); } else if |y| < |x| { LongerIsMore(y, x); } else { EqualLengthAsText(x, y); }
    }
  }

  /** Tags that first differ in their first identifiers. */
  lemma FirstDifference(a: seq<int>, b: seq<int>)
    requires Semantic(a) && Semantic(b) && First(a) != First(b)
    ensures Sign(CompareText(UpTo(a, DASH), UpTo(b, DASH))) == Sign(CompareTags(a, b)) <==> OrderlyAt(First(a), First(b), false)
  {
    var x, y := First(a), First(b);
    var p, q := UpTo(x, DASH), UpTo(y, DASH);
    var s := PreOfTag(a);
    var t := PreOfTag(b);
    IdentifiersDiffer(x, y);
    if p != q {
      TrailsDoNotDecide(p, q, s, t);
      EarlierIsAnOrder(p, q, []);
      if Earlier(p, q) { EarlierPrecedes(x, y); } else { EarlierPrecedes(y, x); }
    } else {
      SharedStart(p, s, t);
      SameUpToDash(x, y, s, t);
    }
  }

  /** Different identifiers alike up to a dash: the catalog ties them, or takes the longer for the earlier. */
  lemma SameUpToDash(x: seq<int>, y: seq<int>, s: seq<int>, t: seq<int>)
    requires Identifier(x) && Identifier(y) && x != y && UpTo(x, DASH) == UpTo(y, DASH)
    requires (DASH in x ==> s == []) && (DASH in y ==> t == [])
    ensures Sign(CompareText(s, t)) != Sign(CompareIdentifiers(x, y))
  {
    UpToIsAPrefix(x, DASH);
    UpToIsAPrefix(y, DASH);
    UpToJoins(x, []);
    UpToJoins(y, []);
    IdentifiersDiffer(x, y);
    var p := UpTo(x, DASH);
    if DASH !in y {
      assert y == p && x == p + x[|p|..] && y == p + [];
      SharedStart(p, [], x[|p|..]);
      SharedStart(p, x[|p|..], []);
    } else if DASH !in x {
      assert x == p && y == p + y[|p|..] && x == p + [];
      SharedStart(p, [], y[|p|..]);
      SharedStart(p, y[|p|..], []);
    }
  }

  /** Past the start, the compared text and the precedence agree exactly on orderly tags. */
  lemma {:induction false} TextAgrees(a: seq<int>, b: seq<int>)
    requires Semantic(a) && Semantic(b)
    ensures Sign(CompareText(UpTo(a, DASH), UpTo(b, DASH))) == Sign(CompareTags(a, b)) <==> Orderly(a, b, false)
    decreases |a|
  {
    TagsDiffer(a, b);
    if First(a) != First(b) {
      FirstDifference(a, b);
    } else {
      var s := PreOfTag(a);
      var t := PreOfTag(b);
      SharedStart(UpTo(First(a), DASH), s, t);
      TagSplits(a);
      TagSplits(b);
      if DASH !in First(a) && More(a) && More(b) {
        SharedStart([DOT], UpTo(Rest(a), DASH), UpTo(Rest(b), DASH));
        TagsDiffer(Rest(a), Rest(b));
        TextAgrees(Rest(a), Rest(b));
      }
    }
  }

  lemma TagsAgree(a: seq<int>, b: seq<int>)
    requires Semantic(a) && Semantic(b)
    ensures Sign(ComparePre(Some(UpTo(a, DASH)), Some(UpTo(b, DASH)))) == Sign(CompareTags(a, b)) <==> Orderly(a, b, true)
  {
    TagSplits(a);
    TagSplits(b);
    TagsDiffer(a, b);
    TextAgrees(a, b);
    StartsWithDash(a);
    StartsWithDash(b);
    var x, y := First(a), First(b);
    if UpTo(a, DASH) == [] || UpTo(b, DASH) == [] {
      IdentifiersDiffer(x, y);
      assert x[0] in x && y[0] in y;
    }
  }

  lemma StartsWithDash(tag: seq<int>)
    requires Identifier(First(tag))
    ensures tag != [] && tag[0] == First(tag)[0]
    ensures UpTo(tag, DASH) == [] <==> First(tag)[0] == DASH
    ensures UpTo(First(tag), DASH) == [] <==> First(tag)[0] == DASH
    ensures First(tag)[0] == DASH ==> DASH in First(tag) && !Numeric(First(tag))
  {
    TagSplits(tag);
  }

  lemma {:induction false} OrderlyBothWays(a: seq<int>, b: seq<int>, start: bool)
    requires Semantic(a) && Semantic(b)
    ensures Orderly(a, b, start) <==> Orderly(b, a, start)
    decreases |a|
  {
    EarlierIsAnOrder(UpTo(First(a), DASH), UpTo(First(b), DASH), []);
    if First(a) == First(b) && More(a) && More(b) { OrderlyBothWays(Rest(a), Rest(b), false); }
  }

  /**
   The catalog's order of two versions is the semantic one, both ways round, exactly if they are in order:
   their numbers differ; or a tag and no tag, and the tag does not begin with a dash; or two tags without a
   dash before the identifiers where they first differ, which differ before any dash too, and the one
   earlier as text is no word before a number and no longer number before a shorter one.
   */
  lemma SemanticExactlyInOrder(a: Version, b: Version)
    requires (a.tag.Some? ==> Semantic(a.tag.value)) && (b.tag.Some? ==> Semantic(b.tag.value))
    ensures Sign(Compare(a, b)) == Sign(Precedence(a, b)) && Sign(Compare(b, a)) == Sign(Precedence(b, a)) <==> InOrder(a, b)
  {
    if a.tag.Some? { StartsWithDash(a.tag.value); }
    if b.tag.Some? { StartsWithDash(b.tag.value); }
    if a.tag.Some? && b.tag.Some? {
      TagsAgree(a.tag.value, b.tag.value);
      TagsAgree(b.tag.value, a.tag.value);
      OrderlyBothWays(a.tag.value, b.tag.value, true);
    }
  }

  /** It is not without dashes either: `1.0.0-rc.10` comes before `1.0.0-rc.2`. */
  lemma NumbersCompareAsText()
    ensures var ten := Version(Plain(1), Plain(0), Plain(0), Some([0x72, 0x63, DOT, 0x31, 0x30]));
            var two := Version(Plain(1), Plain(0), Plain(0), Some([0x72, 0x63, DOT, 0x32]));
            Compare(ten, two) < 0 && Precedence(ten, two) > 0 && !Clash(ten, two)
  {
    var rc, ten, two: seq<int> := [0x72, 0x63, DOT], [0x31, 0x30], [0x32];
    assert rc + ten == [0x72, 0x63, DOT, 0x31, 0x30] && rc + two == [0x72, 0x63, DOT, 0x32];
    assert Earlier(ten, two);
    SharedStart(rc, ten, two);
    WithoutDash(rc + ten);
    WithoutDash(rc + two);
    CandidatePrecedence(rc, ten);
    CandidatePrecedence(rc, two);
    TenAndTwo(ten, two);
    assert CompareTags(ten, two) == CompareIdentifiers(ten, two);
    assert CompareTags(rc + ten, rc + two) == CompareTags(ten, two);
  }

  lemma WithoutDash(text: seq<int>)
    requires DASH !in text
    ensures UpTo(text, DASH) == text
  {
    UpToJoins(text, []);
  }

  lemma TenAndTwo(ten: seq<int>, two: seq<int>)
    requires ten == [0x31, 0x30] && two == [0x32]
    ensures First(ten) == ten && First(two) == two && CompareIdentifiers(ten, two) > 0
  {
    var zero: seq<int> := [0x30];
    assert ten[1..] == zero && zero[1..] == [] && two[1..] == [];
    assert UpTo([], DOT) == [] && UpTo(zero, DOT) == zero && Value(zero) == 0;
    assert Power(0) == 1 && Power(1) == 10;
    assert Value(ten) == 10 && Value(two) == 2;
  }

  lemma CandidatePrecedence(rc: seq<int>, x: seq<int>)
    requires rc == [0x72, 0x63, DOT]
    ensures First(rc + x) == [0x72, 0x63] && More(rc + x) && Rest(rc + x) == x
  {
    var tag := rc + x;
    assert tag[1..][1..] == [DOT] + x;
    assert UpTo(tag[1..][1..], DOT) == [];
    assert tag[1..][0] == 0x63 && UpTo(tag[1..], DOT) == [0x63];
  }

  // ---- The latest version -----------------------------------------------------------------

  datatype Listed = Listed(blueprint: string, version: Version)

  /** What one pass over the first `n` rows takes for the blueprint's latest version. */
  function Choice(rows: seq<Listed>, n: nat, id: string): Option<Version>
    requires n <= |rows|
  {
    if n == 0 then None
    else
      var before, r := Choice(rows, n - 1, id), rows[n - 1];
      if r.blueprint == id && (before.None? || Compare(r.version, before.value) > 0) then Some(r.version) else before
  }

  /** At row `k` the blueprint has this version, and up to row `n` none that is later follows. */
  ghost predicate LastAt(rows: seq<Listed>, n: nat, id: string, v: Version, k: nat) {
    k < n <= |rows| && rows[k] == Listed(id, v) &&
    forall j | k < j < n && rows[j].blueprint == id :: Compare(rows[j].version, v) <= 0
  }

  predicate OvertakenAt(rows: seq<Listed>, id: string, v: Version, m: nat) {
    m < |rows| && rows[m].blueprint == id && Clash(rows[m].version, v)
  }

  /** Any earlier row that ties with `v` was overtaken by a clashing one in between. */
  ghost predicate FirstOfItsTie(rows: seq<Listed>, id: string, v: Version, k: nat)
    requires k < |rows|
  {
    forall j | 0 <= j < k && rows[j].blueprint == id && SameRelease(rows[j].version, v) ::
      exists m :: j < m < k && OvertakenAt(rows, id, v, m)
  }

  /** No row compares as later than `v`, but for those that clash with it. */
  ghost predicate Topmost(rows: seq<Listed>, n: nat, id: string, v: Version) {
    forall j | 0 <= j < n <= |rows| && rows[j].blueprint == id ::
      Compare(v, rows[j].version) >= 0 && (Compare(rows[j].version, v) > 0 <==> Clash(v, rows[j].version))
  }

  ghost predicate ChosenAt(rows: seq<Listed>, n: nat, id: string, v: Version, k: nat) {
    Topmost(rows, n, id, v) && LastAt(rows, n, id, v, k) && FirstOfItsTie(rows, id, v, k)
  }

  /**
   One pass gives each blueprint one of its versions. No other compares as later, unless the two clash:
   then each is later than the other, and the one listed last is given. Of those that tie, it is the
   first listed, or the first after a clashing one.
   */
  method Latest(rows: seq<Listed>) returns (latest: map<string, Version>)
    ensures forall id :: id in latest <==> exists r :: r in rows && r.blueprint == id
    ensures forall id | id in latest :: exists k :: ChosenAt(rows, |rows|, id, latest[id], k)
    ensures forall id | id in latest :: Choice(rows, |rows|, id) == Some(latest[id])
  {
    latest := map[];
    for i := 0 to |rows|
      invariant forall id :: Choice(rows, i, id) == if id in latest then Some(latest[id]) else None
    {
      var r := rows[i];
      if r.blueprint !in latest || Compare(r.version, latest[r.blueprint]) > 0 {
        latest := latest[r.blueprint := r.version];
      }
    }
    forall id
      ensures id in latest <==> exists r :: r in rows && r.blueprint == id
      ensures id in latest ==> exists k :: ChosenAt(rows, |rows|, id, latest[id], k)
    {
      ChoiceIsChosen(rows, |rows|, id);
      if r :| r in rows && r.blueprint == id {
        var k :| 0 <= k < |rows| && rows[k] == r;
      }
    }
  }

  lemma {:induction false} ChoiceIsChosen(rows: seq<Listed>, n: nat, id: string)
    requires n <= |rows|
    ensures Choice(rows, n, id).None? <==> forall j | 0 <= j < n :: rows[j].blueprint != id
    ensures Choice(rows, n, id).Some? ==> exists k :: ChosenAt(rows, n, id, Choice(rows, n, id).value, k)
  {
    if n > 0 {
      ChoiceIsChosen(rows, n - 1, id);
      var before, r := Choice(rows, n - 1, id), rows[n - 1];
      if before.None? {
        if r.blueprint == id {
          CompareIsAnOrder(r.version, r.version, r.version);
          assert ChosenAt(rows, n, id, r.version, n - 1);
        }
      } else {
        var k :| ChosenAt(rows, n - 1, id, before.value, k);
        if r.blueprint == id && Compare(r.version, before.value) > 0 {
          OvertakingIsChosen(rows, n - 1, id, before.value, k);
          assert ChosenAt(rows, n, id, r.version, n - 1);
        } else {
          if r.blueprint == id { TopmostStays(rows, n - 1, before.value); }
          assert ChosenAt(rows, n, id, before.value, k);
        }
      }
    }
  }

  /** What overtakes the version chosen so far is topmost, and the first of its tie since. */
  lemma OvertakingIsChosen(rows: seq<Listed>, i: nat, id: string, before: Version, k: nat)
    requires i < |rows| && rows[i].blueprint == id && ChosenAt(rows, i, id, before, k)
    requires Compare(rows[i].version, before) > 0
    ensures ChosenAt(rows, i + 1, id, rows[i].version, i)
  {
    var v := rows[i].version;
    CompareIsAnOrder(v, v, v);
    forall j | 0 <= j < i && rows[j].blueprint == id
      ensures Compare(v, rows[j].version) >= 0 && (Compare(rows[j].version, v) > 0 <==> Clash(v, rows[j].version))
    {
      Overtakes(v, before, rows[j].version);
    }
    forall j | 0 <= j < i && rows[j].blueprint == id && SameRelease(rows[j].version, v)
      ensures exists m :: j < m < i && OvertakenAt(rows, id, v, m)
    {
      CompareIsAnOrder(before, v, rows[j].version);
      CompareIsAnOrder(before, rows[j].version, v);
      assert Compare(rows[j].version, before) > 0;
      assert OvertakenAt(rows, id, v, k);
    }
  }

  /** What is later than the top is later than, or ties or clashes with, everything below. */
  lemma Overtakes(v: Version, top: Version, other: Version)
    requires Compare(v, top) > 0
    requires Compare(top, other) >= 0 && (Compare(other, top) > 0 <==> Clash(top, other))
    ensures Compare(v, other) >= 0 && (Compare(other, v) > 0 <==> Clash(v, other))
  {
    BothLaterIffClash(v, other);
    BothLaterIffClash(other, v);
    CompareIsAnOrder(v, top, other);
    CompareIsAnOrder(v, other, top);
    CompareIsAnOrder(top, other, v);
  }

  lemma TopmostStays(rows: seq<Listed>, i: nat, top: Version)
    requires i < |rows| && Topmost(rows, i, rows[i].blueprint, top) && Compare(rows[i].version, top) <= 0
    ensures Topmost(rows, i + 1, rows[i].blueprint, top)
  {
    BothLaterIffClash(rows[i].version, top);
    CompareIsAnOrder(top, rows[i].version, top);
    CompareIsAnOrder(rows[i].version, top, top);
  }

  /** No two rows are chosen: these conditions say which one the pass gives. */
  lemma ChosenIsOne(rows: seq<Listed>, n: nat, id: string, v: Version, k: nat, w: Version, m: nat)
    requires ChosenAt(rows, n, id, v, k) && ChosenAt(rows, n, id, w, m)
    ensures k == m && v == w
  {
    if k < m {
      ChosenIsNotLater(rows, n, id, v, k, w, m);
    } else if m < k {
      ChosenIsNotLater(rows, n, id, w, m, v, k);
    }
  }

  lemma ChosenIsNotLater(rows: seq<Listed>, n: nat, id: string, v: Version, k: nat, w: Version, m: nat)
    requires ChosenAt(rows, n, id, v, k) && ChosenAt(rows, n, id, w, m)
    ensures m <= k
  {
    if k < m {
      TopsTieOrClash(rows, n, id, v, k, w, m);
      CompareIsAnOrder(w, v, w);
      assert false;
    }
  }

  lemma TopsTieOrClash(rows: seq<Listed>, n: nat, id: string, v: Version, k: nat, w: Version, m: nat)
    requires Topmost(rows, n, id, v) && Topmost(rows, n, id, w)
    requires k < n <= |rows| && m < n && rows[k] == Listed(id, v) && rows[m] == Listed(id, w)
    ensures SameRelease(v, w) || Clash(v, w)
  {
    BothLaterIffClash(v, w);
    CompareIsAnOrder(v, w, v);
  }

  // ---- Other orders of the rows -----------------------------------------------------------

  /** However the rows are ordered, the pass gives every blueprint the same version. */
  ghost predicate OrderFree(rows: seq<Listed>) {
    forall order: seq<Listed>, id | multiset(order) == multiset(rows) ::
      Choice(order, |order|, id) == Choice(rows, |rows|, id)
  }

  /** Two different versions of the blueprint that tie or clash, and none is later. */
  ghost predicate Rivals(rows: seq<Listed>, id: string, v: Version, w: Version) {
    Listed(id, v) in rows && Listed(id, w) in rows && v != w && Topmost(rows, |rows|, id, v) &&
    (SameRelease(v, w) || Clash(v, w))
  }

  lemma SameRows(rows: seq<Listed>, order: seq<Listed>)
    requires multiset(order) == multiset(rows)
    ensures forall r :: r in order <==> r in rows
  {
    forall r ensures r in order <==> r in rows {
      assert r in order <==> r in multiset(order);
      assert r in rows <==> r in multiset(rows);
    }
  }

  lemma TopmostInAnyOrder(rows: seq<Listed>, order: seq<Listed>, id: string, v: Version)
    requires (forall r :: r in order <==> r in rows) && Topmost(rows, |rows|, id, v)
    ensures Topmost(order, |order|, id, v)
  {
    forall j | 0 <= j < |order| && order[j].blueprint == id
      ensures Compare(v, order[j].version) >= 0 && (Compare(order[j].version, v) > 0 <==> Clash(v, order[j].version))
    {
      assert order[j] in order;
      var i :| 0 <= i < |rows| && rows[i] == order[j];
    }
  }

  /** A rival of a topmost version is topmost. */
  lemma RivalIsTopmost(rows: seq<Listed>, id: string, v: Version, w: Version)
    requires Topmost(rows, |rows|, id, v) && (SameRelease(v, w) || Clash(v, w))
    ensures Topmost(rows, |rows|, id, w)
  {
    forall j | 0 <= j < |rows| && rows[j].blueprint == id
      ensures Compare(w, rows[j].version) >= 0 && (Compare(rows[j].version, w) > 0 <==> Clash(w, rows[j].version))
    {
      var r := rows[j].version;
      if SameRelease(v, w) {
        CompareIsAnOrder(r, v, w);
        BothLaterIffClash(w, r);
        BothLaterIffClash(r, w);
        BothLaterIffClash(v, r);
      } else {
        BothLaterIffClash(w, v);
        Overtakes(w, v, r);
      }
    }
  }

  /** 0 for what clashes with `v`, 1 for `v` itself, 2 for all else. */
  function Group(r: Listed, id: string, v: Version): int {
    if r == Listed(id, v) then 1 else if r.blueprint == id && Clash(r.version, v) then 0 else 2
  }

  function Select(rows: seq<Listed>, id: string, v: Version, group: int): seq<Listed> {
    if rows == [] then []
    else (if Group(rows[0], id, v) == group then [rows[0]] else []) + Select(rows[1..], id, v, group)
  }

  lemma {:induction false} SelectionsAreAll(rows: seq<Listed>, id: string, v: Version)
    ensures multiset(Select(rows, id, v, 0)) + multiset(Select(rows, id, v, 1)) + multiset(Select(rows, id, v, 2)) == multiset(rows)
  {
    if rows != [] {
      SelectionsAreAll(rows[1..], id, v);
      assert rows == [rows[0]] + rows[1..];
    }
  }

  lemma {:induction false} SelectedAre(rows: seq<Listed>, id: string, v: Version, group: int)
    ensures forall r :: r in Select(rows, id, v, group) <==> r in rows && Group(r, id, v) == group
  {
    if rows != [] {
      SelectedAre(rows[1..], id, v, group);
      assert rows == [rows[0]] + rows[1..];
    }
  }

  /** With what clashes with it first, then itself, a topmost version is the one given. */
  lemma Favoured(rows: seq<Listed>, id: string, v: Version) returns (order: seq<Listed>)
    requires Listed(id, v) in rows && Topmost(rows, |rows|, id, v)
    ensures multiset(order) == multiset(rows) && Choice(order, |order|, id) == Some(v)
  {
    var clashing, itself, others := Select(rows, id, v, 0), Select(rows, id, v, 1), Select(rows, id, v, 2);
    SelectedAre(rows, id, v, 0);
    SelectedAre(rows, id, v, 1);
    SelectedAre(rows, id, v, 2);
    SelectionsAreAll(rows, id, v);
    order := clashing + itself + others;
    SameRows(rows, order);
    TopmostInAnyOrder(rows, order, id, v);
    var k := |clashing|;
    assert order[k] == itself[0] && itself[0] in itself;
    FavouredIsChosen(clashing, itself, others, order, id, v);
    ChoiceIsChosen(order, |order|, id);
    assert order[k].blueprint == id;
    var w := Choice(order, |order|, id).value;
    var m :| ChosenAt(order, |order|, id, w, m);
    ChosenIsOne(order, |order|, id, v, k, w, m);
  }

  lemma FavouredIsChosen(clashing: seq<Listed>, itself: seq<Listed>, others: seq<Listed>, order: seq<Listed>, id: string, v: Version)
    requires order == clashing + itself + others && Topmost(order, |order|, id, v) && itself != []
    requires (forall r | r in clashing :: Group(r, id, v) == 0) && (forall r | r in itself :: Group(r, id, v) == 1)
    requires forall r | r in others :: Group(r, id, v) == 2
    ensures ChosenAt(order, |order|, id, v, |clashing|)
  {
    var k := |clashing|;
    CompareIsAnOrder(v, v, v);
    assert order[k] == itself[0] && itself[0] in itself;
    forall j | k < j < |order| && order[j].blueprint == id ensures Compare(order[j].version, v) <= 0 {
      if j < k + |itself| { assert order[j] == itself[j - k] && itself[j - k] in itself; }
      else { assert order[j] == others[j - k - |itself|] && others[j - k - |itself|] in others; }
    }
    forall j | 0 <= j < k ensures !SameRelease(order[j].version, v) {
      assert order[j] == clashing[j] && clashing[j] in clashing;
      BothLaterIffClash(order[j].version, v);
      CompareIsAnOrder(order[j].version, v, v);
    }
  }

  /**
   The latest versions do not depend on the order of the rows exactly if no blueprint has rivals: two
   different versions, neither earlier than any other, that tie or clash.
   */
  lemma LatestIsOne(rows: seq<Listed>)
    ensures OrderFree(rows) <==> forall id, v, w :: !Rivals(rows, id, v, w)
  {
    if id, v, w :| Rivals(rows, id, v, w) {
      RivalsDepend(rows, id, v, w);
    } else {
      forall order: seq<Listed>, id | multiset(order) == multiset(rows)
        ensures Choice(order, |order|, id) == Choice(rows, |rows|, id)
      {
        OneChoice(rows, order, id);
      }
    }
  }

  lemma RivalsDepend(rows: seq<Listed>, id: string, v: Version, w: Version)
    requires Rivals(rows, id, v, w)
    ensures !OrderFree(rows)
  {
    RivalIsTopmost(rows, id, v, w);
    var one := Favoured(rows, id, v);
    var other := Favoured(rows, id, w);
    var order := if Choice(rows, |rows|, id) == Some(v) then other else one;
    assert multiset(order) == multiset(rows) && Choice(order, |order|, id) != Choice(rows, |rows|, id);
  }

  lemma OneChoice(rows: seq<Listed>, order: seq<Listed>, id: string)
    requires multiset(order) == multiset(rows) && forall v, w :: !Rivals(rows, id, v, w)
    ensures Choice(order, |order|, id) == Choice(rows, |rows|, id)
  {
    SameRows(rows, order);
    ListedIsChosen(rows, order, id);
    ListedIsChosen(order, rows, id);
    if Choice(rows, |rows|, id).Some? { ChoicesAreRivals(rows, order, id); }
  }

  lemma ListedIsChosen(rows: seq<Listed>, order: seq<Listed>, id: string)
    requires forall r :: r in order <==> r in rows
    ensures Choice(rows, |rows|, id).Some? ==> Choice(order, |order|, id).Some?
  {
    ChoiceIsChosen(rows, |rows|, id);
    ChoiceIsChosen(order, |order|, id);
    if Choice(rows, |rows|, id).Some? {
      var k :| 0 <= k < |rows| && rows[k].blueprint == id;
      assert rows[k] in order;
    }
  }

  lemma ChoicesAreRivals(rows: seq<Listed>, order: seq<Listed>, id: string)
    requires (forall r :: r in order <==> r in rows) && Choice(rows, |rows|, id).Some? && Choice(order, |order|, id).Some?
    ensures var v, w := Choice(rows, |rows|, id).value, Choice(order, |order|, id).value; v == w || Rivals(rows, id, v, w)
  {
    ChoiceIsChosen(rows, |rows|, id);
    ChoiceIsChosen(order, |order|, id);
    var v, w := Choice(rows, |rows|, id).value, Choice(order, |order|, id).value;
    var k :| ChosenAt(rows, |rows|, id, v, k);
    var m :| ChosenAt(order, |order|, id, w, m);
    ChosenAreRivals(rows, order, id, v, k, w, m);
  }

  lemma ChosenAreRivals(rows: seq<Listed>, order: seq<Listed>, id: string, v: Version, k: nat, w: Version, m: nat)
    requires (forall r :: r in order <==> r in rows) && ChosenAt(rows, |rows|, id, v, k) && ChosenAt(order, |order|, id, w, m)
    ensures v == w || Rivals(rows, id, v, w)
  {
    assert rows[k] in order && order[m] in rows;
    var i :| 0 <= i < |order| && order[i] == rows[k];
    TopmostInAnyOrder(rows, order, id, v);
    TopsTieOrClash(order, |order|, id, v, i, w, m);
  }

  /** Ties do: of `1.0.0-a-b` and `1.0.0-a-c`, which clash with nothing, whichever is listed first is the latest. */
  lemma TiesDependOnTheOrder(id: string)
    ensures var b := Version(Plain(1), Plain(0), Plain(0), Some([0x61, DASH, 0x62]));
            var c := b.(tag := Some([0x61, DASH, 0x63]));
            !Clash(b, c) && Choice([Listed(id, b), Listed(id, c)], 2, id) == Some(b) &&
            Choice([Listed(id, c), Listed(id, b)], 2, id) == Some(c)
  {
    var b := Version(Plain(1), Plain(0), Plain(0), Some([0x61, DASH, 0x62]));
    var c := b.(tag := Some([0x61, DASH, 0x63]));
    TruncatedTagsTie(b.(tag := Some([0x61])), [0x62], [0x63]);
    TruncatedTagsTie(b.(tag := Some([0x61])), [0x63], [0x62]);
    assert [0x61] + [DASH] + [0x62] == b.tag.value && [0x61] + [DASH] + [0x63] == c.tag.value;
    FirstOfTwo(id, b, c);
    FirstOfTwo(id, c, b);
  }

  lemma FirstOfTwo(id: string, a: Version, b: Version)
    requires Compare(b, a) <= 0
    ensures Choice([Listed(id, a), Listed(id, b)], 2, id) == Some(a)
  {
    var rows := [Listed(id, a), Listed(id, b)];
    assert Choice(rows, 0, id) == None && Choice(rows, 1, id) == Some(a);
  }
}
