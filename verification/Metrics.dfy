/**
 Metrics: histogram points whose cumulative buckets are counted in place, families capped at a number
 of series, and the non-cumulative form an OTLP exporter sends. `seen` remembers, for the proofs only,
 what a point was told.
 */
module Metrics {
  import opened Wrappers

  const MAX_SERIES := 500
  const MS_BUCKETS: seq<real> := [
    5.0, 10.0, 25.0, 50.0, 100.0, 250.0, 500.0, 1000.0, 2500.0, 5000.0, 10000.0, 30000.0, 60000.0, 300000.0, 1800000.0]
  const BYTE_BUCKETS: seq<real> := [
    1024.0, 16384.0, 65536.0, 262144.0, 1048576.0, 4194304.0, 16777216.0, 67108864.0]

  predicate Increasing(bounds: seq<real>) {
    forall i, j | 0 <= i < j < |bounds| :: bounds[i] < bounds[j]
  }

  datatype Unit = Milliseconds | Bytes

  /** A histogram's bounds go by its unit. */
  function Bounds(unit: Unit): (bounds: seq<real>)
    ensures Increasing(bounds)
  {
    match unit case Milliseconds => MS_BUCKETS case Bytes => BYTE_BUCKETS
  }

  // ---- Series keys ------------------------------------------------------------------------

  predicate First(c: char) {
    'A' <= c <= 'Z' || 'a' <= c <= 'z' || '0' <= c <= '9'
  }

  predicate Rest(c: char) {
    First(c) || c in {'.', '_', ':', '/', '-'}
  }

  predicate LabelValue(s: string) {
    1 <= |s| <= 64 && First(s[0]) && forall i | 1 <= i < |s| :: Rest(s[i])
  }

  function Clean(value: Option<string>): string {
    var text := value.UnwrapOr("none");
    if LabelValue(text) then text else "other"
  }

  /** A missing label is "none", one that is not plain and short is "other", any other is kept. */
  lemma LabelsAreCleaned(text: string)
    ensures Clean(None) == "none"
    ensures Clean(Some(text)) == text || Clean(Some(text)) == "other"
    ensures 1 <= |text| <= 64 && First(text[0]) && (forall i | 1 <= i < |text| :: Rest(text[i])) ==> Clean(Some(text)) == text
    ensures |text| == 0 || |text| > 64 || !First(text[0]) || (exists i | 1 <= i < |text| :: !Rest(text[i])) ==> Clean(Some(text)) == "other"
  {}

  function CleanAll(values: seq<Option<string>>): (r: seq<string>)
    ensures |r| == |values|
  {
    seq(|values|, i requires 0 <= i < |values| => Clean(values[i]))
  }

  /** The label values, joined by a character none of them can hold. */
  function Key(values: seq<string>): string {
    if values == [] then "" else if |values| == 1 then values[0] else values[0] + ['\0'] + Key(values[1..])
  }

  lemma CleanIsALabel(value: Option<string>)
    ensures LabelValue(Clean(value)) && '\0' !in Clean(value)
  {
    assert LabelValue("other");
    var s := Clean(value);
    forall i | 0 <= i < |s| ensures s[i] != '\0' { assert First(s[i]) || Rest(s[i]); }
  }

  function UntilNul(s: string): string {
    if s == "" || s[0] == '\0' then "" else [s[0]] + UntilNul(s[1..])
  }

  lemma {:induction false} UntilNulStops(a: string, x: string)
    requires '\0' !in a
    ensures UntilNul(a + ['\0'] + x) == a
  {
    if a == "" {
      assert a + ['\0'] + x == ['\0'] + x;
    } else {
      assert (a + ['\0'] + x)[1..] == a[1..] + ['\0'] + x;
      UntilNulStops(a[1..], x);
    }
  }

  lemma SplitAtNul(a: string, b: string, x: string, y: string)
    requires '\0' !in a && '\0' !in b && a + ['\0'] + x == b + ['\0'] + y
    ensures a == b && x == y
  {
    UntilNulStops(a, x);
    UntilNulStops(b, y);
    assert (a + ['\0'] + x)[|a| + 1..] == x && (b + ['\0'] + y)[|b| + 1..] == y;
  }

  /** Equal series keys are equal labels. */
  lemma {:induction false} KeysAreInjective(a: seq<string>, b: seq<string>)
    requires |a| == |b| && (forall s | s in a :: '\0' !in s) && (forall s | s in b :: '\0' !in s)
    ensures Key(a) == Key(b) <==> a == b
  {
    if |a| >= 2 && Key(a) == Key(b) {
      SplitAtNul(a[0], b[0], Key(a[1..]), Key(b[1..]));
      KeysAreInjective(a[1..], b[1..]);
      assert a == [a[0]] + a[1..] && b == [b[0]] + b[1..];
    }
  }

  /** Two sets of label values share a series exactly when they are cleaned to the same labels. */
  lemma SeriesAreLabels(a: seq<Option<string>>, b: seq<Option<string>>)
    requires |a| == |b|
    ensures Key(CleanAll(a)) == Key(CleanAll(b)) <==> CleanAll(a) == CleanAll(b)
  {
    forall s | s in CleanAll(a) ensures '\0' !in s {
      var i :| 0 <= i < |a| && CleanAll(a)[i] == s;
      CleanIsALabel(a[i]);
    }
    forall s | s in CleanAll(b) ensures '\0' !in s {
      var i :| 0 <= i < |b| && CleanAll(b)[i] == s;
      CleanIsALabel(b[i]);
    }
    KeysAreInjective(CleanAll(a), CleanAll(b));
  }

  // ---- Observations -----------------------------------------------------------------------

  function AtMost(seen: seq<real>, bound: real): nat {
    if seen == [] then 0
    else AtMost(seen[..|seen| - 1], bound) + if seen[|seen| - 1] <= bound then 1 else 0
  }

  function Sum(seen: seq<real>): real {
    if seen == [] then 0.0 else Sum(seen[..|seen| - 1]) + seen[|seen| - 1]
  }

  /** One series of a histogram. */
  class Point {
    const key: string
    const labels: seq<string>
    const bounds: seq<real>
    var value: real
    var count: nat
    var buckets: seq<nat>
    ghost var seen: seq<real>

    /** Each bucket is the number of observations at or below its bound. */
    ghost predicate Valid()
      reads this
    {
      |buckets| == |bounds| && count == |seen| && value == Sum(seen) &&
      forall i | 0 <= i < |bounds| :: buckets[i] == AtMost(seen, bounds[i])
    }

    constructor (key: string, labels: seq<string>, bounds: seq<real>)
      ensures Valid() && seen == [] && this.key == key && this.labels == labels && this.bounds == bounds
    {
      this.key, this.labels, this.bounds := key, labels, bounds;
      value, count, seen := 0.0, 0, [];
      buckets := seq(|bounds|, _ => 0);
    }

    method Observe(v: real)
      requires Valid()
      modifies this
      ensures Valid() && seen == old(seen) + [v]
      ensures forall i | 0 <= i < |bounds| :: old(buckets)[i] <= buckets[i]
    {
      value := value + v;
      count := count + 1;
      seen := seen + [v];
      assert seen[..|seen| - 1] == old(seen);
      for index := 0 to |bounds|
        modifies this`buckets
        invariant |buckets| == |bounds|
        invariant forall i | 0 <= i < |bounds| ::
          buckets[i] == if i < index then AtMost(seen, bounds[i]) else AtMost(old(seen), bounds[i])
        invariant forall i | 0 <= i < |bounds| :: old(buckets)[i] <= buckets[i]
      {
        if v <= bounds[index] { buckets := buckets[index := buckets[index] + 1]; }
      }
    }
  }

  /** The series of one metric, by key; never more than the cap. */
  class Family {
    const labels: seq<string>
    const bounds: seq<real>
    var points: map<string, Point>

    ghost predicate Owns(k: string)
      requires k in points
      reads this, points.Values
    {
      points[k].Valid() && points[k].key == k && points[k].bounds == bounds
    }

    ghost predicate Valid()
      reads this, points.Values
    {
      Increasing(bounds) && |points| <= MAX_SERIES && forall k | k in points :: Owns(k)
    }

    constructor (labels: seq<string>, unit: Unit)
      ensures Valid() && points == map[] && this.labels == labels && bounds == Bounds(unit)
    {
      this.labels, bounds := labels, Bounds(unit);
      points := map[];
    }

    /** The series under the key, made if there is room; a combination too many is dropped. */
    method PointFor(key: string, clean: seq<string>) returns (found: Point?)
      requires Valid()
      modifies this`points
      ensures Valid()
      ensures found == null <==> key !in old(points) && |old(points)| >= MAX_SERIES
      ensures points == if found == null then old(points) else old(points)[key := found]
      ensures key in old(points) ==> found == old(points)[key]
      ensures found != null && key !in old(points) ==> fresh(found) && found.seen == [] && found.labels == clean
    {
      if key in points {
        found := points[key];
        assert points == points[key := found];
        return;
      }
      if |points| >= MAX_SERIES { return null; }
      found := new Point(key, clean, bounds);
      points := points[key := found];
    }

    /** What the series under `k` has been told. */
    ghost function Told(k: string): seq<real>
      reads this, points.Values
    {
      if k in points then points[k].seen else []
    }

    /** An observation is kept by its own series and changes no other. */
    method Observe(values: seq<Option<string>>, v: real) returns (kept: bool)
      requires Valid() && |values| == |labels|
      modifies this`points, points.Values
      ensures Valid()
      ensures kept == (v >= 0.0 && (Key(CleanAll(values)) in old(points) || |old(points)| < 500))
      ensures kept ==> Told(Key(CleanAll(values))) == old(Told(Key(CleanAll(values)))) + [v]
      ensures forall k | !kept || k != Key(CleanAll(values)) :: Told(k) == old(Told(k))
      ensures old(points.Keys) <= points.Keys
    {
      kept := ObserveSeries(Key(CleanAll(values)), CleanAll(values), v);
    }

    method ObserveSeries(key: string, clean: seq<string>, v: real) returns (kept: bool)
      requires Valid()
      modifies this`points, points.Values
      ensures Valid()
      ensures kept == (v >= 0.0 && (key in old(points) || |old(points)| < MAX_SERIES))
      ensures kept ==> Told(key) == old(Told(key)) + [v]
      ensures forall k | !kept || k != key :: Told(k) == old(Told(k))
      ensures old(points.Keys) <= points.Keys
    {
      if v < 0.0 { return false; }
      var point := PointFor(key, clean);
      if point == null { return false; }
      ObserveAt(key, v);
      return true;
    }

    /** What is sent for a series partitions what it was told: a family's bounds increase. */
    method ExportAt(key: string) returns (count: nat, sum: real, counts: seq<int>)
      requires Valid() && key in points
      ensures count == |Told(key)| && sum == Sum(Told(key)) && |counts| == |bounds| + 1 && Total(counts) == count
      ensures forall i: nat | i < |counts| :: counts[i] == CountIn(Told(key), Lower(bounds, i), Upper(bounds, i))
    {
      assert Owns(key);
      count, sum, counts := Export(points[key]);
    }

    method ObserveAt(key: string, v: real)
      requires Valid() && key in points
      modifies points[key]
      ensures Valid() && points[key].seen == old(points[key].seen) + [v]
      ensures forall k | k in points && k != key :: points[k] != points[key]
    {
      assert Owns(key);
      forall k | k in points && k != key ensures points[k] != points[key] { assert Owns(k); }
      points[key].Observe(v);
    }
  }

  // ---- The OTLP form ----------------------------------------------------------------------

  /** Differences of consecutive cumulative buckets, then the overflow. */
  function BucketCounts(buckets: seq<nat>, count: nat): (r: seq<int>)
    ensures |r| == |buckets| + 1
  {
    seq(|buckets|, i requires 0 <= i < |buckets| => buckets[i] - (if i > 0 then buckets[i - 1] else 0))
    + [count - (if buckets == [] then 0 else buckets[|buckets| - 1])]
  }

  /** Observations in a half-open interval; no lower or upper end means unbounded. */
  predicate Between(v: real, above: Option<real>, upTo: Option<real>) {
    (above.Some? ==> above.value < v) && (upTo.Some? ==> v <= upTo.value)
  }

  function CountIn(seen: seq<real>, above: Option<real>, upTo: Option<real>): nat {
    if seen == [] then 0
    else CountIn(seen[..|seen| - 1], above, upTo) + if Between(seen[|seen| - 1], above, upTo) then 1 else 0
  }

  lemma {:induction false} CountInIsADifference(seen: seq<real>, above: Option<real>, upTo: Option<real>)
    requires above.Some? && upTo.Some? ==> above.value <= upTo.value
    ensures CountIn(seen, above, upTo) ==
            (if upTo.Some? then AtMost(seen, upTo.value) else |seen|) - (if above.Some? then AtMost(seen, above.value) else 0)
  {
    if seen != [] { CountInIsADifference(seen[..|seen| - 1], above, upTo); }
  }

  function Total(counts: seq<int>): int {
    if counts == [] then 0 else Total(counts[..|counts| - 1]) + counts[|counts| - 1]
  }

  function Lower(bounds: seq<real>, i: nat): Option<real> {
    if 0 < i <= |bounds| then Some(bounds[i - 1]) else None
  }

  function Upper(bounds: seq<real>, i: nat): Option<real> {
    if i < |bounds| then Some(bounds[i]) else None
  }

  lemma {:induction false} DifferencesTelescope(buckets: seq<nat>, count: nat, n: nat)
    requires n <= |buckets|
    ensures Total(BucketCounts(buckets, count)[..n]) == if n == 0 then 0 else buckets[n - 1]
  {
    if n > 0 {
      DifferencesTelescope(buckets, count, n - 1);
      var counts := BucketCounts(buckets, count);
      assert counts[..n][..n - 1] == counts[..n - 1];
    }
  }

  /**
   Sent to OTLP, each count is a number of observations: those between two consecutive bounds, those
   up to the first and those above the last.
   */
  lemma BucketCountsPartition(bounds: seq<real>, seen: seq<real>, buckets: seq<nat>, i: nat)
    requires Increasing(bounds) && |buckets| == |bounds| && i <= |bounds|
    requires forall k | 0 <= k < |bounds| :: buckets[k] == AtMost(seen, bounds[k])
    ensures BucketCounts(buckets, |seen|)[i] == CountIn(seen, Lower(bounds, i), Upper(bounds, i))
  {
    CountInIsADifference(seen, Lower(bounds, i), Upper(bounds, i));
  }

  /** Nothing is counted twice and nothing lost. */
  lemma BucketCountsAddUp(buckets: seq<nat>, count: nat)
    ensures Total(BucketCounts(buckets, count)) == count
  {
    var counts := BucketCounts(buckets, count);
    DifferencesTelescope(buckets, count, |buckets|);
    assert counts[..|counts| - 1] == counts[..|buckets|];
  }

  /** Exports a point as it is at the moment. */
  method Export(p: Point) returns (count: nat, sum: real, counts: seq<int>)
    requires p.Valid() && Increasing(p.bounds)
    ensures count == |p.seen| && sum == Sum(p.seen) && |counts| == |p.bounds| + 1 && Total(counts) == count
    ensures forall i: nat | i < |counts| :: counts[i] == CountIn(p.seen, Lower(p.bounds, i), Upper(p.bounds, i))
  {
    counts := [];
    ghost var spec := BucketCounts(p.buckets, p.count);
    var previous := 0;
    for i := 0 to |p.buckets|
      invariant counts == spec[..i] && previous == if i > 0 then p.buckets[i - 1] else 0
    {
      counts := counts + [p.buckets[i] as int - previous as int];
      previous := p.buckets[i];
      assert counts[i] == spec[i];
    }
    counts := counts + [p.count as int - previous as int];
    assert counts == spec;
    forall i: nat | i < |counts| ensures counts[i] == CountIn(p.seen, Lower(p.bounds, i), Upper(p.bounds, i)) {
      BucketCountsPartition(p.bounds, p.seen, p.buckets, i);
    }
    BucketCountsAddUp(p.buckets, p.count);
    return p.count, p.value, counts;
  }
}
