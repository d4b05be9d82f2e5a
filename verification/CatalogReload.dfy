/**
 The catalog in memory. Versions are registered once and never change; an instance is told of new
 ones by notifications, each of which calls `reload`. Calls made while a load is running join
 it, and make it read once more. No notification is lost.
 */
module CatalogReload {
  import opened Wrappers

  type Key = string

  /** A registered version; this release may be unable to verify it. */
  datatype Row = Row(content: string, verifiable: bool)

  /** A load in progress: its query is on its way, or has been answered as the table stood. */
  datatype Load = Idle | Querying | Answered(snapshot: map<Key, Row>)

  datatype Catalog = Catalog(
    table: map<Key, Row>,
    rows: map<Key, Row>,
    dirty: bool,
    stale: bool,
    loading: Load,
    wanted: set<Key>)

  datatype Act =
    | Register(key: Key, row: Row)
    | Reload
    | Query
    | Deliver
    | Fail
    | Fetch(key: Key)

  /** What was loaded stands; of the batch, verifiable rows under new keys are added. */
  function Added(rows: map<Key, Row>, batch: map<Key, Row>): map<Key, Row> {
    map k | k in rows.Keys + batch.Keys && (k in rows || batch[k].verifiable) :: if k in rows then rows[k] else batch[k]
  }

  /** `wanted` is what was registered when `reload` was last called. */
  function Apply(c: Catalog, act: Act): Catalog {
    match act
    case Register(key, row) => if key in c.table then c else c.(table := c.table[key := row])
    case Reload =>
      var called := c.(dirty := true, wanted := c.table.Keys);
      if c.loading.Idle? then called.(dirty := false, loading := Querying) else called
    case Query => if c.loading.Querying? then c.(loading := Answered(c.table)) else c
    case Deliver =>
      if !c.loading.Answered? then c
      else
        var added := c.(rows := Added(c.rows, c.loading.snapshot));
        if c.dirty then added.(dirty := false, loading := Querying) else added.(stale := false, loading := Idle)
    case Fail => if c.loading.Idle? then c else c.(stale := true, loading := Idle)
    case Fetch(key) =>
      if key in c.table && c.table[key].verifiable then c.(rows := c.rows[key := c.table[key]]) else c
  }

  function Opened(table: map<Key, Row>): Catalog {
    Catalog(table, Added(map[], table), false, false, Idle, {})
  }

  function After(table: map<Key, Row>, acts: seq<Act>): Catalog {
    if acts == [] then Opened(table) else Apply(After(table, acts[..|acts| - 1]), acts[|acts| - 1])
  }

  /** Every verifiable version in `keys` is in memory. */
  ghost predicate Loaded(c: Catalog, keys: set<Key>) {
    forall k | k in keys && k in c.table && c.table[k].verifiable :: k in c.rows
  }

  /** What is in memory is what is registered, and what was wanted is there or on its way. */
  ghost predicate Kept(c: Catalog) {
    (forall k | k in c.rows :: k in c.table && c.rows[k] == c.table[k] && c.table[k].verifiable) &&
    c.wanted <= c.table.Keys &&
    match c.loading
    case Idle => c.stale || Loaded(c, c.wanted)
    case Querying => true
    case Answered(snapshot) =>
      (forall k | k in snapshot :: k in c.table && snapshot[k] == c.table[k]) && (c.dirty || c.wanted <= snapshot.Keys)
  }

  lemma ApplyKeeps(c: Catalog, act: Act)
    requires Kept(c)
    ensures Kept(Apply(c, act))
  {}

  lemma {:induction false} EveryHistoryKeeps(table: map<Key, Row>, acts: seq<Act>)
    ensures Kept(After(table, acts))
  {
    if acts != [] {
      EveryHistoryKeeps(table, acts[..|acts| - 1]);
      ApplyKeeps(After(table, acts[..|acts| - 1]), acts[|acts| - 1]);
    }
  }

  /** When no load is running and the last one did not fail, nothing registered before the latest call is missing. */
  lemma NoNotificationIsLost(table: map<Key, Row>, acts: seq<Act>)
    requires After(table, acts).loading.Idle? && !After(table, acts).stale
    ensures Loaded(After(table, acts), After(table, acts).wanted)
  {
    EveryHistoryKeeps(table, acts);
  }

  lemma RowsStand(c: Catalog, act: Act, k: Key)
    requires Kept(c) && k in c.rows
    ensures k in Apply(c, act).rows && Apply(c, act).rows[k] == c.rows[k]
  {}

  /** A loaded version never changes and never goes. */
  lemma {:induction false} LoadedRowsStand(table: map<Key, Row>, acts: seq<Act>, n: nat, k: Key)
    requires n <= |acts| && k in After(table, acts[..n]).rows
    ensures k in After(table, acts).rows && After(table, acts).rows[k] == After(table, acts[..n]).rows[k]
    decreases |acts|
  {
    if n == |acts| {
      assert acts[..n] == acts;
    } else {
      var before := acts[..|acts| - 1];
      assert acts[..n] == before[..n];
      LoadedRowsStand(table, before, n, k);
      EveryHistoryKeeps(table, before);
      RowsStand(After(table, before), acts[|acts| - 1], k);
    }
  }

  // ---- The service ------------------------------------------------------------------------

  /** One instance: what it does after a history is a history, and what its callers may rely on. */
  class CatalogService {
    var rows: map<Key, Row>
    var dirty: bool
    var stale: bool
    var loading: Load
    ghost const atStart: map<Key, Row>
    /** Everything that happened since the instance opened, to the table too. */
    ghost var acts: seq<Act>

    ghost function State(): Catalog
      reads this
    {
      After(atStart, acts)
    }

    ghost predicate Valid()
      reads this
    {
      State() == Catalog(State().table, rows, dirty, stale, loading, State().wanted)
    }

    constructor (table: map<Key, Row>)
      ensures Valid() && atStart == table && acts == []
      ensures forall k :: k in rows <==> k in table && table[k].verifiable
    {
      rows, dirty, stale, loading := Added(map[], table), false, false, Idle;
      atStart, acts := table, [];
    }

    ghost method Happened(act: Act)
      modifies this`acts
      ensures acts == old(acts) + [act] && State() == Apply(old(State()), act)
    {
      acts := acts + [act];
      assert acts[..|acts| - 1] == old(acts);
    }

    /** Another instance registers a version. */
    ghost method Registered(key: Key, row: Row)
      requires Valid()
      modifies this`acts
      ensures Valid() && acts == old(acts) + [Register(key, row)]
    {
      Happened(Register(key, row));
    }

    method Add(batch: map<Key, Row>)
      modifies this`rows
      ensures rows == Added(old(rows), batch)
    {
      var left := batch.Keys;
      while left != {}
        invariant left <= batch.Keys
        invariant forall k :: k in rows <==> k in old(rows) || (k in batch && k !in left && batch[k].verifiable)
        invariant forall k | k in rows :: rows[k] == if k in old(rows) then old(rows)[k] else batch[k]
      {
        var k :| k in left;
        if k !in rows && batch[k].verifiable { rows := rows[k := batch[k]]; }
        left := left - {k};
      }
    }

    /** After a call a load is running that will read, or read again, what is registered by now. */
    method Reload()
      requires Valid()
      modifies this`dirty, this`loading, this`acts
      ensures Valid() && acts == old(acts) + [Act.Reload]
      ensures State().wanted == State().table.Keys && (loading.Querying? || (loading.Answered? && dirty))
      ensures old(loading).Idle? <==> loading != old(loading)
      ensures dirty <==> !old(loading).Idle?
    {
      dirty := true;
      if loading == Idle {
        dirty := false;
        loading := Querying;
      }
      Happened(Act.Reload);
    }

    /** The query is answered with the table as it stands. */
    method Answer(snapshot: map<Key, Row>)
      requires Valid() && loading.Querying? && snapshot == State().table
      modifies this`loading, this`acts
      ensures Valid() && acts == old(acts) + [Query] && loading == Answered(snapshot)
    {
      loading := Answered(snapshot);
      Happened(Query);
    }

    /** The answer arrives. A load that ends here has loaded everything wanted; nothing loaded is lost. */
    method OnRead(snapshot: map<Key, Row>)
      requires Valid() && loading == Answered(snapshot)
      modifies this
      ensures Valid() && acts == old(acts) + [Deliver]
      ensures !old(dirty) <==> loading.Idle?
      ensures loading.Idle? ==> !stale && Loaded(State(), State().wanted)
      ensures forall k | k in old(rows) :: k in rows && rows[k] == old(rows)[k]
    {
      Add(snapshot);
      if dirty {
        dirty := false;
        loading := Querying;
      } else {
        stale := false;
        loading := Idle;
      }
      Happened(Deliver);
      if loading.Idle? { NoNotificationIsLost(atStart, acts); }
    }

    /** One version is looked up in the table. What this release cannot verify is not loaded. */
    method FetchOne(key: Key, found: Option<Row>) returns (row: Option<Row>)
      requires Valid() && found == if key in State().table then Some(State().table[key]) else None
      modifies this`rows, this`acts
      ensures Valid() && acts == old(acts) + [Fetch(key)]
      ensures row == if found.Some? && found.value.verifiable then found else None
      ensures row.Some? ==> key in rows && rows[key] == row.value
    {
      ghost var before := State();
      Happened(Fetch(key));
      assert State() == if found.Some? && found.value.verifiable then before.(rows := before.rows[key := found.value]) else before;
      if found.None? || !found.value.verifiable { return None; }
      rows := rows[key := found.value];
      return found;
    }

    /** The load failed: until the next one succeeds, nothing is promised. */
    method OnFailure()
      requires Valid() && loading != Idle
      modifies this`stale, this`loading, this`acts
      ensures Valid() && acts == old(acts) + [Fail] && stale && loading.Idle?
    {
      stale := true;
      loading := Idle;
      Happened(Fail);
    }
  }
}
