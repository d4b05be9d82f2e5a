/**
 Artifacts: rows that only move forward, bytes in a store that may fail, and a process that may stop
 between two writes. What a row that left PENDING has for bytes is what it declared, and a run never
 keeps more than its quota.
 */
module Artifacts {
  import opened Wrappers

  type Id = nat
  type Time = int
  type Bytes = seq<int>

  /** SHA-256, free of collisions. */
  datatype Hash = Sha256(content: Bytes)

  datatype State = Pending | Stored | Registered | Deleted
  datatype Retention = Ephemeral | Standard30d | Extended365d | LegalHold

  datatype Scope = Scope(organization: Id, run: Id, step: Id)

  /** What an upload declares. */
  datatype Descriptor = Descriptor(id: Id, size: nat, sha256: Hash, mediaType: string, retention: Retention)

  datatype Object = Object(
    scope: Scope, artifact: Descriptor, state: State, uploadedBy: Id, createdAt: Time, expiresAt: Option<Time>)

  /** Where an artifact's bytes are; no two artifacts share a place. */
  datatype Key = Key(organization: Id, run: Id, id: Id)

  /** The rows in the order they were made, and the store. */
  datatype Table = Table(rows: seq<Object>, bytes: map<Key, Bytes>)

  datatype Answer<+T> = Ok(value: T) | Err(code: string)

  const DAY_MS := 24 * 60 * 60_000
  const UNREGISTERED_MS := DAY_MS
  const MAX_RUN_ARTIFACTS := 200
  const MAX_RUN_BYTES := 512 * 1024 * 1024

  function RetentionMs(r: Retention): Option<int> {
    match r
    case Ephemeral => Some(DAY_MS)
    case Standard30d => Some(30 * DAY_MS)
    case Extended365d => Some(365 * DAY_MS)
    case LegalHold => None
  }

  function KeyOf(o: Object): Key {
    Key(o.scope.organization, o.scope.run, o.artifact.id)
  }

  function Rank(s: State): nat {
    match s case Pending => 0 case Stored => 1 case Registered => 2 case Deleted => 3
  }

  /** The place of the artifact's row. */
  function Find(rows: seq<Object>, id: Id): (r: Option<nat>)
    ensures r.Some? ==> r.value < |rows| && rows[r.value].artifact.id == id
    ensures r.None? ==> forall i | 0 <= i < |rows| :: rows[i].artifact.id != id
  {
    if rows == [] then None
    else if rows[|rows| - 1].artifact.id == id then Some(|rows| - 1)
    else Find(rows[..|rows| - 1], id)
  }

  predicate Live(o: Object, organization: Id, run: Id) {
    o.scope.organization == organization && o.scope.run == run && !o.state.Deleted?
  }

  function Count(rows: seq<Object>, organization: Id, run: Id): nat {
    if rows == [] then 0
    else Count(rows[..|rows| - 1], organization, run) + if Live(rows[|rows| - 1], organization, run) then 1 else 0
  }

  function Size(rows: seq<Object>, organization: Id, run: Id): nat {
    if rows == [] then 0
    else Size(rows[..|rows| - 1], organization, run) +
         if Live(rows[|rows| - 1], organization, run) then rows[|rows| - 1].artifact.size else 0
  }

  // ---- Service calls ----------------------------------------------------------------------

  function Move(t: Table, i: nat, to: State): Table
    requires i < |t.rows|
  {
    t.(rows := t.rows[i := t.rows[i].(state := to)])
  }

  /** A new PENDING row within the quotas; an upload that agrees with a row already there gets its state. */
  function Reserve(t: Table, scope: Scope, a: Descriptor, uploader: Id, now: Time): (Table, Answer<State>) {
    match Find(t.rows, a.id)
    case Some(i) =>
      var o := t.rows[i];
      (t, if o.scope != scope || o.artifact.sha256 != a.sha256 || o.artifact.size != a.size ||
             o.artifact.mediaType != a.mediaType || !(o.state.Pending? || o.state.Stored?)
          then Err("ARTIFACT_ALREADY_EXISTS") else Ok(o.state))
    case None =>
      if Count(t.rows, scope.organization, scope.run) >= MAX_RUN_ARTIFACTS ||
         Size(t.rows, scope.organization, scope.run) + a.size > MAX_RUN_BYTES
      then (t, Err("ARTIFACT_QUOTA_EXCEEDED"))
      else
        var expiresAt := match RetentionMs(a.retention) case Some(ms) => Some(now + ms) case None => None;
        (t.(rows := t.rows + [Object(scope, a, Pending, uploader, now, expiresAt)]), Ok(Pending))
  }

  /** How far a call gets before the store fails or the process stops. */
  datatype Reach = Nothing | BytesOnly | Everything

  predicate Declared(o: Object, content: Bytes) {
    |content| == o.artifact.size && Sha256(content) == o.artifact.sha256
  }

  /** Upload through the control plane: only exactly the declared bytes get to the store. */
  function Keep(t: Table, scope: Scope, a: Descriptor, content: Bytes, uploader: Id, now: Time, reach: Reach): (Table, Answer<()>) {
    if |content| != a.size then (t, Err("ARTIFACT_SIZE_MISMATCH"))
    else if Sha256(content) != a.sha256 then (t, Err("ARTIFACT_DIGEST_MISMATCH"))
    else
      var (reserved, state) := Reserve(t, scope, a, uploader, now);
      match state
      case Err(code) => (reserved, Err(code))
      case Ok(Stored) => (reserved, Ok(()))
      case Ok(_) =>
        match Find(reserved.rows, a.id)
        case None => (reserved, Err("ARTIFACT_STORE_UNAVAILABLE"))
        case Some(i) =>
          if reach.Nothing? then (reserved, Err("ARTIFACT_STORE_UNAVAILABLE"))
          else
            var put := reserved.(bytes := reserved.bytes[KeyOf(reserved.rows[i]) := content]);
            if reach.BytesOnly? then (put, Err("STOPPED")) else (Move(put, i, Stored), Ok(()))
  }

  /** A permitted direct upload: while the row is PENDING the store may be sent anything. */
  function PutDirect(t: Table, id: Id, content: Bytes): Table {
    match Find(t.rows, id)
    case Some(i) => if t.rows[i].state.Pending? then t.(bytes := t.bytes[KeyOf(t.rows[i]) := content]) else t
    case None => t
  }

  /** The control plane reads the bytes back, and accepts them only if they are what was declared. */
  function CompleteDirect(t: Table, scope: Scope, id: Id, uploader: Id, reach: Reach): (Table, Answer<()>) {
    match Find(t.rows, id)
    case None => (t, Err("ARTIFACT_NOT_FOUND"))
    case Some(i) =>
      var o := t.rows[i];
      if o.scope != scope || o.uploadedBy != uploader || !(o.state.Pending? || o.state.Stored?) then (t, Err("ARTIFACT_NOT_FOUND"))
      else if o.state.Stored? then (t, Ok(()))
      else if KeyOf(o) !in t.bytes then (t, Err("ARTIFACT_CONTENT_MISSING"))
      else if !Declared(o, t.bytes[KeyOf(o)]) then (Remove(t, id, reach), Err("ARTIFACT_DIGEST_MISMATCH"))
      else if reach.Everything? then (Move(t, i, Stored), Ok(())) else (t, Err("STOPPED"))
  }

  /** Only a STORED row of the run, declared alike, becomes REGISTERED. */
  function Register(t: Table, organization: Id, run: Id, a: Descriptor): (Table, Answer<()>) {
    match Find(t.rows, a.id)
    case None => (t, Err("ARTIFACT_OBJECT_MISMATCH"))
    case Some(i) =>
      var o := t.rows[i];
      if o.scope.organization != organization || o.scope.run != run || !o.state.Stored? || o.artifact != a
      then (t, Err("ARTIFACT_OBJECT_MISMATCH"))
      else (Move(t, i, Registered), Ok(()))
  }

  /** The bytes of a registered artifact, if they still match. */
  function Retrieve(t: Table, organization: Id, id: Id): Answer<Bytes> {
    match Find(t.rows, id)
    case None => Err("ARTIFACT_NOT_FOUND")
    case Some(i) =>
      var o := t.rows[i];
      if o.scope.organization != organization then Err("ARTIFACT_NOT_FOUND")
      else if o.state.Deleted? then Err("ARTIFACT_CONTENT_DELETED")
      else if !o.state.Registered? then Err("ARTIFACT_RETRIEVAL_INVALID")
      else if KeyOf(o) !in t.bytes || !Declared(o, t.bytes[KeyOf(o)]) then Err("ARTIFACT_INTEGRITY_FAILED")
      else Ok(t.bytes[KeyOf(o)])
  }

  /** A removal stopped between its two writes leaves a row without bytes, never bytes under a deleted row. */
  function Remove(t: Table, id: Id, reach: Reach): Table {
    match Find(t.rows, id)
    case None => t
    case Some(i) =>
      if t.rows[i].state.Deleted? || reach.Nothing? then t
      else
        var gone := t.(bytes := t.bytes - {KeyOf(t.rows[i])});
        if reach.BytesOnly? then gone else Move(gone, i, Deleted)
  }

  predicate Due(o: Object, now: Time) {
    (o.state.Registered? && o.expiresAt.Some? && o.expiresAt.value <= now) ||
    ((o.state.Pending? || o.state.Stored?) && o.createdAt < now - UNREGISTERED_MS)
  }

  /** A retention pass over the given artifacts; each removal gets as far as it gets. */
  function RemoveAll(t: Table, ids: seq<Id>, reach: Id -> Reach): Table {
    if ids == [] then t else Remove(RemoveAll(t, ids[..|ids| - 1], reach), ids[|ids| - 1], reach(ids[|ids| - 1]))
  }

  // ---- Every history ----------------------------------------------------------------------

  datatype Act =
    | Upload(scope: Scope, artifact: Descriptor, content: Bytes, uploader: Id, now: Time, reach: Reach)
    | Authorize(scope: Scope, artifact: Descriptor, uploader: Id, now: Time)
    | Direct(id: Id, content: Bytes)
    | Completed(scope: Scope, id: Id, uploader: Id, reach: Reach)
    | Registration(organization: Id, run: Id, artifact: Descriptor)
    | Expiry(id: Id, reach: Reach)

  function Apply(t: Table, act: Act): Table {
    match act
    case Upload(scope, a, content, uploader, now, reach) => Keep(t, scope, a, content, uploader, now, reach).0
    case Authorize(scope, a, uploader, now) => Reserve(t, scope, a, uploader, now).0
    case Direct(id, content) => PutDirect(t, id, content)
    case Completed(scope, id, uploader, reach) => CompleteDirect(t, scope, id, uploader, reach).0
    case Registration(organization, run, a) => Register(t, organization, run, a).0
    case Expiry(id, reach) => Remove(t, id, reach)
  }

  function After(acts: seq<Act>): Table {
    if acts == [] then Table([], map[]) else Apply(After(acts[..|acts| - 1]), acts[|acts| - 1])
  }

  /** What a row's state says about its bytes. */
  ghost predicate Truthful(t: Table, i: nat) {
    i < |t.rows| ==>
      var o := t.rows[i];
      match o.state
      case Pending => true
      case Deleted => KeyOf(o) !in t.bytes
      case _ => KeyOf(o) in t.bytes ==> Declared(o, t.bytes[KeyOf(o)])
  }

  ghost predicate Unique(rows: seq<Object>) {
    forall i, j | 0 <= i < j < |rows| :: rows[i].artifact.id != rows[j].artifact.id
  }

  ghost predicate WithinQuota(rows: seq<Object>) {
    forall organization, run ::
      Count(rows, organization, run) <= MAX_RUN_ARTIFACTS && Size(rows, organization, run) <= MAX_RUN_BYTES
  }

  ghost predicate Sound(t: Table) {
    Unique(t.rows) && WithinQuota(t.rows) && forall i :: Truthful(t, i)
  }

  lemma {:induction false} FewerLive(rows: seq<Object>, i: nat, to: State, organization: Id, run: Id)
    requires i < |rows| && !rows[i].state.Deleted?
    ensures Count(rows[i := rows[i].(state := to)], organization, run) <= Count(rows, organization, run)
    ensures Size(rows[i := rows[i].(state := to)], organization, run) <= Size(rows, organization, run)
  {
    var moved := rows[i := rows[i].(state := to)];
    if i == |rows| - 1 {
      assert moved[..|rows| - 1] == rows[..|rows| - 1];
    } else {
      assert moved[..|rows| - 1] == rows[..|rows| - 1][i := rows[i].(state := to)];
      FewerLive(rows[..|rows| - 1], i, to, organization, run);
    }
  }

  /** A row moves on, with its bytes as they are or gone. */
  lemma MoveKeeps(t: Table, i: nat, to: State)
    requires Unique(t.rows) && WithinQuota(t.rows) && i < |t.rows| && !t.rows[i].state.Deleted?
    requires forall j | j != i :: Truthful(t, j)
    requires Truthful(Move(t, i, to), i)
    ensures Sound(Move(t, i, to))
  {
    var x := Move(t, i, to);
    forall organization, run
      ensures Count(x.rows, organization, run) <= MAX_RUN_ARTIFACTS && Size(x.rows, organization, run) <= MAX_RUN_BYTES
    {
      FewerLive(t.rows, i, to, organization, run);
    }
    forall j ensures Truthful(x, j) {
      if j != i { assert Truthful(t, j); }
    }
  }

  /** Bytes of a PENDING row may be anything, bytes of any row may be gone; other rows have other keys. */
  lemma BytesKeep(t: Table, i: nat, bytes: map<Key, Bytes>)
    requires Sound(t) && i < |t.rows|
    requires forall k | k != KeyOf(t.rows[i]) :: (k in bytes <==> k in t.bytes) && (k in bytes ==> bytes[k] == t.bytes[k])
    requires Truthful(t.(bytes := bytes), i)
    ensures Sound(t.(bytes := bytes))
  {
    forall j: nat ensures Truthful(t.(bytes := bytes), j) {
      assert Truthful(t, j);
      if j < |t.rows| && j != i { assert t.rows[i].artifact.id != t.rows[j].artifact.id; }
    }
  }

  lemma QuotaAdmits(rows: seq<Object>, o: Object)
    requires WithinQuota(rows) && Count(rows, o.scope.organization, o.scope.run) < MAX_RUN_ARTIFACTS
    requires Size(rows, o.scope.organization, o.scope.run) + o.artifact.size <= MAX_RUN_BYTES
    ensures WithinQuota(rows + [o])
  {
    assert (rows + [o])[..|rows|] == rows && (rows + [o])[|rows|] == o;
    forall organization, run
      ensures Count(rows + [o], organization, run) <= MAX_RUN_ARTIFACTS && Size(rows + [o], organization, run) <= MAX_RUN_BYTES
    {
      assert Count(rows, organization, run) <= MAX_RUN_ARTIFACTS && Size(rows, organization, run) <= MAX_RUN_BYTES;
      if Live(o, organization, run) { assert organization == o.scope.organization && run == o.scope.run; }
    }
  }

  lemma ReserveKeeps(t: Table, scope: Scope, a: Descriptor, uploader: Id, now: Time)
    requires Sound(t)
    ensures Sound(Reserve(t, scope, a, uploader, now).0)
  {
    var x := Reserve(t, scope, a, uploader, now).0;
    if x != t {
      QuotaAdmits(t.rows, x.rows[|t.rows|]);
      forall i ensures Truthful(x, i) { assert Truthful(t, i); }
    }
  }

  lemma RemoveKeeps(t: Table, id: Id, reach: Reach)
    requires Sound(t)
    ensures Sound(Remove(t, id, reach))
  {
    var i := Find(t.rows, id);
    if i.Some? && !t.rows[i.value].state.Deleted? && !reach.Nothing? {
      var gone := t.(bytes := t.bytes - {KeyOf(t.rows[i.value])});
      BytesKeep(t, i.value, gone.bytes);
      MoveKeeps(gone, i.value, Deleted);
    }
  }

  lemma KeepKeeps(t: Table, scope: Scope, a: Descriptor, content: Bytes, uploader: Id, now: Time, reach: Reach)
    requires Sound(t)
    ensures Sound(Keep(t, scope, a, content, uploader, now, reach).0)
  {
    ReserveKeeps(t, scope, a, uploader, now);
    var (reserved, state) := Reserve(t, scope, a, uploader, now);
    var i := Find(reserved.rows, a.id);
    if |content| == a.size && Sha256(content) == a.sha256 && state == Ok(Pending) && i.Some? && !reach.Nothing? {
      var o := reserved.rows[i.value];
      assert o.state.Pending? && Declared(o, content) by { PendingIsReserved(t, scope, a, uploader, now); }
      var put := reserved.(bytes := reserved.bytes[KeyOf(o) := content]);
      BytesKeep(reserved, i.value, put.bytes);
      MoveKeeps(put, i.value, Stored);
    }
  }

  lemma PendingIsReserved(t: Table, scope: Scope, a: Descriptor, uploader: Id, now: Time)
    requires Unique(t.rows) && Reserve(t, scope, a, uploader, now).1 == Ok(Pending)
    ensures var rows := Reserve(t, scope, a, uploader, now).0.rows;
            var i := Find(rows, a.id);
            i.Some? && rows[i.value].state.Pending? && rows[i.value].artifact.sha256 == a.sha256 &&
            rows[i.value].artifact.size == a.size
  {}

  lemma CompleteKeeps(t: Table, scope: Scope, id: Id, uploader: Id, reach: Reach)
    requires Sound(t)
    ensures Sound(CompleteDirect(t, scope, id, uploader, reach).0)
  {
    RemoveKeeps(t, id, reach);
    var i := Find(t.rows, id);
    if i.Some? && t.rows[i.value].state.Pending? && KeyOf(t.rows[i.value]) in t.bytes &&
       Declared(t.rows[i.value], t.bytes[KeyOf(t.rows[i.value])]) {
      MoveKeeps(t, i.value, Stored);
    }
  }

  lemma DirectKeeps(t: Table, id: Id, content: Bytes)
    requires Sound(t)
    ensures Sound(PutDirect(t, id, content))
  {
    var i := Find(t.rows, id);
    if i.Some? && t.rows[i.value].state.Pending? {
      BytesKeep(t, i.value, t.bytes[KeyOf(t.rows[i.value]) := content]);
    }
  }

  lemma RegisterKeeps(t: Table, organization: Id, run: Id, a: Descriptor)
    requires Sound(t)
    ensures Sound(Register(t, organization, run, a).0)
  {
    var i := Find(t.rows, a.id);
    if Register(t, organization, run, a).1.Ok? {
      assert Truthful(t, i.value);
      MoveKeeps(t, i.value, Registered);
    }
  }

  lemma ApplyKeeps(t: Table, act: Act)
    requires Sound(t)
    ensures Sound(Apply(t, act))
  {
    match act {
      case Upload(scope, a, content, uploader, now, reach) => KeepKeeps(t, scope, a, content, uploader, now, reach);
      case Authorize(scope, a, uploader, now) => ReserveKeeps(t, scope, a, uploader, now);
      case Direct(id, content) => DirectKeeps(t, id, content);
      case Completed(scope, id, uploader, reach) => CompleteKeeps(t, scope, id, uploader, reach);
      case Registration(organization, run, a) => RegisterKeeps(t, organization, run, a);
      case Expiry(id, reach) => RemoveKeeps(t, id, reach);
    }
  }

  lemma {:induction false} EveryHistoryIsSound(acts: seq<Act>)
    ensures Sound(After(acts))
  {
    if acts != [] {
      EveryHistoryIsSound(acts[..|acts| - 1]);
      ApplyKeeps(After(acts[..|acts| - 1]), acts[|acts| - 1]);
    }
  }

  // ---- The theorems -----------------------------------------------------------------------

  /** Rows stay where they are, keep what they declared, and only move forward. */
  ghost predicate Forward(t: Table, x: Table) {
    |t.rows| <= |x.rows| &&
    forall i | 0 <= i < |t.rows| ::
      x.rows[i].(state := t.rows[i].state) == t.rows[i] && Rank(t.rows[i].state) <= Rank(x.rows[i].state)
  }

  lemma UploadMovesForward(t: Table, scope: Scope, a: Descriptor, content: Bytes, uploader: Id, now: Time, reach: Reach)
    ensures Forward(t, Keep(t, scope, a, content, uploader, now, reach).0)
  {
    assert Forward(t, Reserve(t, scope, a, uploader, now).0);
  }

  lemma CompletionMovesForward(t: Table, scope: Scope, id: Id, uploader: Id, reach: Reach)
    ensures Forward(t, CompleteDirect(t, scope, id, uploader, reach).0)
  {
    assert Forward(t, Remove(t, id, reach));
  }

  lemma ApplyMovesForward(t: Table, act: Act)
    ensures Forward(t, Apply(t, act))
  {
    match act {
      case Upload(scope, a, content, uploader, now, reach) => UploadMovesForward(t, scope, a, content, uploader, now, reach);
      case Completed(scope, id, uploader, reach) => CompletionMovesForward(t, scope, id, uploader, reach);
      case _ =>
    }
  }

  lemma {:induction false} RowsMoveForward(acts: seq<Act>, n: nat)
    requires n <= |acts|
    ensures Forward(After(acts[..n]), After(acts))
    decreases |acts|
  {
    if n == |acts| {
      assert acts[..n] == acts;
    } else {
      var before := acts[..|acts| - 1];
      assert acts[..n] == before[..n];
      RowsMoveForward(before, n);
      ApplyMovesForward(After(before), acts[|acts| - 1]);
    }
  }

  /** A run keeps at most 200 live artifacts and 512 MiB. */
  lemma QuotasHold(acts: seq<Act>, organization: Id, run: Id)
    ensures Count(After(acts).rows, organization, run) <= 200
    ensures Size(After(acts).rows, organization, run) <= 512 * 1024 * 1024
  {
    EveryHistoryIsSound(acts);
  }

  /** Bytes kept for a stored or registered row are the declared ones; a deleted row has none. */
  lemma BytesAreDeclared(acts: seq<Act>, i: nat)
    requires i < |After(acts).rows|
    ensures var t := After(acts);
            var o := t.rows[i];
            (o.state.Stored? || o.state.Registered? ==> KeyOf(o) in t.bytes ==> Declared(o, t.bytes[KeyOf(o)])) &&
            (o.state.Deleted? ==> KeyOf(o) !in t.bytes)
  {
    EveryHistoryIsSound(acts);
    assert Truthful(After(acts), i);
  }

  /** Whatever the store holds, retrieval gives out nothing but the declared bytes of a registered artifact. */
  lemma RetrievalIsDeclared(t: Table, organization: Id, id: Id)
    requires Retrieve(t, organization, id).Ok?
    ensures exists i :: 0 <= i < |t.rows| && t.rows[i].artifact.id == id && t.rows[i].scope.organization == organization &&
                        t.rows[i].state.Registered? && Declared(t.rows[i], Retrieve(t, organization, id).value)
  {}

  /** Whenever an artifact is retrieved, in whatever history, it is the same bytes and the same organization's. */
  lemma RetrievalNeverChanges(acts: seq<Act>, n: nat, organization: Id, other: Id, id: Id)
    requires n <= |acts|
    requires Retrieve(After(acts[..n]), organization, id).Ok? && Retrieve(After(acts), other, id).Ok?
    ensures Retrieve(After(acts[..n]), organization, id) == Retrieve(After(acts), other, id) && organization == other
  {
    var early, late := After(acts[..n]), After(acts);
    RowsMoveForward(acts, n);
    EveryHistoryIsSound(acts);
    RetrievalIsDeclared(early, organization, id);
    RetrievalIsDeclared(late, other, id);
    var i, j := Find(early.rows, id).value, Find(late.rows, id).value;
    assert late.rows[i].artifact == early.rows[i].artifact && late.rows[i].scope == early.rows[i].scope;
    assert i == j;
  }

  // ---- What each call achieves ------------------------------------------------------------

  /** The places of the run's live artifacts. */
  function LivePlaces(rows: seq<Object>, organization: Id, run: Id): set<nat> {
    set i: nat | i < |rows| && rows[i].scope.organization == organization && rows[i].scope.run == run && rows[i].state != Deleted
  }

  lemma {:induction false} CountIsLive(rows: seq<Object>, organization: Id, run: Id)
    ensures Count(rows, organization, run) == |LivePlaces(rows, organization, run)|
  {
    if rows != [] {
      var before := rows[..|rows| - 1];
      CountIsLive(before, organization, run);
      var last := if Live(rows[|before|], organization, run) then {|before|} else {};
      assert LivePlaces(rows, organization, run) == LivePlaces(before, organization, run) + last;
    }
  }

  /** How long an artifact is kept, in days; one under legal hold for ever. */
  function RetentionDays(r: Retention): Option<nat> {
    match r
    case Ephemeral => Some(1)
    case Standard30d => Some(30)
    case Extended365d => Some(365)
    case LegalHold => None
  }

  predicate ExpiresAsDeclared(o: Object) {
    o.expiresAt == match RetentionDays(o.artifact.retention)
                   case Some(days) => Some(o.createdAt + days * 86_400_000)
                   case None => None
  }

  /** A new upload is admitted exactly if there is room, and recorded as declared; a known one if it is the same. */
  lemma ReservationIsExact(t: Table, scope: Scope, a: Descriptor, uploader: Id, now: Time)
    ensures var (after, answer) := Reserve(t, scope, a, uploader, now);
            match Find(t.rows, a.id)
            case None =>
              (answer == Ok(Pending) <==> |LivePlaces(t.rows, scope.organization, scope.run)| < 200 &&
                                          Size(t.rows, scope.organization, scope.run) + a.size <= 512 * 1024 * 1024) &&
              (if answer == Ok(Pending)
               then |after.rows| == |t.rows| + 1 && after == t.(rows := t.rows + [after.rows[|t.rows|]]) &&
                    var o := after.rows[|t.rows|];
                    o.scope == scope && o.artifact == a && o.state.Pending? && o.uploadedBy == uploader && o.createdAt == now &&
                    ExpiresAsDeclared(o)
               else after == t && answer == Err("ARTIFACT_QUOTA_EXCEEDED"))
            case Some(i) =>
              var o := t.rows[i];
              after == t &&
              answer == if o.scope == scope && o.artifact.sha256 == a.sha256 && o.artifact.size == a.size &&
                           o.artifact.mediaType == a.mediaType && (o.state.Pending? || o.state.Stored?)
                        then Ok(o.state) else Err("ARTIFACT_ALREADY_EXISTS")
  {
    CountIsLive(t.rows, scope.organization, scope.run);
  }

  /** An upload that is told it succeeded is stored: its row, and with it the very bytes. */
  lemma UploadIsExact(t: Table, scope: Scope, a: Descriptor, content: Bytes, uploader: Id, now: Time, reach: Reach)
    requires Unique(t.rows)
    ensures var (after, answer) := Keep(t, scope, a, content, uploader, now, reach);
            var reserved := Reserve(t, scope, a, uploader, now);
            (answer.Ok? <==> |content| == a.size && Sha256(content) == a.sha256 && reserved.1.Ok? &&
                             (reserved.1.value.Stored? || reach.Everything?)) &&
            (answer.Ok? ==> var i := Find(after.rows, a.id);
                            i.Some? && after.rows[i.value].state.Stored? &&
                            if reserved.1.value.Stored? then after == t
                            else KeyOf(after.rows[i.value]) in after.bytes && after.bytes[KeyOf(after.rows[i.value])] == content) &&
            (|content| != a.size ==> answer == Err("ARTIFACT_SIZE_MISMATCH")) &&
            (|content| == a.size && Sha256(content) != a.sha256 ==> answer == Err("ARTIFACT_DIGEST_MISMATCH")) &&
            (|content| != a.size || Sha256(content) != a.sha256 ==> after == t)
  {
    var (reserved, state) := Reserve(t, scope, a, uploader, now);
    if state == Ok(Pending) {
      PendingIsReserved(t, scope, a, uploader, now);
      var i := Find(reserved.rows, a.id).value;
      FindAfterMove(reserved.rows, i, Stored);
    }
  }

  lemma {:induction false} FindIsUnique(rows: seq<Object>, i: nat)
    requires i < |rows| && forall j | i < j < |rows| :: rows[j].artifact.id != rows[i].artifact.id
    ensures Find(rows, rows[i].artifact.id) == Some(i)
  {
    if i < |rows| - 1 { FindIsUnique(rows[..|rows| - 1], i); }
  }

  lemma {:induction false} FindAfterMove(rows: seq<Object>, i: nat, to: State)
    requires i < |rows| && Find(rows, rows[i].artifact.id) == Some(i)
    ensures Find(rows[i := rows[i].(state := to)], rows[i].artifact.id) == Some(i)
  {
    var moved := rows[i := rows[i].(state := to)];
    NoneLater(rows, i);
    FindIsUnique(moved, i);
  }

  lemma {:induction false} NoneLater(rows: seq<Object>, i: nat)
    requires i < |rows| && Find(rows, rows[i].artifact.id) == Some(i)
    ensures forall j | i < j < |rows| :: rows[j].artifact.id != rows[i].artifact.id
  {
    if i < |rows| - 1 { NoneLater(rows[..|rows| - 1], i); }
  }

  /** A direct upload is accepted exactly if what is in the store is what was declared; wrong bytes are taken away. */
  lemma CompletionIsExact(t: Table, scope: Scope, id: Id, uploader: Id, reach: Reach)
    ensures var (after, answer) := CompleteDirect(t, scope, id, uploader, reach);
            var f := Find(t.rows, id);
            if f.None? then after == t && answer == Err("ARTIFACT_NOT_FOUND")
            else
              var i, o := f.value, t.rows[f.value];
              var open := o.scope == scope && o.uploadedBy == uploader;
              var there := KeyOf(o) in t.bytes && |t.bytes[KeyOf(o)]| == o.artifact.size && Sha256(t.bytes[KeyOf(o)]) == o.artifact.sha256;
              (answer.Ok? <==> open && (o.state.Stored? || (o.state.Pending? && there && reach.Everything?))) &&
              (answer.Ok? ==> after == t.(rows := t.rows[i := o.(state := Stored)])) &&
              (open && o.state.Pending? && KeyOf(o) in t.bytes && !there ==>
                 answer == Err("ARTIFACT_DIGEST_MISMATCH") && after == Remove(t, id, reach)) &&
              (open && o.state.Pending? && KeyOf(o) !in t.bytes ==> answer == Err("ARTIFACT_CONTENT_MISSING") && after == t) &&
              (!open || !(o.state.Pending? || o.state.Stored?) ==> answer == Err("ARTIFACT_NOT_FOUND") && after == t)
  {
    var f := Find(t.rows, id);
    if f.Some? && t.rows[f.value].state.Stored? { assert t.rows[f.value := t.rows[f.value].(state := Stored)] == t.rows; }
  }

  /** A registration succeeds exactly for a stored artifact of the run that is declared the same, in every field. */
  lemma RegistrationIsExact(t: Table, organization: Id, run: Id, a: Descriptor)
    ensures var (after, answer) := Register(t, organization, run, a);
            var f := Find(t.rows, a.id);
            (answer.Ok? <==> f.Some? && t.rows[f.value].scope.organization == organization && t.rows[f.value].scope.run == run &&
                             t.rows[f.value].state.Stored? && t.rows[f.value].artifact == a) &&
            after == if answer.Ok? then t.(rows := t.rows[f.value := t.rows[f.value].(state := Registered)]) else t
  {}

  /** What is given out, and what is said otherwise: a registered artifact with its declared bytes always is. */
  lemma RetrievalIsExact(t: Table, organization: Id, id: Id)
    ensures var f := Find(t.rows, id);
            Retrieve(t, organization, id) ==
              if f.None? || t.rows[f.value].scope.organization != organization then Err("ARTIFACT_NOT_FOUND")
              else
                var o := t.rows[f.value];
                match o.state
                case Deleted => Err("ARTIFACT_CONTENT_DELETED")
                case Registered =>
                  if KeyOf(o) in t.bytes && |t.bytes[KeyOf(o)]| == o.artifact.size && Sha256(t.bytes[KeyOf(o)]) == o.artifact.sha256
                  then Ok(t.bytes[KeyOf(o)]) else Err("ARTIFACT_INTEGRITY_FAILED")
                case _ => Err("ARTIFACT_RETRIEVAL_INVALID")
  {}

  // ---- How long artifacts stay ------------------------------------------------------------

  lemma ApplyKeepsExpiry(t: Table, act: Act)
    requires forall i: nat | i < |t.rows| :: ExpiresAsDeclared(t.rows[i])
    ensures forall i: nat | i < |Apply(t, act).rows| :: ExpiresAsDeclared(Apply(t, act).rows[i])
  {
    var x := Apply(t, act);
    ApplyMovesForward(t, act);
    forall i: nat | i < |x.rows| ensures ExpiresAsDeclared(x.rows[i]) {
      if i < |t.rows| {
        assert x.rows[i].(state := t.rows[i].state) == t.rows[i];
      } else {
        NewRowsExpire(t, act, i);
      }
    }
  }

  lemma NewRowsExpire(t: Table, act: Act, i: nat)
    requires |t.rows| <= i < |Apply(t, act).rows|
    ensures ExpiresAsDeclared(Apply(t, act).rows[i])
  {
    match act {
      case Upload(scope, a, _, uploader, now, _) => ReservationIsExact(t, scope, a, uploader, now);
      case Authorize(scope, a, uploader, now) => ReservationIsExact(t, scope, a, uploader, now);
      case _ =>
    }
  }

  lemma {:induction false} EveryHistoryKeepsExpiry(acts: seq<Act>)
    ensures forall i: nat | i < |After(acts).rows| :: ExpiresAsDeclared(After(acts).rows[i])
  {
    if acts != [] {
      EveryHistoryKeepsExpiry(acts[..|acts| - 1]);
      ApplyKeepsExpiry(After(acts[..|acts| - 1]), acts[|acts| - 1]);
    }
  }

  /**
   In every history a registered artifact becomes due exactly when the days it was declared to be kept are
   over, one under legal hold never, and one nobody registered after a day.
   */
  lemma DueAsDeclared(acts: seq<Act>, i: nat, now: Time)
    requires i < |After(acts).rows|
    ensures var o := After(acts).rows[i];
            Due(o, now) <==>
              match o.state
              case Registered => (match RetentionDays(o.artifact.retention)
                                  case Some(days) => now >= o.createdAt + days * 86_400_000
                                  case None => false)
              case Deleted => false
              case _ => now > o.createdAt + 86_400_000
  {
    EveryHistoryKeepsExpiry(acts);
    assert ExpiresAsDeclared(After(acts).rows[i]);
  }

  // ---- Retention --------------------------------------------------------------------------

  /** The service, as far as its retention loop: the due rows are listed, then removed one by one. */
  class ArtifactService {
    var table: Table

    constructor ()
      ensures table == Table([], map[])
    {
      table := Table([], map[]);
    }

    method RemoveOne(id: Id, reach: Reach) returns (removed: bool)
      modifies this
      ensures table == Remove(old(table), id, reach)
      ensures removed <==> reach.Everything? && Find(old(table).rows, id).Some? &&
                           !old(table).rows[Find(old(table).rows, id).value].state.Deleted?
    {
      var i := Find(table.rows, id);
      if i.None? || table.rows[i.value].state == Deleted { return false; }
      if reach == Nothing { return false; }
      table := table.(bytes := table.bytes - {KeyOf(table.rows[i.value])});
      if reach == BytesOnly { return false; }
      table := table.(rows := table.rows[i.value := table.rows[i.value].(state := Deleted)]);
      return true;
    }

    /** What is due, oldest first, up to the limit. */
    method ListDue(now: Time) returns (ids: seq<Id>)
      requires Unique(table.rows)
      ensures Listed(table.rows, ids, now)
    {
      ids := [];
      var i := 0;
      while i < |table.rows| && |ids| < PASS_LIMIT
        invariant i <= |table.rows| && |ids| <= PASS_LIMIT
        invariant forall k | 0 <= k < |table.rows| ::
          table.rows[k].artifact.id in ids <==> k < i && Due(table.rows[k], now)
        invariant forall id | id in ids :: exists k :: DueAt(table.rows, id, now, k)
        invariant NoneTwice(ids)
      {
        if Due(table.rows[i], now) {
          assert DueAt(table.rows, table.rows[i].artifact.id, now, i);
          ids := ids + [table.rows[i].artifact.id];
        }
        i := i + 1;
      }
    }

    /** A pass removes what is listed, each as far as the store lets it, and touches nothing else. */
    method EnforceRetention(now: Time, reach: Id -> Reach) returns (removed: nat, ghost due: seq<Id>)
      requires Unique(table.rows)
      modifies this
      ensures Listed(old(table).rows, due, now)
      ensures |table.rows| == |old(table).rows|
      ensures forall i | 0 <= i < |table.rows| :: Passed(old(table), table, due, reach, i)
      ensures removed == |Finished(due, reach)|
      ensures table == RemoveAll(old(table), due, reach)
    {
      var ids := ListDue(now);
      removed, due := 0, ids;
      for i := 0 to |ids|
        invariant table == RemoveAll(old(table), ids[..i], reach) && removed == |Finished(ids[..i], reach)|
      {
        assert ids[..i + 1][..i] == ids[..i] && ids[..i + 1][i] == ids[i];
        NextIsThere(old(table), ids, now, reach, i);
        OneMoreFinished(ids, i, reach);
        var one := RemoveOne(ids[i], reach(ids[i]));
        if one { removed := removed + 1; }
      }
      assert ids[..|ids|] == ids;
      PassAt(old(table), ids, reach);
    }
  }

  const PASS_LIMIT := 200

  ghost predicate NoneTwice(ids: seq<Id>) {
    forall i, j | 0 <= i < j < |ids| :: ids[i] != ids[j]
  }

  predicate DueAt(rows: seq<Object>, id: Id, now: Time, k: int) {
    0 <= k < |rows| && rows[k].artifact.id == id && Due(rows[k], now)
  }

  /** The pass takes the oldest due rows: all of them, or as many as the limit, and none that is younger than one left out. */
  ghost predicate Listed(rows: seq<Object>, ids: seq<Id>, now: Time) {
    |ids| <= 200 && NoneTwice(ids) &&
    (forall id | id in ids :: exists k :: DueAt(rows, id, now, k)) &&
    forall k | 0 <= k < |rows| && Due(rows[k], now) && rows[k].artifact.id !in ids ::
      |ids| == 200 && forall j | k < j < |rows| :: rows[j].artifact.id !in ids
  }

  /** What a pass over the ids does to row `i` and its bytes. */
  ghost predicate Passed(t: Table, x: Table, ids: seq<Id>, reach: Id -> Reach, i: nat)
    requires i < |t.rows| && i < |x.rows|
  {
    var o, key := t.rows[i], KeyOf(t.rows[i]);
    if o.artifact.id !in ids || o.state.Deleted? || reach(o.artifact.id).Nothing?
    then x.rows[i] == o && (key in x.bytes <==> key in t.bytes) && (key in t.bytes ==> x.bytes[key] == t.bytes[key])
    else x.rows[i] == (if reach(o.artifact.id).Everything? then o.(state := Deleted) else o) && key !in x.bytes
  }

  function Finished(ids: seq<Id>, reach: Id -> Reach): set<Id> {
    set id | id in ids && reach(id).Everything?
  }

  lemma OneMoreFinished(ids: seq<Id>, i: nat, reach: Id -> Reach)
    requires i < |ids| && NoneTwice(ids)
    ensures ids[i] !in ids[..i]
    ensures |Finished(ids[..i + 1], reach)| == |Finished(ids[..i], reach)| + if reach(ids[i]).Everything? then 1 else 0
  {
    assert ids[..i + 1] == ids[..i] + [ids[i]];
    assert Finished(ids[..i + 1], reach) == Finished(ids[..i], reach) + if reach(ids[i]).Everything? then {ids[i]} else {};
  }

  /** A listed artifact has a row, which is not deleted when the pass comes to it. */
  lemma NextIsThere(t: Table, ids: seq<Id>, now: Time, reach: Id -> Reach, i: nat)
    requires Unique(t.rows) && i < |ids| && Listed(t.rows, ids, now)
    ensures var rows := RemoveAll(t, ids[..i], reach).rows;
            Find(rows, ids[i]).Some? && !rows[Find(rows, ids[i]).value].state.Deleted?
  {
    PassAt(t, ids[..i], reach);
    assert ids[i] in ids;
    var k :| DueAt(t.rows, ids[i], now, k);
    assert ids[i] !in ids[..i];
    assert Passed(t, RemoveAll(t, ids[..i], reach), ids[..i], reach, k);
  }

  lemma RemovalAt(t: Table, id: Id, reach: Reach, i: nat)
    requires Unique(t.rows) && i < |t.rows|
    ensures |Remove(t, id, reach).rows| == |t.rows| && Unique(Remove(t, id, reach).rows)
    ensures Passed(t, Remove(t, id, reach), [id], (k: Id) => reach, i)
  {
    var f := Find(t.rows, id);
    if f.Some? && f.value != i { assert t.rows[i].artifact.id != t.rows[f.value].artifact.id; }
  }

  lemma {:induction false} PassAt(t: Table, ids: seq<Id>, reach: Id -> Reach)
    requires Unique(t.rows)
    ensures var x := RemoveAll(t, ids, reach);
            |x.rows| == |t.rows| && Unique(x.rows) && forall i | 0 <= i < |t.rows| :: Passed(t, x, ids, reach, i)
  {
    if ids != [] {
      var rest, id := ids[..|ids| - 1], ids[|ids| - 1];
      assert ids == rest + [id];
      PassAt(t, rest, reach);
      var x := RemoveAll(t, rest, reach);
      forall i | 0 <= i < |t.rows| ensures Passed(t, RemoveAll(t, ids, reach), ids, reach, i) {
        RemovalAt(x, id, reach(id), i);
        assert Passed(t, x, rest, reach, i);
      }
      if 0 < |x.rows| { RemovalAt(x, id, reach(id), 0); }
    }
  }

  lemma {:induction false} PassKeeps(t: Table, ids: seq<Id>, reach: Id -> Reach)
    requires Sound(t)
    ensures Sound(RemoveAll(t, ids, reach))
  {
    if ids != [] {
      PassKeeps(t, ids[..|ids| - 1], reach);
      RemoveKeeps(RemoveAll(t, ids[..|ids| - 1], reach), ids[|ids| - 1], reach(ids[|ids| - 1]));
    }
  }
}
