/**
 The gateway under every history: requests, dispatches, answers, approvals, sweeps, reconciliations,
 runtime events and stopped control planes in any order, with any clock readings. The outside world
 is here too: which connector calls were made, what they answered and which writes really happened.
 */
module GatewayHistory {
  import opened Wrappers
  import opened CanonicalJson
  import opened RunLifecycle
  import opened ActionGateway
  import Policy
  import ChangeSet

  /** A committed dispatch held by a live control plane, and the connector's answer once it has it. */
  datatype Flight = Flight(commitment: Commitment, reply: Option<Reply>)

  datatype World = World(
    db: Db, flights: map<Id, Flight>, calls: seq<Commitment>, replies: map<Id, Reply>, happened: set<Id>)

  datatype Act =
    | CreateRun(run: Id, row: Run)
    | AskAction(q: Asked, v: View, now: Time, approvalId: Id)
    | AskExecution(run: Id, requestId: Id, step: Id, v: View, now: Time)
    | CallConnector(requestId: Id, reply: Reply, takesEffect: bool)
    | RecordOutcome(requestId: Id)
    | StopDispatcher(requestId: Id)
    | CloseInterrupted(batch: seq<Id>, now: Time)
    | AskGrant(run: Id, requestId: Id, step: Id, v: View, now: Time, grantId: Id)
    | SweepApprovals(now: Time, organization: Option<Id>)
    | DecideOn(approvalId: Id, approved: bool, actor: Id, tenant: Id, now: Time)
    | Reconcile(tenant: Id, requestId: Id, found: bool)
    | Event(run: Id, event: RunEvent, approvalId: Id, reason: Option<string>)
    | Cancel(run: Id, because: string)

  /** What is assumed of connectors: success means done, a definite error means not done. */
  predicate Honest(reply: Reply, takesEffect: bool) {
    match reply
    case Returned => takesEffect
    case ConnectorError(code) => code.OutcomeUnknown? || !takesEffect
    case OtherError => true
  }

  const Empty := World(Db(map[], map[], map[], map[], map[], map[]), map[], [], map[], {})

  function Called(w: World, r: Id, reply: Reply, takesEffect: bool): World
    requires r in w.flights
  {
    w.(flights := w.flights[r := w.flights[r].(reply := Some(reply))],
       calls := w.calls + [w.flights[r].commitment],
       replies := w.replies[r := reply],
       happened := if takesEffect then w.happened + {r} else w.happened)
  }

  function Recorded(w: World, r: Id): World
    requires r in w.flights && w.flights[r].reply.Some?
  {
    var c := w.flights[r].commitment;
    w.(db := CompleteExecution(w.db, c, Outcome(EffectOf(c.action), w.flights[r].reply.value)),
       flights := w.flights - {r})
  }

  function Prepared(w: World, r: Id, plan: (Db, Answer<Plan>)): World {
    if plan.1.Ok? && plan.1.value.Dispatch?
    then w.(db := plan.0, flights := w.flights[r := Flight(plan.1.value.commitment, None)])
    else w.(db := plan.0)
  }

  predicate AllStale(db: Db, stale: nat, now: Time, batch: seq<Id>) {
    |batch| <= SWEEP_LIMIT && forall r | r in batch :: Stale(db, stale, now, r)
  }

  /** `stale` is how long a dispatch without an outcome is left alone. */
  function Apply(stale: nat, w: World, act: Act): World {
    match act
    case CreateRun(run, row) =>
      if run in w.db.runs || !row.status.Queued? || row.reason.Some? then w
      else w.(db := w.db.(runs := w.db.runs[run := row]))
    case AskAction(q, v, now, approvalId) => w.(db := RequestAction(w.db, q, v, now, approvalId).0)
    case AskExecution(run, r, step, v, now) => Prepared(w, r, PrepareExecution(w.db, run, r, step, v, stale, now))
    case CallConnector(r, reply, takesEffect) =>
      if r in w.flights && w.flights[r].reply.None? && Honest(reply, takesEffect)
      then Called(w, r, reply, takesEffect) else w
    case RecordOutcome(r) => if r in w.flights && w.flights[r].reply.Some? then Recorded(w, r) else w
    case StopDispatcher(r) => w.(flights := w.flights - {r})
    case CloseInterrupted(batch, now) =>
      if AllStale(w.db, stale, now, batch) then w.(db := InterruptAll(w.db, batch)) else w
    case AskGrant(run, r, step, v, now, grantId) => w.(db := IssueGrant(w.db, run, r, step, v, now, grantId).0)
    case SweepApprovals(now, organization) => w.(db := ExpireDue(w.db, now, organization))
    case DecideOn(id, approved, actor, tenant, now) =>
      w.(db := DecideApproval(w.db, id, approved, actor, tenant, now).0)
    case Reconcile(tenant, r, found) => w.(db := ResolveReconciliation(w.db, tenant, r, found).0)
    case Event(run, event, approvalId, reason) => w.(db := IngestEvent(w.db, run, event, approvalId, reason).0)
    case Cancel(run, because) => w.(db := CancelRun(w.db, run, because).0)
  }

  function After(stale: nat, acts: seq<Act>): World {
    if acts == [] then Empty else Apply(stale, After(stale, acts[..|acts| - 1]), acts[|acts| - 1])
  }

  // ---- Frames -----------------------------------------------------------------------------

  /** Who and where a run is never changes. */
  ghost predicate SameRuns(a: map<Id, ActionGateway.Run>, b: map<Id, ActionGateway.Run>) {
    forall r | r in a :: r in b && b[r].organization == a[r].organization && b[r].thread == a[r].thread &&
                         b[r].employee == a[r].employee
  }

  /** Nothing about request `r` but its approval and its run's status may differ. */
  ghost predicate AgreeAt(w: World, x: World, r: Id) {
    SameRuns(w.db.runs, x.db.runs) &&
    (r in w.db.requests <==> r in x.db.requests) && (r in w.db.requests ==> w.db.requests[r] == x.db.requests[r]) &&
    (r in w.db.executions <==> r in x.db.executions) &&
    (r in w.db.executions ==> w.db.executions[r] == x.db.executions[r]) &&
    (r in w.db.reconciliations <==> r in x.db.reconciliations) &&
    (r in w.db.reconciliations ==>
       w.db.reconciliations[r].(standing := Required) == x.db.reconciliations[r].(standing := Required)) &&
    (r in w.flights <==> r in x.flights) && (r in w.flights ==> w.flights[r] == x.flights[r]) &&
    (r in w.replies <==> r in x.replies) && (r in w.replies ==> w.replies[r] == x.replies[r]) &&
    (r in w.happened <==> r in x.happened)
  }

  // ---- Truth ------------------------------------------------------------------------------

  predicate IsWrite(w: World, r: Id)
    requires r in w.db.requests
  {
    EffectOf(w.db.requests[r].action).Write?
  }

  /** The outcome on record is unknown. */
  predicate Unresolved(w: World, r: Id) {
    r in w.db.requests && r in w.db.executions && IsWrite(w, r) &&
    w.db.executions[r].progress.Broken? && UnknownCode(w.db.executions[r].progress.code)
  }

  ghost predicate RowsAt(w: World, r: Id) {
    (r in w.db.requests ==>
       w.db.requests[r].run in w.db.runs &&
       w.db.requests[r].organization == w.db.runs[w.db.requests[r].run].organization) &&
    (r in w.db.executions ==>
       r in w.db.requests && w.db.executions[r].organization == w.db.requests[r].organization &&
       w.db.executions[r].run == w.db.requests[r].run &&
       (w.db.executions[r].progress.Dispatching? || Unresolved(w, r) ==> w.db.requests[r].parameters.Some?))
  }

  /** What a committed dispatch carries is what the request recorded. */
  ghost predicate CarriesRequest(w: World, r: Id, c: Commitment) {
    r in w.db.requests &&
    var q := w.db.requests[r];
    c.requestId == r && c.organization == q.organization && c.run == q.run && c.action == q.action &&
    Some(c.parameters) == q.parameters && c.changes == q.changes && c.payloadDigest == DigestOf(c.parameters)
  }

  ghost predicate FlightAt(w: World, r: Id) {
    r in w.flights ==>
      CarriesRequest(w, r, w.flights[r].commitment) && r in w.db.executions &&
      (w.db.executions[r].progress.Dispatching? || w.db.executions[r].progress == Broken(INTERRUPTED)) &&
      (if w.flights[r].reply.None? then r !in w.replies
       else r in w.replies && w.replies[r] == w.flights[r].reply.value)
  }

  /** The record never claims more than the connector said, and a definite failure did not happen. */
  ghost predicate TruthAt(w: World, r: Id) {
    (r in w.replies ==> r in w.db.executions && Honest(w.replies[r], r in w.happened)) &&
    (r in w.happened ==> r in w.replies) &&
    (r in w.db.executions && r in w.db.requests ==>
       match w.db.executions[r].progress
       case Dispatching => true
       case Succeeded => r in w.replies && w.replies[r].Returned?
       case Broken(code) => UnknownCode(code) || !IsWrite(w, r) || (r !in w.happened && r !in w.flights))
  }

  /** A reconciliation row stands exactly for each write whose recorded outcome is unknown. */
  ghost predicate ReconciledAt(w: World, r: Id) {
    (r in w.db.reconciliations <==> Unresolved(w, r)) &&
    (r in w.db.reconciliations ==>
       var q, x := w.db.requests[r], w.db.reconciliations[r];
       q.run in w.db.runs && q.parameters.Some? && x.organization == q.organization && x.run == q.run &&
       x.thread == w.db.runs[q.run].thread && x.action == q.action && x.payloadDigest == DigestOf(q.parameters.value) &&
       w.db.executions[r].progress == Broken(x.reason))
  }

  ghost predicate At(w: World, r: Id) {
    RowsAt(w, r) && FlightAt(w, r) && TruthAt(w, r) && ReconciledAt(w, r)
  }

  ghost predicate Core(w: World) {
    forall r :: At(w, r)
  }

  lemma AgreeKeeps(w: World, x: World, r: Id)
    requires At(w, r) && AgreeAt(w, x, r)
    ensures At(x, r)
  {}

  /** A step that touches one request keeps the rest. */
  lemma OneRequest(w: World, x: World, r: Id)
    requires Core(w) && At(x, r) && forall s | s != r :: AgreeAt(w, x, s)
    ensures Core(x)
  {
    forall s ensures At(x, s) {
      if s != r {
        assert At(w, s);
        AgreeKeeps(w, x, s);
      }
    }
  }

  lemma NoRequest(w: World, x: World)
    requires Core(w) && forall s :: AgreeAt(w, x, s)
    ensures Core(x)
  {
    forall s ensures At(x, s) {
      assert At(w, s);
      AgreeKeeps(w, x, s);
    }
  }

  lemma ExpireAgrees(w: World, due: set<Id>)
    ensures forall s :: AgreeAt(w, w.(db := Expire(w.db, due)), s)
  {}

  /** One row more, for a run that stays who it is. */
  ghost predicate OneMore(db: Db, after: Db, q: Asked) {
    q.run in db.runs && q.requestId in after.requests &&
    after.requests == db.requests[q.requestId := after.requests[q.requestId]] &&
    after.requests[q.requestId].run == q.run && after.requests[q.requestId].organization == db.runs[q.run].organization &&
    after.executions == db.executions && after.reconciliations == db.reconciliations && SameRuns(db.runs, after.runs)
  }

  lemma EnactCases(db: Db, q: Asked, a: Assessment, now: Time, approvalId: Id)
    requires q.run in db.runs && db.runs[q.run].status.Running?
    ensures var (after, answer) := Enact(db, q, a, now, approvalId);
            if answer.Ok? then OneMore(db, after, q) else after == db
  {}

  /** A request leaves one row more, or nothing. */
  lemma RequestCases(db: Db, q: Asked, v: View, now: Time, approvalId: Id)
    ensures var after := RequestAction(db, q, v, now, approvalId).0;
            after == db || (q.requestId !in db.requests && OneMore(db, after, q))
  {
    if q.run in db.runs && db.runs[q.run].status.Running? {
      EnactCases(db, q, Verdict(db, db.runs[q.run], q, v), now, approvalId);
    }
  }

  lemma RequestKeeps(w: World, q: Asked, v: View, now: Time, approvalId: Id)
    requires Core(w)
    ensures Core(w.(db := RequestAction(w.db, q, v, now, approvalId).0))
  {
    var x := w.(db := RequestAction(w.db, q, v, now, approvalId).0);
    RequestCases(w.db, q, v, now, approvalId);
    if x.db != w.db {
      assert At(w, q.requestId);
      OneRequest(w, x, q.requestId);
    }
  }

  lemma RefuseKeeps(w: World, r: Id, code: string, now: Time)
    requires Core(w) && r in w.db.requests && r !in w.db.executions && !UnknownCode(code)
    ensures Core(w.(db := Refuse(w.db, w.db.requests[r], r, code, now).0))
  {
    assert At(w, r);
    OneRequest(w, w.(db := Refuse(w.db, w.db.requests[r], r, code, now).0), r);
  }

  lemma CommitKeeps(w: World, r: Id, now: Time)
    requires Core(w) && r in w.db.requests && r !in w.db.executions && w.db.requests[r].parameters.Some?
    ensures Core(Prepared(w, r, Commit(w.db, w.db.requests[r], r, now)))
  {
    assert At(w, r);
    OneRequest(w, Prepared(w, r, Commit(w.db, w.db.requests[r], r, now)), r);
  }

  lemma InterruptKeeps(w: World, r: Id)
    requires Core(w)
    ensures Core(w.(db := Interrupt(w.db, r)))
  {
    assert At(w, r);
    OneRequest(w, w.(db := Interrupt(w.db, r)), r);
  }

  lemma {:induction false} InterruptAllKeeps(w: World, batch: seq<Id>)
    requires Core(w)
    ensures Core(w.(db := InterruptAll(w.db, batch)))
  {
    if batch != [] {
      InterruptAllKeeps(w, batch[..|batch| - 1]);
      InterruptKeeps(w.(db := InterruptAll(w.db, batch[..|batch| - 1])), batch[|batch| - 1]);
    }
  }

  lemma DispatchProblemIsKnown(db: Db, run: ActionGateway.Run, q: Request, v: View, now: Time)
    ensures DispatchProblem(db, run, q, v, now).Some? ==> !UnknownCode(DispatchProblem(db, run, q, v, now).value)
  {}

  /** The ways an execution request can go, on the swept tables. */
  lemma PrepareCases(db: Db, run: Id, r: Id, step: Id, v: View, stale: nat, now: Time)
    requires run in db.runs && Prepare(db, run, r, step, v, stale, now).1.Ok?
    ensures var (after, answer) := Prepare(db, run, r, step, v, stale, now);
            FindRequest(db, run, r, step) == Ok(db.requests[r]) &&
            if r in db.executions then answer.value.Finished? && (after == db || after == Interrupt(db, r))
            else match DispatchProblem(db, db.runs[run], db.requests[r], v, now)
              case Some(code) => (after, answer) == Refuse(db, db.requests[r], r, code, now)
              case None => db.requests[r].parameters.Some? && (after, answer) == Commit(db, db.requests[r], r, now)
  {}

  lemma PrepareKeeps(stale: nat, w: World, act: Act)
    requires Core(w) && act.AskExecution?
    ensures Core(Apply(stale, w, act))
  {
    var plan := PrepareExecution(w.db, act.run, act.requestId, act.step, act.v, stale, act.now);
    if plan.1.Ok? {
      var due := Due(w.db, act.now, Some(w.db.runs[act.run].organization));
      var swept := w.(db := Expire(w.db, due));
      ExpireAgrees(w, due);
      NoRequest(w, swept);
      PrepareCases(swept.db, act.run, act.requestId, act.step, act.v, stale, act.now);
      if act.requestId in swept.db.executions {
        InterruptKeeps(swept, act.requestId);
      } else {
        var q := swept.db.requests[act.requestId];
        DispatchProblemIsKnown(swept.db, swept.db.runs[act.run], q, act.v, act.now);
        match DispatchProblem(swept.db, swept.db.runs[act.run], q, act.v, act.now) {
          case Some(code) => RefuseKeeps(swept, act.requestId, code, act.now);
          case None => CommitKeeps(swept, act.requestId, act.now);
        }
      }
    }
  }

  lemma CallKeeps(w: World, r: Id, reply: Reply, takesEffect: bool)
    requires Core(w) && r in w.flights && w.flights[r].reply.None? && Honest(reply, takesEffect)
    ensures Core(Called(w, r, reply, takesEffect))
  {
    assert At(w, r);
    OneRequest(w, Called(w, r, reply, takesEffect), r);
  }

  lemma RecordKeeps(w: World, r: Id)
    requires Core(w) && r in w.flights && w.flights[r].reply.Some?
    ensures Core(Recorded(w, r))
  {
    assert At(w, r);
    OneRequest(w, Recorded(w, r), r);
  }

  lemma StopKeeps(w: World, r: Id)
    requires Core(w)
    ensures Core(w.(flights := w.flights - {r}))
  {
    assert At(w, r);
    OneRequest(w, w.(flights := w.flights - {r}), r);
  }

  ghost predicate SameRecord(a: Db, b: Db) {
    b.requests == a.requests && b.executions == a.executions && b.reconciliations == a.reconciliations &&
    SameRuns(a.runs, b.runs)
  }

  lemma SameRecordKeeps(w: World, db: Db)
    requires Core(w) && SameRecord(w.db, db)
    ensures Core(w.(db := db))
  {
    forall s ensures AgreeAt(w, w.(db := db), s) {}
    NoRequest(w, w.(db := db));
  }

  lemma ExpiryLeavesTheRecord(db: Db, due: set<Id>)
    ensures SameRecord(db, Expire(db, due))
  {}

  lemma GrantsLeaveTheRecord(db: Db, run: Id, r: Id, step: Id, v: View, now: Time, grantId: Id)
    ensures SameRecord(db, IssueGrant(db, run, r, step, v, now, grantId).0)
  {
    if run in db.runs && db.runs[run].status.Running? {
      var swept := ExpireDue(db, now, Some(db.runs[run].organization));
      ExpiryLeavesTheRecord(db, Due(db, now, Some(db.runs[run].organization)));
      IssuingTouchesGrants(swept, run, r, step, v, now, grantId);
    }
  }

  lemma IssuingTouchesGrants(db: Db, run: Id, r: Id, step: Id, v: View, now: Time, grantId: Id)
    requires run in db.runs
    ensures Issue(db, run, r, step, v, now, grantId).0 == db.(grants := Issue(db, run, r, step, v, now, grantId).0.grants)
  {}

  lemma DecisionLeavesTheRecord(db: Db, run: Id, approved: bool)
    ensures SameRecord(db, OnApprovalDecided(db, run, approved))
  {}

  lemma ApprovalsLeaveTheRecord(db: Db, id: Id, approved: bool, actor: Id, tenant: Id, now: Time)
    ensures SameRecord(db, DecideApproval(db, id, approved, actor, tenant, now).0)
  {
    var swept := ExpireDue(db, now, Some(tenant));
    ExpiryLeavesTheRecord(db, Due(db, now, Some(tenant)));
    var after := DecideApproval(db, id, approved, actor, tenant, now).0;
    if after != swept {
      var decided := swept.(approvals := swept.approvals[id := swept.approvals[id].(
                              status := if approved then Approved else ApprovalStatus.Rejected, decidedBy := Some(actor))]);
      DecisionLeavesTheRecord(decided, swept.approvals[id].run, approved);
    }
  }

  lemma EventsLeaveTheRecord(db: Db, run: Id, event: RunEvent, approvalId: Id, reason: Option<string>)
    ensures SameRecord(db, IngestEvent(db, run, event, approvalId, reason).0)
  {
    var after := IngestEvent(db, run, event, approvalId, reason).0;
    assert after == db.(runs := after.runs);
    assert after == db || (run in db.runs && exists to :: after.runs == db.runs[run := db.runs[run].(status := to, reason := reason)]);
  }

  lemma ReconcileKeeps(w: World, tenant: Id, r: Id, found: bool)
    requires Core(w)
    ensures Core(w.(db := ResolveReconciliation(w.db, tenant, r, found).0))
  {
    assert At(w, r);
    OneRequest(w, w.(db := ResolveReconciliation(w.db, tenant, r, found).0), r);
  }

  predicate AboutPermissions(act: Act) {
    act.CreateRun? || act.AskGrant? || act.SweepApprovals? || act.DecideOn? || act.Event? || act.Cancel?
  }

  /** Acts about approvals, grants and runs leave the record of requests and outcomes alone. */
  lemma PermissionsLeaveTheRecord(stale: nat, w: World, act: Act)
    requires AboutPermissions(act)
    ensures Apply(stale, w, act) == w.(db := Apply(stale, w, act).db)
    ensures SameRecord(w.db, Apply(stale, w, act).db)
  {
    match act {
      case AskGrant(run, r, step, v, now, grantId) => GrantsLeaveTheRecord(w.db, run, r, step, v, now, grantId);
      case SweepApprovals(now, organization) => ExpiryLeavesTheRecord(w.db, Due(w.db, now, organization));
      case DecideOn(id, approved, actor, tenant, now) => ApprovalsLeaveTheRecord(w.db, id, approved, actor, tenant, now);
      case Event(run, event, approvalId, reason) => EventsLeaveTheRecord(w.db, run, event, approvalId, reason);
      case _ =>
    }
  }

  lemma ApplyKeeps(stale: nat, w: World, act: Act)
    requires Core(w)
    ensures Core(Apply(stale, w, act))
  {
    match act {
      case AskAction(q, v, now, approvalId) => RequestKeeps(w, q, v, now, approvalId);
      case AskExecution(_, _, _, _, _) => PrepareKeeps(stale, w, act);
      case CallConnector(r, reply, takesEffect) =>
        if r in w.flights && w.flights[r].reply.None? && Honest(reply, takesEffect) { CallKeeps(w, r, reply, takesEffect); }
      case RecordOutcome(r) => if r in w.flights && w.flights[r].reply.Some? { RecordKeeps(w, r); }
      case StopDispatcher(r) => StopKeeps(w, r);
      case CloseInterrupted(batch, now) => InterruptAllKeeps(w, batch);
      case Reconcile(tenant, r, found) => ReconcileKeeps(w, tenant, r, found);
      case _ =>
        PermissionsLeaveTheRecord(stale, w, act);
        SameRecordKeeps(w, Apply(stale, w, act).db);
    }
  }

  lemma {:induction false} EveryHistoryKeeps(stale: nat, acts: seq<Act>)
    ensures Core(After(stale, acts))
  {
    if acts != [] {
      EveryHistoryKeeps(stale, acts[..|acts| - 1]);
      ApplyKeeps(stale, After(stale, acts[..|acts| - 1]), acts[|acts| - 1]);
    }
  }
}
