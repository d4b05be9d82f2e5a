/**
 Who allowed what: at every dispatch and every grant, over every history of decisions, expiries,
 policy edits and clock readings. Also the runs: they move only along their table, and one that
 waits is released by an approval and nothing else.
 */
module GatewayPermissions {
  import opened Wrappers
  import opened CanonicalJson
  import opened RunLifecycle
  import opened ActionGateway
  import opened GatewayHistory
  import opened GatewayTheorems
  import Policy
  import ChangeSet

  // ---- Approvals and the runs they pause --------------------------------------------------

  predicate Halted(s: RunStatus) {
    s.WaitingForApproval? || s.Failed? || s.Cancelled?
  }

  ghost predicate ApprovalAt(db: Db, id: Id) {
    id in db.approvals ==>
      var a := db.approvals[id];
      a.run in db.runs && a.requestedBy == db.runs[a.run].employee &&
      (a.status.Pending? ==> Halted(db.runs[a.run].status)) &&
      (a.status.Approved? ==> a.decidedBy.Some? && a.decidedBy.value != a.requestedBy)
  }

  /** One pending approval per run. */
  ghost predicate Alone(db: Db, a: Id, b: Id) {
    (a in db.approvals && b in db.approvals && db.approvals[a].status.Pending? && db.approvals[b].status.Pending? &&
     db.approvals[a].run == db.approvals[b].run) ==> a == b
  }

  ghost predicate RequestAt(db: Db, r: Id) {
    r in db.requests ==>
      var q := db.requests[r];
      q.run in db.runs &&
      (q.changes.Some? ==> q.changes.value.digest == DigestOf(ChangeSet.Payload(q.changes.value.files))) &&
      (q.decision.ApprovalRequired? ==>
         q.approvalId.Some? && q.approvalId.value in db.approvals && db.approvals[q.approvalId.value].run == q.run)
  }

  /** A grant is for the recorded payload and ends with its approval, or ten minutes after it was issued. */
  ghost predicate GrantAt(db: Db, r: Id) {
    r in db.grants ==>
      r in db.requests && db.requests[r].parameters.Some? &&
      var g, q := db.grants[r], db.requests[r];
      g.run == q.run && g.operationDigest == DigestOf(q.parameters.value) && g.expiresAt <= g.issuedAt + GRANT_MS &&
      (q.decision.ApprovalRequired? ==>
         q.approvalId.Some? && q.approvalId.value in db.approvals && g.expiresAt <= db.approvals[q.approvalId.value].expiresAt)
  }

  ghost predicate OwnGrants(db: Db) {
    forall r, s | r in db.grants && s in db.grants && db.grants[r].grantId == db.grants[s].grantId :: r == s
  }

  ghost predicate Permitted(db: Db) {
    (forall id :: ApprovalAt(db, id)) && (forall a, b :: Alone(db, a, b)) &&
    (forall r :: RequestAt(db, r)) && (forall r :: GrantAt(db, r)) && OwnGrants(db)
  }

  /** Rows may change status, but not what they are about. */
  ghost predicate SamePermissions(a: Db, b: Db) {
    b.requests == a.requests && b.grants == a.grants && SameRuns(a.runs, b.runs) &&
    b.approvals.Keys == a.approvals.Keys &&
    forall id | id in a.approvals ::
      b.approvals[id].run == a.approvals[id].run && b.approvals[id].requestedBy == a.approvals[id].requestedBy &&
      b.approvals[id].expiresAt == a.approvals[id].expiresAt
  }

  lemma SamePermissionsKeep(a: Db, b: Db)
    requires Permitted(a) && SamePermissions(a, b)
    requires forall id :: ApprovalAt(b, id)
    requires forall id | id in b.approvals && b.approvals[id].status.Pending? :: a.approvals[id].status.Pending?
    ensures Permitted(b)
  {
    forall x, y ensures Alone(b, x, y) { assert Alone(a, x, y); }
    forall r ensures RequestAt(b, r) { assert RequestAt(a, r); }
    forall r ensures GrantAt(b, r) { assert GrantAt(a, r); }
  }

  lemma ExpireKeeps(db: Db, due: set<Id>)
    requires Permitted(db)
    ensures Permitted(Expire(db, due))
  {
    var x := Expire(db, due);
    forall id ensures ApprovalAt(x, id) { assert ApprovalAt(db, id); }
    SamePermissionsKeep(db, x);
  }

  /** Runs whose status does not come back to life leave every permission as it is. */
  lemma RunMovesKeep(db: Db, run: Id, row: ActionGateway.Run)
    requires Permitted(db)
    requires run in db.runs ==> row.(status := db.runs[run].status, reason := db.runs[run].reason) == db.runs[run]
    requires run in db.runs && Halted(db.runs[run].status) ==> Halted(row.status)
    ensures Permitted(db.(runs := db.runs[run := row]))
  {
    var x := db.(runs := db.runs[run := row]);
    forall id ensures ApprovalAt(x, id) { assert ApprovalAt(db, id); }
    SamePermissionsKeep(db, x);
  }

  function DecidedBy(a: Approval, approved: bool, actor: Id): Approval {
    a.(status := if approved then Approved else ApprovalStatus.Rejected, decidedBy := Some(actor))
  }

  lemma DecidedRowKeeps(db: Db, id: Id, approved: bool, actor: Id)
    requires Permitted(db) && id in db.approvals && db.approvals[id].status.Pending? && db.approvals[id].requestedBy != actor
    ensures Permitted(db.(approvals := db.approvals[id := DecidedBy(db.approvals[id], approved, actor)]))
  {
    var x := db.(approvals := db.approvals[id := DecidedBy(db.approvals[id], approved, actor)]);
    forall other ensures ApprovalAt(x, other) { assert ApprovalAt(db, other); }
    SamePermissionsKeep(db, x);
  }

  /** The run a decided approval paused waits for no other. */
  lemma ReleaseKeeps(db: Db, run: Id, approved: bool)
    requires Permitted(db)
    requires forall id | id in db.approvals && db.approvals[id].run == run :: !db.approvals[id].status.Pending?
    ensures Permitted(OnApprovalDecided(db, run, approved))
  {
    var x := OnApprovalDecided(db, run, approved);
    forall id ensures ApprovalAt(x, id) { assert ApprovalAt(db, id); }
    SamePermissionsKeep(db, x);
  }

  lemma DecisionKeeps(db: Db, id: Id, approved: bool, actor: Id)
    requires Permitted(db) && id in db.approvals && db.approvals[id].status.Pending? && db.approvals[id].requestedBy != actor
    ensures Permitted(OnApprovalDecided(db.(approvals := db.approvals[id := DecidedBy(db.approvals[id], approved, actor)]),
                                        db.approvals[id].run, approved))
  {
    var x := db.(approvals := db.approvals[id := DecidedBy(db.approvals[id], approved, actor)]);
    DecidedRowKeeps(db, id, approved, actor);
    forall other | other in x.approvals && x.approvals[other].run == db.approvals[id].run
      ensures !x.approvals[other].status.Pending?
    {
      assert Alone(db, id, other);
    }
    ReleaseKeeps(x, db.approvals[id].run, approved);
  }

  lemma DecideOnKeeps(db: Db, id: Id, approved: bool, actor: Id, tenant: Id, now: Time)
    requires Permitted(db)
    ensures Permitted(DecideApproval(db, id, approved, actor, tenant, now).0)
  {
    var swept := ExpireDue(db, now, Some(tenant));
    ExpireKeeps(db, Due(db, now, Some(tenant)));
    if id in swept.approvals && swept.approvals[id].status.Pending? && swept.approvals[id].requestedBy != actor {
      DecisionKeeps(swept, id, approved, actor);
    }
  }

  lemma AssessedChanges(action: string, parameters: Option<Json>, first: bool, v: View)
    ensures var c := Assess(action, parameters, first, v).changes;
            c.Some? ==> c.value.digest == DigestOf(ChangeSet.Payload(c.value.files))
  {}

  lemma RecordKeeps(db: Db, q: Asked, row: Request)
    requires Permitted(db) && q.requestId !in db.requests && q.requestId !in db.grants
    requires var x := db.(requests := db.requests[q.requestId := row]); RequestAt(x, q.requestId)
    ensures Permitted(db.(requests := db.requests[q.requestId := row]))
  {
    var x := db.(requests := db.requests[q.requestId := row]);
    forall id ensures ApprovalAt(x, id) { assert ApprovalAt(db, id); }
    forall a, b ensures Alone(x, a, b) { assert Alone(db, a, b); }
    forall r ensures RequestAt(x, r) { assert RequestAt(db, r); }
    forall r ensures GrantAt(x, r) { assert GrantAt(db, r); }
  }

  lemma PauseKeeps(db: Db, run: Id, id: Id, approval: Approval)
    requires Permitted(db) && run in db.runs && db.runs[run].status.Running? && id !in db.approvals
    requires approval.run == run && approval.requestedBy == db.runs[run].employee && approval.status.Pending?
    ensures Permitted(Pause(db.(approvals := db.approvals[id := approval]), run))
  {
    var x := Pause(db.(approvals := db.approvals[id := approval]), run);
    forall other ensures ApprovalAt(x, other) { assert ApprovalAt(db, other); }
    forall a, b ensures Alone(x, a, b) { assert Alone(db, a, b) && ApprovalAt(db, a) && ApprovalAt(db, b); }
    forall r ensures RequestAt(x, r) { assert RequestAt(db, r); }
    forall r ensures GrantAt(x, r) { assert GrantAt(db, r) && RequestAt(db, r); }
  }

  lemma EnactKeeps(db: Db, q: Asked, a: Assessment, now: Time, approvalId: Id)
    requires Permitted(db) && q.run in db.runs && db.runs[q.run].status.Running? && q.requestId !in db.requests
    requires a.changes.Some? ==> a.changes.value.digest == DigestOf(ChangeSet.Payload(a.changes.value.files))
    ensures Permitted(Enact(db, q, a, now, approvalId).0)
  {
    var run := db.runs[q.run];
    assert GrantAt(db, q.requestId);
    if a.outcome != Policy.RequireApproval {
      RecordKeeps(db, q, RequestRow(run, q, a, None));
    } else if approvalId !in db.approvals {
      var approval := Approval(run.organization, run.employee, q.run, Pending, None,
                               now + a.approvalTtlSeconds.UnwrapOr(3600) * 1000);
      PauseKeeps(db, q.run, approvalId, approval);
      RecordKeeps(Pause(db.(approvals := db.approvals[approvalId := approval]), q.run), q,
                  RequestRow(run, q, a, Some(approvalId)));
    }
  }

  lemma IssueKeeps(db: Db, run: Id, r: Id, step: Id, v: View, now: Time, grantId: Id)
    requires Permitted(db) && run in db.runs
    ensures Permitted(Issue(db, run, r, step, v, now, grantId).0)
  {
    var x := Issue(db, run, r, step, v, now, grantId).0;
    if x != db {
      assert RequestAt(db, r);
      forall id ensures ApprovalAt(x, id) { assert ApprovalAt(db, id); }
      forall a, b ensures Alone(x, a, b) { assert Alone(db, a, b); }
      forall s ensures RequestAt(x, s) { assert RequestAt(db, s); }
      forall s ensures GrantAt(x, s) { assert GrantAt(db, s); }
    }
  }

  lemma GrantKeeps(db: Db, run: Id, r: Id, step: Id, v: View, now: Time, grantId: Id)
    requires Permitted(db)
    ensures Permitted(IssueGrant(db, run, r, step, v, now, grantId).0)
  {
    if run in db.runs {
      var due := Due(db, now, Some(db.runs[run].organization));
      ExpireKeeps(db, due);
      IssueKeeps(Expire(db, due), run, r, step, v, now, grantId);
    }
  }

  lemma EventKeeps(db: Db, run: Id, event: RunEvent, approvalId: Id, reason: Option<string>)
    requires Permitted(db)
    ensures Permitted(IngestEvent(db, run, event, approvalId, reason).0)
  {
    var x := IngestEvent(db, run, event, approvalId, reason).0;
    if x != db {
      RuntimesStayOnTheTable(db.runs[run].status, db.runs[run].reason, event);
      RunMovesKeep(db, run, x.runs[run]);
    }
  }

  lemma PermissionActsKeep(stale: nat, w: World, act: Act)
    requires Permitted(w.db) && AboutPermissions(act)
    ensures Permitted(Apply(stale, w, act).db)
  {
    match act {
      case CreateRun(run, row) =>
        if run !in w.db.runs { RunMovesKeep(w.db, run, row); }
      case AskGrant(run, r, step, v, now, grantId) =>
        GrantKeeps(w.db, run, r, step, v, now, grantId);
      case SweepApprovals(now, organization) => ExpireKeeps(w.db, Due(w.db, now, organization));
      case DecideOn(id, approved, actor, tenant, now) =>
        DecideOnKeeps(w.db, id, approved, actor, tenant, now);
      case Event(run, event, approvalId, reason) => EventKeeps(w.db, run, event, approvalId, reason);
      case Cancel(run, because) =>
        if run in w.db.runs {
          RunMovesKeep(w.db, run, w.db.runs[run].(status := Cancelled, reason := Some(because)));
        }
    }
  }

  /** Dispatches and outcomes change no permission. */
  ghost predicate SameGrounds(a: Db, b: Db) {
    b.runs == a.runs && b.requests == a.requests && b.approvals == a.approvals && b.grants == a.grants
  }

  lemma SameGroundsKeep(a: Db, b: Db)
    requires Permitted(a) && SameGrounds(a, b)
    ensures Permitted(b)
  {
    forall id ensures ApprovalAt(b, id) { assert ApprovalAt(a, id); }
    SamePermissionsKeep(a, b);
  }

  lemma {:induction false} InterruptAllGrounds(db: Db, batch: seq<Id>)
    ensures SameGrounds(db, InterruptAll(db, batch))
  {
    if batch != [] { InterruptAllGrounds(db, batch[..|batch| - 1]); }
  }

  lemma PreparationKeeps(db: Db, run: Id, r: Id, step: Id, v: View, stale: nat, now: Time)
    requires Permitted(db)
    ensures Permitted(PrepareExecution(db, run, r, step, v, stale, now).0)
  {
    var (after, answer) := PrepareExecution(db, run, r, step, v, stale, now);
    if answer.Ok? {
      var due := Due(db, now, Some(db.runs[run].organization));
      ExpireKeeps(db, due);
      PrepareCases(Expire(db, due), run, r, step, v, stale, now);
      SameGroundsKeep(Expire(db, due), after);
    }
  }

  lemma AskingKeeps(db: Db, q: Asked, v: View, now: Time, approvalId: Id)
    requires Permitted(db)
    ensures Permitted(RequestAction(db, q, v, now, approvalId).0)
  {
    if q.run in db.runs && db.runs[q.run].status.Running? && q.requestId !in db.requests {
      AssessedChanges(q.action, q.parameters, true, v);
      EnactKeeps(db, q, Verdict(db, db.runs[q.run], q, v), now, approvalId);
    }
  }

  lemma OutsideActsKeep(stale: nat, w: World, act: Act)
    requires Permitted(w.db)
    requires act.CallConnector? || act.RecordOutcome? || act.StopDispatcher? || act.Reconcile? || act.CloseInterrupted?
    ensures Permitted(Apply(stale, w, act).db)
  {
    if act.CloseInterrupted? { InterruptAllGrounds(w.db, act.batch); }
    SameGroundsKeep(w.db, Apply(stale, w, act).db);
  }

  lemma ApplyPermits(stale: nat, w: World, act: Act)
    requires Permitted(w.db)
    ensures Permitted(Apply(stale, w, act).db)
  {
    if AboutPermissions(act) {
      PermissionActsKeep(stale, w, act);
    } else {
      match act {
        case AskAction(q, v, now, approvalId) => AskingKeeps(w.db, q, v, now, approvalId);
        case AskExecution(run, r, step, v, now) => PreparationKeeps(w.db, run, r, step, v, stale, now);
        case _ => OutsideActsKeep(stale, w, act);
      }
    }
  }

  lemma {:induction false} EveryHistoryPermits(stale: nat, acts: seq<Act>)
    ensures Permitted(After(stale, acts).db)
  {
    if acts != [] {
      EveryHistoryPermits(stale, acts[..|acts| - 1]);
      ApplyPermits(stale, After(stale, acts[..|acts| - 1]), acts[|acts| - 1]);
    }
  }

  // ---- Authorization ----------------------------------------------------------------------

  /** Someone other than the requesting employee approved it, and the approval has not expired. */
  predicate ApprovedByAnother(db: Db, q: Request, now: Time) {
    q.approvalId.Some? && q.approvalId.value in db.approvals && q.run in db.runs &&
    var a := db.approvals[q.approvalId.value];
    a.status.Approved? && now < a.expiresAt && a.run == q.run && a.decidedBy.Some? &&
    a.decidedBy.value != db.runs[q.run].employee
  }

  /** The policy of the moment, on the recorded payload: not a denial, and no looser than any policy. */
  predicate PolicyAgrees(q: Request, v: View) {
    var a := Assess(q.action, q.parameters, false, v);
    a.outcome != Policy.Deny && Policy.AtLeastAllOf(a.outcome, q.action, v.manifestOutcome, v.organizationOutcome) &&
    v.inScope && a.parameters == q.parameters
  }

  predicate NeedsApproval(q: Request, v: View) {
    q.decision.ApprovalRequired? || Assess(q.action, q.parameters, false, v).outcome == Policy.RequireApproval
  }

  lemma NoApprovalProblem(db: Db, due: set<Id>, r: Id, now: Time)
    requires Permitted(db) && r in db.requests && db.requests[r].decision.ApprovalRequired?
    requires ApprovalProblem(Expire(db, due), db.requests[r], now).None?
    ensures ApprovedByAnother(db, db.requests[r], now)
  {
    assert RequestAt(db, r);
    assert ApprovalAt(db, db.requests[r].approvalId.value);
  }

  lemma NoDispatchProblem(db: Db, run: ActionGateway.Run, q: Request, v: View, now: Time)
    requires DispatchProblem(db, run, q, v, now).None? && ControlPlaneAction(q.action).Some?
    ensures !q.decision.Denied? && ApprovalProblem(db, q, now).None? && PolicyAgrees(q, v)
    ensures NeedsApproval(q, v) ==> q.decision.ApprovalRequired?
    ensures DigestOfChanges(q.changes) == DigestOfChanges(Assess(q.action, q.parameters, false, v).changes)
  {
    AssessmentIsStrict(q.action, q.parameters, false, v);
  }

  /**
   At every dispatch: payload and change set are those recorded at the decision, the change set is
   still what the thread's workspace holds, today's policy does not deny it and is no looser than
   platform, manifest or organization, and if approval was needed then or is needed now, someone
   else granted one that has not expired.
   */
  lemma DispatchesAreAuthorized(stale: nat, acts: seq<Act>, act: Act, r: Id)
    requires Commits(stale, After(stale, acts), act, r)
    ensures var w := After(stale, acts);
            r in w.db.requests &&
            var x, q := Apply(stale, w, act), w.db.requests[r];
            r in x.flights && Some(x.flights[r].commitment.parameters) == q.parameters &&
            x.flights[r].commitment.changes == q.changes &&
            q.changes == Assess(q.action, q.parameters, false, act.v).changes &&
            !q.decision.Denied? && PolicyAgrees(q, act.v) &&
            (NeedsApproval(q, act.v) ==> ApprovedByAnother(w.db, q, act.now))
  {
    var w := After(stale, acts);
    EveryHistoryPermits(stale, acts);
    CommittedFor(stale, w, act, r);
    var q := w.db.requests[r];
    var due := Due(w.db, act.now, Some(w.db.runs[act.run].organization));
    NoDispatchProblem(Expire(w.db, due), Expire(w.db, due).runs[act.run], q, act.v, act.now);
    if q.decision.ApprovalRequired? { NoApprovalProblem(w.db, due, r, act.now); }
    SameChanges(w.db, r, act.v);
  }

  lemma SameChanges(db: Db, r: Id, v: View)
    requires Permitted(db) && r in db.requests
    requires var q := db.requests[r]; DigestOfChanges(q.changes) == DigestOfChanges(Assess(q.action, q.parameters, false, v).changes)
    ensures db.requests[r].changes == Assess(db.requests[r].action, db.requests[r].parameters, false, v).changes
  {
    var q := db.requests[r];
    assert RequestAt(db, r);
    AssessedChanges(q.action, q.parameters, false, v);
    var c := Assess(q.action, q.parameters, false, v).changes;
    if q.changes.Some? { ChangeSet.EqualDigestsEqualFiles(q.changes.value.files, c.value.files); }
  }

  lemma GrantCases(db: Db, run: Id, r: Id, step: Id, v: View, now: Time, grantId: Id)
    requires run in db.runs && r !in db.grants && Issue(db, run, r, step, v, now, grantId).1.Ok?
    ensures r in db.requests && Grantable(db.requests[r].action) && db.requests[r].parameters.Some? &&
            var q := db.requests[r];
            q.run == run && GrantProblem(db, q, v, now).None? &&
            Issue(db, run, r, step, v, now, grantId).1 ==
              Ok(Grant(grantId, q.organization, run, DigestOf(q.parameters.value), now, GrantEnd(db, q, now)))
  {}

  lemma NoGrantProblem(db: Db, q: Request, v: View, now: Time)
    requires GrantProblem(db, q, v, now).None? && Grantable(q.action)
    ensures !q.decision.Denied? && ApprovalProblem(db, q, now).None? && PolicyAgrees(q, v)
    ensures NeedsApproval(q, v) ==> q.decision.ApprovalRequired?
  {
    AssessmentIsStrict(q.action, q.parameters, false, v);
  }

  /** A new grant is as well authorized, for the recorded payload, and ends within its approval and ten minutes. */
  ghost predicate WellGranted(db: Db, q: Request, g: Grant, v: View, now: Time) {
    !q.decision.Denied? && PolicyAgrees(q, v) && q.parameters.Some? &&
    g.operationDigest == DigestOf(q.parameters.value) && now < g.expiresAt <= now + GRANT_MS &&
    (NeedsApproval(q, v) ==>
       ApprovedByAnother(db, q, now) && g.expiresAt <= db.approvals[q.approvalId.value].expiresAt)
  }

  lemma ApprovedGrantEnds(db: Db, due: set<Id>, r: Id, now: Time)
    requires Permitted(db) && r in db.requests && ApprovalProblem(Expire(db, due), db.requests[r], now).None?
    ensures var q, end := db.requests[r], GrantEnd(Expire(db, due), db.requests[r], now);
            now < end <= now + GRANT_MS &&
            (q.decision.ApprovalRequired? ==>
               ApprovedByAnother(db, q, now) && end <= db.approvals[q.approvalId.value].expiresAt)
  {
    if db.requests[r].decision.ApprovalRequired? { NoApprovalProblem(db, due, r, now); }
  }

  lemma GrantedWell(db: Db, due: set<Id>, r: Id, g: Grant, v: View, now: Time)
    requires Permitted(db) && r in db.requests && Grantable(db.requests[r].action) && db.requests[r].parameters.Some?
    requires GrantProblem(Expire(db, due), db.requests[r], v, now).None?
    requires g.operationDigest == DigestOf(db.requests[r].parameters.value)
    requires g.expiresAt == GrantEnd(Expire(db, due), db.requests[r], now)
    ensures WellGranted(db, db.requests[r], g, v, now)
  {
    NoGrantProblem(Expire(db, due), db.requests[r], v, now);
    ApprovedGrantEnds(db, due, r, now);
  }

  lemma IssuedWell(db: Db, due: set<Id>, run: Id, r: Id, step: Id, v: View, now: Time, grantId: Id)
    requires Permitted(db) && run in db.runs && r !in db.grants
    requires Issue(Expire(db, due), run, r, step, v, now, grantId).1.Ok?
    ensures r in db.requests
    ensures WellGranted(db, db.requests[r], Issue(Expire(db, due), run, r, step, v, now, grantId).1.value, v, now)
  {
    GrantCases(Expire(db, due), run, r, step, v, now, grantId);
    GrantedWell(db, due, r, Issue(Expire(db, due), run, r, step, v, now, grantId).1.value, v, now);
  }

  lemma NewGrantWasIssued(db: Db, run: Id, r: Id, step: Id, v: View, now: Time, grantId: Id)
    requires r !in db.grants && r in IssueGrant(db, run, r, step, v, now, grantId).0.grants
    ensures run in db.runs
    ensures var (after, answer) :=
              Issue(Expire(db, Due(db, now, Some(db.runs[run].organization))), run, r, step, v, now, grantId);
            answer.Ok? && IssueGrant(db, run, r, step, v, now, grantId).0.grants[r] == answer.value
  {
    var swept := Expire(db, Due(db, now, Some(db.runs[run].organization)));
    GrantCases(swept, run, r, step, v, now, grantId);
  }

  lemma GrantIsWell(db: Db, run: Id, r: Id, step: Id, v: View, now: Time, grantId: Id)
    requires Permitted(db) && r !in db.grants && r in IssueGrant(db, run, r, step, v, now, grantId).0.grants
    ensures r in db.requests
    ensures WellGranted(db, db.requests[r], IssueGrant(db, run, r, step, v, now, grantId).0.grants[r], v, now)
  {
    NewGrantWasIssued(db, run, r, step, v, now, grantId);
    IssuedWell(db, Due(db, now, Some(db.runs[run].organization)), run, r, step, v, now, grantId);
  }

  lemma GrantsAreAuthorized(stale: nat, acts: seq<Act>, act: Act)
    requires act.AskGrant? && act.requestId !in After(stale, acts).db.grants
    requires act.requestId in Apply(stale, After(stale, acts), act).db.grants
    ensures var w := After(stale, acts);
            act.requestId in w.db.requests &&
            WellGranted(w.db, w.db.requests[act.requestId], Apply(stale, w, act).db.grants[act.requestId], act.v, act.now)
  {
    EveryHistoryPermits(stale, acts);
    GrantIsWell(After(stale, acts).db, act.run, act.requestId, act.step, act.v, act.now, act.grantId);
  }

  /** Grants stand: one per request for good, each under its own id. */
  lemma OneGrantPerRequest(stale: nat, acts: seq<Act>, r: Id, s: Id)
    requires r in After(stale, acts).db.grants && s in After(stale, acts).db.grants
    ensures After(stale, acts).db.grants[r].grantId == After(stale, acts).db.grants[s].grantId <==> r == s
    ensures GrantAt(After(stale, acts).db, r)
  {
    EveryHistoryPermits(stale, acts);
  }

  lemma PreparationGrounds(db: Db, run: Id, r: Id, step: Id, v: View, stale: nat, now: Time)
    ensures PrepareExecution(db, run, r, step, v, stale, now).0.grants == db.grants
    ensures PrepareExecution(db, run, r, step, v, stale, now).0.requests == db.requests
  {
    if PrepareExecution(db, run, r, step, v, stale, now).1.Ok? {
      PrepareCases(ExpireDue(db, now, Some(db.runs[run].organization)), run, r, step, v, stale, now);
    }
  }

  lemma IssuingKeepsGrants(db: Db, run: Id, q: Id, step: Id, v: View, now: Time, grantId: Id, r: Id)
    requires r in db.grants
    ensures r in IssueGrant(db, run, q, step, v, now, grantId).0.grants
    ensures IssueGrant(db, run, q, step, v, now, grantId).0.grants[r] == db.grants[r]
  {}

  lemma DecisionsKeepGrants(db: Db, q: Asked, v: View, id: Id, approved: bool, actor: Id, tenant: Id, now: Time)
    ensures RequestAction(db, q, v, now, id).0.grants == db.grants
    ensures DecideApproval(db, id, approved, actor, tenant, now).0.grants == db.grants
  {}

  predicate LeavesGrants(act: Act) {
    !act.AskExecution? && !act.CloseInterrupted? && !act.AskGrant? && !act.AskAction? && !act.DecideOn?
  }

  lemma OtherActsLeaveGrants(stale: nat, w: World, act: Act)
    requires LeavesGrants(act)
    ensures Apply(stale, w, act).db.grants == w.db.grants
  {}

  lemma GrantsStand(stale: nat, w: World, act: Act, r: Id)
    requires r in w.db.grants
    ensures r in Apply(stale, w, act).db.grants && Apply(stale, w, act).db.grants[r] == w.db.grants[r]
  {
    match act {
      case AskExecution(run, q, step, v, now) => PreparationGrounds(w.db, run, q, step, v, stale, now);
      case CloseInterrupted(batch, _) => InterruptAllGrounds(w.db, batch);
      case AskGrant(run, q, step, v, now, grantId) => IssuingKeepsGrants(w.db, run, q, step, v, now, grantId, r);
      case AskAction(q, v, now, id) => DecisionsKeepGrants(w.db, q, v, id, false, 0, 0, now);
      case DecideOn(id, approved, actor, tenant, now) =>
        assert DecideApproval(w.db, id, approved, actor, tenant, now).0.grants == w.db.grants;
      case _ => OtherActsLeaveGrants(stale, w, act);
    }
  }

  /** The only request an act adds is the one it asks for, for the run it names. */
  lemma NewRequestsWereAsked(stale: nat, w: World, act: Act)
    ensures var after := Apply(stale, w, act).db;
            after.requests == w.db.requests ||
            (act.AskAction? && act.q.requestId in after.requests && after.requests[act.q.requestId].run == act.q.run &&
             after.requests == w.db.requests[act.q.requestId := after.requests[act.q.requestId]])
  {
    if AboutPermissions(act) {
      PermissionsLeaveTheRecord(stale, w, act);
    } else {
      match act {
        case AskAction(q, v, now, approvalId) => RequestCases(w.db, q, v, now, approvalId);
        case AskExecution(run, q, step, v, now) => PreparationGrounds(w.db, run, q, step, v, stale, now);
        case CloseInterrupted(batch, _) => InterruptAllGrounds(w.db, batch);
        case _ =>
      }
    }
  }

  /** A run that waits for a decision nobody has made is waiting, or ended; never at work. */
  lemma PendingApprovalsHoldTheirRun(stale: nat, acts: seq<Act>, id: Id)
    requires id in After(stale, acts).db.approvals && After(stale, acts).db.approvals[id].status.Pending?
    ensures var db := After(stale, acts).db;
            db.approvals[id].run in db.runs && Halted(db.runs[db.approvals[id].run].status)
  {
    EveryHistoryPermits(stale, acts);
    assert ApprovalAt(After(stale, acts).db, id);
  }

  // ---- Runs -------------------------------------------------------------------------------

  /** One legal move, or none; a waiting run is released only if `released` says so. */
  ghost predicate LegalMove(a: Db, b: Db, run: Id, released: bool) {
    run in a.runs ==>
      run in b.runs &&
      var from, to := a.runs[run].status, b.runs[run].status;
      (from == to || CanTransition(from, to)) && (from.WaitingForApproval? && to.Queued? ==> released)
  }

  /** The act is an approval for the run, by someone other than who asked. */
  ghost predicate Releases(db: Db, act: Act, run: Id) {
    act.DecideOn? && act.approved && act.approvalId in db.approvals &&
    db.approvals[act.approvalId].run == run && db.approvals[act.approvalId].requestedBy != act.actor
  }

  lemma DecidingMovesLegally(db: Db, id: Id, approved: bool, actor: Id, tenant: Id, now: Time, run: Id)
    ensures LegalMove(db, DecideApproval(db, id, approved, actor, tenant, now).0, run,
                      approved && id in db.approvals && db.approvals[id].run == run && db.approvals[id].requestedBy != actor)
  {
    var swept := ExpireDue(db, now, Some(tenant));
    SweepsMoveLegally(db, Due(db, now, Some(tenant)), run);
    if DecideApproval(db, id, approved, actor, tenant, now).1.Ok? {
      var status := if approved then Approved else ApprovalStatus.Rejected;
      var decided := swept.(approvals := swept.approvals[id := swept.approvals[id].(status := status, decidedBy := Some(actor))]);
      ReleasesMoveLegally(decided, decided.approvals[id].run, approved, run);
    }
  }

  lemma ReleasesMoveLegally(db: Db, paused: Id, approved: bool, run: Id)
    ensures LegalMove(db, OnApprovalDecided(db, paused, approved), run, approved && paused == run)
  {}

  lemma OtherDecisionsMoveLegally(db: Db, q: Asked, v: View, now: Time, id: Id, run: Id)
    ensures LegalMove(db, RequestAction(db, q, v, now, id).0, run, false)
  {
    if q.run in db.runs && db.runs[q.run].status.Running? && q.requestId !in db.requests {
      EnactMovesLegally(db, q, Verdict(db, db.runs[q.run], q, v), now, id, run);
    }
  }

  lemma EnactMovesLegally(db: Db, q: Asked, a: Assessment, now: Time, id: Id, run: Id)
    requires q.run in db.runs && db.runs[q.run].status.Running?
    ensures LegalMove(db, Enact(db, q, a, now, id).0, run, false)
  {}

  lemma SweepsMoveLegally(db: Db, due: set<Id>, run: Id)
    ensures LegalMove(db, Expire(db, due), run, false)
  {}

  lemma {:induction false} InterruptsMoveNothing(db: Db, batch: seq<Id>)
    ensures InterruptAll(db, batch).runs == db.runs
  {
    InterruptAllGrounds(db, batch);
  }

  lemma ExecutionsMoveLegally(db: Db, asked: Id, r: Id, step: Id, v: View, stale: nat, now: Time, run: Id)
    ensures LegalMove(db, PrepareExecution(db, asked, r, step, v, stale, now).0, run, false)
  {
    var (after, answer) := PrepareExecution(db, asked, r, step, v, stale, now);
    if answer.Ok? {
      var due := Due(db, now, Some(db.runs[asked].organization));
      PrepareCases(Expire(db, due), asked, r, step, v, stale, now);
      assert after.runs == Expire(db, due).runs;
      SweepsMoveLegally(db, due, run);
    }
  }

  lemma GrantsMoveLegally(db: Db, asked: Id, r: Id, step: Id, v: View, now: Time, grantId: Id, run: Id)
    ensures LegalMove(db, IssueGrant(db, asked, r, step, v, now, grantId).0, run, false)
  {
    if asked in db.runs {
      var due := Due(db, now, Some(db.runs[asked].organization));
      SweepsMoveLegally(db, due, run);
      IssuingTouchesGrants(Expire(db, due), asked, r, step, v, now, grantId);
    }
  }

  lemma EventsMoveLegally(db: Db, asked: Id, event: RunEvent, id: Id, reason: Option<string>, run: Id)
    ensures LegalMove(db, IngestEvent(db, asked, event, id, reason).0, run, false)
  {
    if asked in db.runs && DecideRuntimeEvent(db.runs[asked].status, db.runs[asked].reason, event).Accepted? {
      RuntimesStayOnTheTable(db.runs[asked].status, db.runs[asked].reason, event);
    }
  }

  lemma ConnectorActsMoveNothing(stale: nat, w: World, act: Act)
    requires act.CallConnector? || act.RecordOutcome? || act.StopDispatcher? || act.Reconcile?
    ensures Apply(stale, w, act).db.runs == w.db.runs
  {}

  /** Whoever acts, a run makes a legal move or none, and only an approval by someone else releases a waiting one. */
  lemma RunsMoveLegally(stale: nat, w: World, act: Act, run: Id)
    ensures LegalMove(w.db, Apply(stale, w, act).db, run, Releases(w.db, act, run))
  {
    match act {
      case AskAction(q, v, now, approvalId) => OtherDecisionsMoveLegally(w.db, q, v, now, approvalId, run);
      case AskExecution(asked, r, step, v, now) => ExecutionsMoveLegally(w.db, asked, r, step, v, stale, now, run);
      case CloseInterrupted(batch, _) => InterruptsMoveNothing(w.db, batch);
      case AskGrant(asked, r, step, v, now, grantId) => GrantsMoveLegally(w.db, asked, r, step, v, now, grantId, run);
      case SweepApprovals(now, organization) => SweepsMoveLegally(w.db, Due(w.db, now, organization), run);
      case DecideOn(id, approved, actor, tenant, now) => DecidingMovesLegally(w.db, id, approved, actor, tenant, now, run);
      case Event(asked, event, id, reason) => EventsMoveLegally(w.db, asked, event, id, reason, run);
      case CreateRun(_, _) =>
      case Cancel(_, _) =>
      case _ => ConnectorActsMoveNothing(stale, w, act);
    }
  }
}
