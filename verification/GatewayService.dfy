/**
 The Action Gateway as the service it is: an object whose methods read and update rows one
 statement at a time, inside transactions that an error rolls back. Every method is proved to
 leave exactly the tables, and to give exactly the answer, that the functions of `ActionGateway` say.
 */
module GatewayService {
  import opened Wrappers
  import opened CanonicalJson
  import opened RunLifecycle
  import Spec = ActionGateway
  import opened ActionGateway
  import Policy
  import ChangeSet

  lemma ExpireNone(db: Db)
    ensures Expire(db, {}) == db
  {
    assert Expire(db, {}).approvals == db.approvals;
    assert Expire(db, {}).runs == db.runs;
  }

  lemma ExpireOneMore(db: Db, done: set<Id>, id: Id)
    requires id in db.approvals && id !in done
    ensures var before := Expire(db, done);
            var row := before.approvals[id].(status := Expired);
            Expire(db, done + {id}) == OnExpired(before.(approvals := before.approvals[id := row]), row.run)
  {
    var before, after := Expire(db, done), Expire(db, done + {id});
    var row := before.approvals[id].(status := Expired);
    assert row.run == db.approvals[id].run;
    forall r | r in db.runs ensures PausedBy(db, done + {id}, r) <==> PausedBy(db, done, r) || r == row.run {
      if r == row.run { assert id in done + {id}; }
    }
    var next := OnExpired(before.(approvals := before.approvals[id := row]), row.run);
    assert next.approvals == after.approvals;
    assert next.runs == after.runs;
  }

  /** What becomes of the run an expired approval had paused. */
  function OnExpired(db: Db, run: Id): Db {
    if run in db.runs && db.runs[run].status.WaitingForApproval?
    then db.(runs := db.runs[run := db.runs[run].(status := Cancelled, reason := Some("APPROVAL_EXPIRED"))])
    else db
  }

  class Gateway {
    const staleDispatchMs: nat
    var runs: map<Id, Run>
    var requests: map<Id, Request>
    var approvals: map<Id, Approval>
    var executions: map<Id, Execution>
    var grants: map<Id, Grant>
    var reconciliations: map<Id, Reconciliation>

    function Tables(): Db
      reads this
    {
      Db(runs, requests, approvals, executions, grants, reconciliations)
    }

    constructor (staleDispatchMs: nat, db: Db)
      ensures Tables() == db && this.staleDispatchMs == staleDispatchMs
    {
      this.staleDispatchMs := staleDispatchMs;
      runs, requests, approvals := db.runs, db.requests, db.approvals;
      executions, grants, reconciliations := db.executions, db.grants, db.reconciliations;
    }

    method Rollback(db: Db)
      modifies this
      ensures Tables() == db
    {
      runs, requests, approvals := db.runs, db.requests, db.approvals;
      executions, grants, reconciliations := db.executions, db.grants, db.reconciliations;
    }

    /** Expires what is due, one approval at a time; the order makes no difference. */
    method ExpireDue(now: Time, organization: Option<Id>) returns (count: nat)
      modifies this
      ensures Tables() == Spec.ExpireDue(old(Tables()), now, organization)
      ensures count == |Due(old(Tables()), now, organization)|
    {
      var due := Due(Tables(), now, organization);
      var remaining := due;
      ExpireNone(Tables());
      assert due - remaining == {};
      while remaining != {}
        invariant remaining <= due
        invariant Tables() == Expire(old(Tables()), due - remaining)
      {
        var id :| id in remaining;
        ghost var done := due - remaining;
        ExpireOneMore(old(Tables()), done, id);
        var approval := approvals[id];
        approvals := approvals[id := approval.(status := Expired)];
        if approval.run in runs && runs[approval.run].status.WaitingForApproval? {
          runs := runs[approval.run := runs[approval.run].(status := Cancelled, reason := Some("APPROVAL_EXPIRED"))];
        }
        remaining := remaining - {id};
        assert due - remaining == done + {id};
      }
      assert due - remaining == due;
      return |due|;
    }

    method BlockedBy(organization: Id, thread: Id, action: string, payload: Digest) returns (found: bool)
      ensures found <==> Blocks(Tables(), organization, thread, action, payload)
    {
      var left := reconciliations.Keys;
      while left != {}
        invariant left <= reconciliations.Keys
        invariant forall id | id in reconciliations.Keys - left ::
                    !Blocking(reconciliations[id], organization, thread, action, payload)
      {
        var id :| id in left;
        if Blocking(reconciliations[id], organization, thread, action, payload) { return true; }
        left := left - {id};
      }
      return false;
    }

    method RequireReconciliation(requestId: Id, run: Id, organization: Id, action: string, payload: Digest, reason: string)
      modifies this`reconciliations
      ensures Tables() == Spec.Require(old(Tables()), requestId, run, organization, action, payload, reason)
    {
      if run !in runs { return; }
      if requestId in reconciliations { return; }
      var row := Reconciliation(organization, runs[run].thread, run, action, payload, reason, Required);
      reconciliations := reconciliations[requestId := row];
    }

    /** Succeeds exactly for an open reconciliation of the organization, which it resolves; no other row changes. */
    method Resolve(organization: Id, requestId: Id, applied: bool) returns (answer: Answer<Standing>)
      modifies this`reconciliations
      ensures answer.Ok? <==> requestId in old(reconciliations) && old(reconciliations)[requestId].standing.Required? &&
                              old(reconciliations)[requestId].organization == organization
      ensures answer.Ok? ==> answer.value == (if applied then Applied else NotApplied) &&
                             reconciliations == old(reconciliations)[requestId := old(reconciliations)[requestId].(standing := answer.value)]
      ensures answer.Err? ==> reconciliations == old(reconciliations)
      ensures (Tables(), answer) == ResolveReconciliation(old(Tables()), organization, requestId, applied)
    {
      if requestId !in reconciliations || reconciliations[requestId].organization != organization {
        return Err("RECONCILIATION_NOT_FOUND");
      }
      var row := reconciliations[requestId];
      if row.standing != Required { return Err("RECONCILIATION_RESOLVED"); }
      var standing := if applied then Applied else NotApplied;
      reconciliations := reconciliations[requestId := row.(standing := standing)];
      return Ok(standing);
    }

    method Request(q: Asked, v: View, now: Time, approvalId: Id) returns (answer: Answer<Decided>)
      modifies this
      ensures (Tables(), answer) == RequestAction(old(Tables()), q, v, now, approvalId)
    {
      if q.run !in runs { return Err("RUNTIME_LEASE_REQUIRED"); }
      var run := runs[q.run];
      if q.requestId in requests && requests[q.requestId].organization == run.organization {
        var existing := requests[q.requestId];
        if existing.hash != q.hash { return Err("RUNTIME_ACTION_CONFLICT"); }
        return Ok(Stored(existing));
      }
      if run.status != Running { return Err("RUN_NOT_RUNNING"); }
      if q.requestId in requests { return Err("RUNTIME_ACTION_CONFLICT"); }
      answer := DecideRequest(q, v, now, approvalId);
    }

    method DecideRequest(q: Asked, v: View, now: Time, approvalId: Id) returns (answer: Answer<Decided>)
      requires q.run in runs && runs[q.run].status.Running?
      modifies this
      ensures (Tables(), answer) == Spec.Decide(old(Tables()), q, v, now, approvalId)
    {
      var verdict := AssessFenced(runs[q.run], q, v);
      answer := EnactVerdict(q, verdict, now, approvalId);
    }

    /** The assessment, overruled where a reconciliation blocks the write. */
    method AssessFenced(run: Run, q: Asked, v: View) returns (verdict: Assessment)
      ensures verdict == Verdict(Tables(), run, q, v)
    {
      verdict := Assess(q.action, q.parameters, true, v);
      if verdict.outcome == Policy.Deny || verdict.handler.None? || verdict.parameters.None? { return; }
      if verdict.handler.value.effect.Write? {
        var blocked := BlockedBy(run.organization, run.thread, q.action, DigestOf(verdict.parameters.value));
        if blocked {
          verdict := verdict.(outcome := Policy.Deny, reason := "ACTION_RECONCILIATION_REQUIRED", approvalTtlSeconds := None);
        }
      }
    }

    method EnactVerdict(q: Asked, verdict: Assessment, now: Time, approvalId: Id) returns (answer: Answer<Decided>)
      requires q.run in runs && runs[q.run].status.Running?
      modifies this
      ensures (Tables(), answer) == Spec.Enact(old(Tables()), q, verdict, now, approvalId)
    {
      var run := runs[q.run];
      var approval: Option<Id> := None;
      if verdict.outcome == Policy.RequireApproval {
        if approvalId in approvals { return Err("APPROVAL_ID_TAKEN"); }
        approval := Some(approvalId);
        var expiresAt := now + verdict.approvalTtlSeconds.UnwrapOr(3600) * 1000;
        approvals := approvals[approvalId := Approval(run.organization, run.employee, q.run, Pending, None, expiresAt)];
        runs := runs[q.run := run.(status := WaitingForApproval, reason := Some("APPROVAL_REQUIRED"))];
      }
      requests := requests[q.requestId := RequestRow(run, q, verdict, approval)];
      return Ok(Stored(requests[q.requestId]));
    }

    /** Interrupts the dispatch of the request; says whether one was open. */
    method InterruptDispatch(requestId: Id) returns (closed: bool)
      requires requestId in executions ==> requestId in requests
      modifies this`executions, this`reconciliations
      ensures Tables() == Spec.Interrupt(old(Tables()), requestId)
      ensures closed <==> old(requestId in executions && executions[requestId].progress.Dispatching?)
    {
      if requestId !in executions || executions[requestId].progress != Dispatching { return false; }
      var e, q := executions[requestId], requests[requestId];
      executions := executions[requestId := e.(progress := Broken(INTERRUPTED))];
      if EffectOf(q.action).Write? && q.parameters.Some? {
        RequireReconciliation(requestId, e.run, e.organization, q.action, DigestOf(q.parameters.value), INTERRUPTED);
      }
      return true;
    }

    /** Closes every dispatch of the batch the query found; each is closed once. */
    method ReconcileInterrupted(batch: seq<Id>, now: Time) returns (closed: nat)
      requires forall i | 0 <= i < |batch| :: Stale(Tables(), staleDispatchMs, now, batch[i])
      requires forall i, j | 0 <= i < j < |batch| :: batch[i] != batch[j]
      requires forall id | id in executions :: id in requests
      modifies this`executions, this`reconciliations
      ensures Tables() == InterruptAll(old(Tables()), batch)
      ensures closed == |batch|
    {
      closed := 0;
      for i := 0 to |batch|
        invariant Tables() == InterruptAll(old(Tables()), batch[..i]) && closed == i
        invariant executions.Keys == old(executions.Keys)
        invariant forall k | i <= k < |batch| :: batch[k] in executions && executions[batch[k]].progress.Dispatching?
      {
        assert batch[..i + 1][..i] == batch[..i];
        var was := InterruptDispatch(batch[i]);
        if was { closed := closed + 1; }
      }
      assert batch[..|batch|] == batch;
    }

    method RefuseExecution(q: Request, requestId: Id, code: string, now: Time) returns (answer: Answer<Plan>)
      modifies this`executions
      ensures (Tables(), answer) == Spec.Refuse(old(Tables()), q, requestId, code, now)
    {
      var e := Execution(q.organization, q.run, Broken(code), now);
      executions := executions[requestId := e];
      return Ok(Finished(e));
    }

    method CheckDispatch(run: Run, q: Request, v: View, now: Time) returns (problem: Option<string>)
      ensures problem == DispatchProblem(Tables(), run, q, v, now)
    {
      if q.decision == Denied { return Some("ACTION_DENIED"); }
      problem := CheckApproval(q, now);
      if problem.Some? { return; }
      var current := Assess(q.action, q.parameters, false, v);
      if current.outcome == Policy.Deny { return Some("POLICY_DENIED"); }
      if current.outcome == Policy.RequireApproval && q.decision == Allowed { return Some("APPROVAL_REQUIRED"); }
      if current.connection.None? || current.parameters.None? { return Some("CONNECTOR_NOT_CONFIGURED"); }
      if DigestOfChanges(q.changes) != DigestOfChanges(current.changes) { return Some("CHANGE_SET_CHANGED"); }
      if EffectOf(q.action).Write? {
        var blocked := BlockedBy(run.organization, run.thread, q.action, DigestOf(current.parameters.value));
        if blocked { return Some("ACTION_RECONCILIATION_REQUIRED"); }
      }
      if !v.secretKnown { return Some("SECRET_UNRESOLVED"); }
      return None;
    }

    method CheckApproval(q: Request, now: Time) returns (problem: Option<string>)
      ensures problem == ApprovalProblem(Tables(), q, now)
    {
      if q.decision != ApprovalRequired { return None; }
      if q.approvalId.None? || q.approvalId.value !in approvals { return Some("APPROVAL_NOT_GRANTED"); }
      var a := approvals[q.approvalId.value];
      if a.organization != q.organization { return Some("APPROVAL_NOT_GRANTED"); }
      if a.status == Expired || a.expiresAt <= now { return Some("APPROVAL_EXPIRED"); }
      if a.status != Approved { return Some("APPROVAL_NOT_GRANTED"); }
      return None;
    }

    /** First half of an execution: re-authorize, then commit to a single dispatch. */
    method PrepareExecution(run: Id, requestId: Id, step: Id, v: View, now: Time) returns (answer: Answer<Plan>)
      requires forall id | id in executions :: id in requests
      modifies this
      ensures (Tables(), answer) == Spec.PrepareExecution(old(Tables()), run, requestId, step, v, staleDispatchMs, now)
    {
      if run !in runs || runs[run].status != Running { return Err("RUN_NOT_RUNNING"); }
      var before := Tables();
      var _ := ExpireDue(now, Some(runs[run].organization));
      answer := PrepareSwept(run, requestId, step, v, now);
      if answer.Err? { Rollback(before); }
    }

    method PrepareSwept(run: Id, requestId: Id, step: Id, v: View, now: Time) returns (answer: Answer<Plan>)
      requires run in runs && forall id | id in executions :: id in requests
      modifies this`executions, this`reconciliations
      ensures (Tables(), answer) == Spec.Prepare(old(Tables()), run, requestId, step, v, staleDispatchMs, now)
    {
      var found := FindRequest(Tables(), run, requestId, step);
      if found.Err? { return Err(found.code); }
      var q := found.value;
      if ControlPlaneAction(q.action).None? { return Err("ACTION_NOT_EXECUTABLE"); }
      if requestId in executions {
        var existing := executions[requestId];
        if existing.progress != Dispatching { return Ok(Finished(existing)); }
        if existing.startedAt + staleDispatchMs > now { return Err("ACTION_EXECUTION_IN_PROGRESS"); }
        var _ := InterruptDispatch(requestId);
        return Ok(Finished(executions[requestId]));
      }
      var problem := CheckDispatch(runs[run], q, v, now);
      if problem.Some? {
        answer := RefuseExecution(q, requestId, problem.value, now);
        return;
      }
      if q.parameters.None? { return Err("CONNECTOR_NOT_CONFIGURED"); }
      var p := q.parameters.value;
      executions := executions[requestId := Execution(q.organization, q.run, Dispatching, now)];
      return Ok(Dispatch(Commitment(requestId, q.organization, q.run, q.action, p, q.changes, DigestOf(p))));
    }

    /** Second half: record the outcome, unless the dispatch was closed in the meantime. */
    method CompleteExecution(c: Commitment, outcome: Progress)
      modifies this`executions, this`reconciliations
      ensures Tables() == Spec.CompleteExecution(old(Tables()), c, outcome)
    {
      if c.requestId !in executions || executions[c.requestId].progress != Dispatching { return; }
      executions := executions[c.requestId := executions[c.requestId].(progress := outcome)];
      if EffectOf(c.action).Write? && outcome == Broken(OUTCOME_UNKNOWN) {
        RequireReconciliation(c.requestId, c.run, c.organization, c.action, c.payloadDigest, OUTCOME_UNKNOWN);
      }
    }

    method IssueGrant(run: Id, requestId: Id, step: Id, v: View, now: Time, grantId: Id) returns (answer: Answer<Grant>)
      modifies this
      ensures (Tables(), answer) == Spec.IssueGrant(old(Tables()), run, requestId, step, v, now, grantId)
    {
      if run !in runs || runs[run].status != Running { return Err("RUN_NOT_RUNNING"); }
      var before := Tables();
      var _ := ExpireDue(now, Some(runs[run].organization));
      answer := IssueSwept(run, requestId, step, v, now, grantId);
      if answer.Err? { Rollback(before); }
    }

    method IssueSwept(run: Id, requestId: Id, step: Id, v: View, now: Time, grantId: Id) returns (answer: Answer<Grant>)
      requires run in runs
      modifies this`grants
      ensures (Tables(), answer) == Spec.Issue(old(Tables()), run, requestId, step, v, now, grantId)
    {
      var found := FindRequest(Tables(), run, requestId, step);
      if found.Err? { return Err(found.code); }
      var q := found.value;
      if !Grantable(q.action) { return Err("ACTION_NOT_GRANTABLE"); }
      if requestId in grants {
        if grants[requestId].expiresAt <= now { return Err("GRANT_EXPIRED"); }
        return Ok(grants[requestId]);
      }
      answer := IssueNew(q, run, requestId, v, now, grantId);
    }

    method IssueNew(q: Request, run: Id, requestId: Id, v: View, now: Time, grantId: Id) returns (answer: Answer<Grant>)
      modifies this`grants
      ensures (Tables(), answer) == Spec.IssueFirst(old(Tables()), q, run, requestId, v, now, grantId)
    {
      var problem := CheckGrant(q, v, now);
      if problem.Some? { return Err(problem.value); }
      if q.parameters.None? { return Err("PARAMETERS_REQUIRED"); }
      if exists id | id in grants :: grants[id].grantId == grantId { return Err("GRANT_ID_TAKEN"); }
      var expiresAt := now + GRANT_MS;
      if q.decision == ApprovalRequired && approvals[q.approvalId.value].expiresAt < expiresAt {
        expiresAt := approvals[q.approvalId.value].expiresAt;
      }
      var g := Grant(grantId, q.organization, run, DigestOf(q.parameters.value), now, expiresAt);
      grants := grants[requestId := g];
      return Ok(g);
    }

    method CheckGrant(q: Request, v: View, now: Time) returns (problem: Option<string>)
      ensures problem == GrantProblem(Tables(), q, v, now)
      ensures problem.None? && q.decision.ApprovalRequired? ==> q.approvalId.Some? && q.approvalId.value in approvals
    {
      if q.decision == Denied { return Some("ACTION_DENIED"); }
      problem := CheckApproval(q, now);
      if problem.Some? { return; }
      var current := Assess(q.action, q.parameters, false, v);
      if current.outcome == Policy.Deny { return Some("POLICY_DENIED"); }
      if current.outcome == Policy.RequireApproval && q.decision == Allowed { return Some("APPROVAL_REQUIRED"); }
      if !current.execution || current.parameters.None? || q.parameters.None? { return Some("PARAMETERS_REQUIRED"); }
      return None;
    }

    /** Expiry commits first, whatever becomes of the decision. */
    method DecideApproval(id: Id, approved: bool, actor: Id, organization: Id, now: Time) returns (answer: Answer<()>)
      modifies this
      ensures (Tables(), answer) == Spec.DecideApproval(old(Tables()), id, approved, actor, organization, now)
    {
      var _ := ExpireDue(now, Some(organization));
      if id !in approvals || approvals[id].organization != organization { return Err("APPROVAL_NOT_FOUND"); }
      var a := approvals[id];
      if a.requestedBy == actor { return Err("SELF_APPROVAL_FORBIDDEN"); }
      if a.status == Expired { return Err("APPROVAL_EXPIRED"); }
      if a.status != Pending { return Err("APPROVAL_ALREADY_DECIDED"); }
      approvals := approvals[id := a.(status := if approved then Approved else ApprovalStatus.Rejected, decidedBy := Some(actor))];
      if a.run in runs && runs[a.run].status.WaitingForApproval? {
        if approved {
          runs := runs[a.run := runs[a.run].(status := Queued, reason := Some(APPROVAL_GRANTED))];
        } else {
          runs := runs[a.run := runs[a.run].(status := Cancelled, reason := Some("APPROVAL_REJECTED"))];
        }
      }
      return Ok(());
    }
  }
}
