/**
 A control plane over time. Each call of the gateway's service is one act of a history, whatever came
 between: decisions, sweeps, other services' writes, connector calls and control planes that stop.
 Every theorem about histories is therefore one about the service, and the contracts below say what
 the caller of each operation may rely on.
 */
module ControlPlane {
  import opened Wrappers
  import opened CanonicalJson
  import opened RunLifecycle
  import Spec = ActionGateway
  import opened ActionGateway
  import opened GatewayHistory
  import opened GatewayTheorems
  import opened GatewayService
  import opened GatewayAnswers

  lemma AfterOne(stale: nat, acts: seq<Act>, act: Act)
    ensures After(stale, acts + [act]) == Apply(stale, After(stale, acts), act)
  {
    assert (acts + [act])[..|acts|] == acts;
  }

  lemma ExecutionsHaveRequests(stale: nat, acts: seq<Act>)
    ensures forall r | r in After(stale, acts).db.executions :: r in After(stale, acts).db.requests
  {
    EveryHistoryKeeps(stale, acts);
    forall r | r in After(stale, acts).db.executions ensures r in After(stale, acts).db.requests {
      assert At(After(stale, acts), r);
    }
  }

  /** The runs after another service's act. */
  function Moved(db: Db, act: Act): map<Id, ActionGateway.Run>
    requires act.CreateRun? || act.Event? || act.Cancel?
  {
    match act
    case CreateRun(run, row) => if run in db.runs || !row.status.Queued? || row.reason.Some? then db.runs else db.runs[run := row]
    case Event(run, event, approvalId, reason) => IngestEvent(db, run, event, approvalId, reason).0.runs
    case Cancel(run, because) => CancelRun(db, run, because).0.runs
  }

  lemma MovingTouchesRuns(stale: nat, w: World, act: Act)
    requires act.CreateRun? || act.Event? || act.Cancel?
    ensures Apply(stale, w, act) == w.(db := w.db.(runs := Moved(w.db, act)))
  {}

  class ControlPlane {
    const gateway: Gateway
    ghost var acts: seq<Act>

    ghost function World(): GatewayHistory.World
      reads this, gateway
    {
      After(gateway.staleDispatchMs, acts)
    }

    ghost predicate Valid()
      reads this, gateway
    {
      gateway.Tables() == World().db
    }

    constructor (staleDispatchMs: nat)
      ensures Valid() && fresh(gateway) && gateway.staleDispatchMs == staleDispatchMs && acts == []
    {
      gateway := new Gateway(staleDispatchMs, Empty.db);
      acts := [];
    }

    ghost method Happened(act: Act)
      modifies this`acts
      ensures acts == old(acts) + [act] && World() == Apply(gateway.staleDispatchMs, old(World()), act)
    {
      AfterOne(gateway.staleDispatchMs, acts, act);
      acts := acts + [act];
    }

    /** What happens outside the tables: a connector answers, or a control plane stops with a dispatch in its hands. */
    ghost method Outside(act: Act)
      requires Valid() && (act.CallConnector? || act.StopDispatcher?)
      modifies this`acts
      ensures Valid() && acts == old(acts) + [act]
    {
      Happened(act);
    }

    /** Other services create, move and cancel runs. */
    method MoveRun(act: Act)
      requires Valid() && (act.CreateRun? || act.Event? || act.Cancel?)
      modifies this`acts, gateway`runs
      ensures Valid() && acts == old(acts) + [act]
    {
      var moved := Moved(gateway.Tables(), act);
      MovingTouchesRuns(gateway.staleDispatchMs, World(), act);
      Happened(act);
      gateway.runs := moved;
    }

    /**
     A new request is accepted for a running run under an unused id. Its decision is the assessment of the
     moment, or a denial if a reconciliation fences the write; it is on record as answered, with the payload
     unless it was denied, and with the approval it asks for, which pauses the run. A repeated request is
     answered from the record; that and a refusal change nothing.
     */
    method RequestAction(q: Asked, v: View, now: Time, approvalId: Id) returns (answer: Answer<Decided>)
      requires Valid()
      modifies this`acts, gateway
      ensures Valid() && acts == old(acts) + [AskAction(q, v, now, approvalId)]
      ensures answer.Ok? <==> Acceptable(old(gateway.Tables()), q, v, approvalId)
      ensures answer.Err? || q.requestId in old(gateway.requests) ==> gateway.Tables() == old(gateway.Tables())
      ensures answer.Ok? && q.requestId !in old(gateway.requests) ==>
                DecidesNew(old(gateway.Tables()), gateway.Tables(), q, Assess(q.action, q.parameters, true, v), now, approvalId,
                           answer.value)
      ensures answer.Ok? && q.requestId in old(gateway.requests) ==>
                var row := gateway.requests[q.requestId];
                row.hash == q.hash &&
                answer.value == Decided(row.decision, row.reason, if row.decision.ApprovalRequired? then row.approvalId else None)
      ensures answer.Err? ==> Refuses(old(gateway.Tables()), q, answer.code)
    {
      ghost var before := gateway.Tables();
      answer := gateway.Request(q, v, now, approvalId);
      Happened(AskAction(q, v, now, approvalId));
      RequestsAreAnswered(before, q, v, now, approvalId);
    }

    /**
     A request is dispatched exactly if nothing stands against it at this moment, and else refused with the
     first thing that does. A dispatch is given out only once, for the payload it was decided for, and to
     nobody while a reconciliation of the action is open in the thread or for the payload.
     */
    method PrepareExecution(run: Id, requestId: Id, step: Id, v: View, now: Time) returns (answer: Answer<Plan>)
      requires Valid()
      modifies this`acts, gateway
      ensures Valid() && acts == old(acts) + [AskExecution(run, requestId, step, v, now)]
      ensures PlanGiven(old(World()), World(), answer, requestId)
      ensures PreparesAfterSweep(old(World()).db, World().db, answer, run, requestId, step, v, gateway.staleDispatchMs, now)
    {
      ghost var stale, history := gateway.staleDispatchMs, acts;
      ghost var act := AskExecution(run, requestId, step, v, now);
      answer := PrepareStep(run, requestId, step, v, now);
      AfterOne(stale, history, act);
      PlanIsGiven(stale, history, act, answer);
      PreparationIsAnswered(stale, history, act, answer);
    }

    method PrepareStep(run: Id, requestId: Id, step: Id, v: View, now: Time) returns (answer: Answer<Plan>)
      requires Valid()
      modifies this`acts, gateway
      ensures Valid() && acts == old(acts) + [AskExecution(run, requestId, step, v, now)]
      ensures answer == Spec.PrepareExecution(old(World()).db, run, requestId, step, v, gateway.staleDispatchMs, now).1
    {
      ExecutionsHaveRequests(gateway.staleDispatchMs, acts);
      answer := gateway.PrepareExecution(run, requestId, step, v, now);
      Happened(AskExecution(run, requestId, step, v, now));
    }

    /**
     The outcome the reply asks for is on record, unless the dispatch was closed before; a success is a write
     that happened, a definite failure one that never will.
     */
    method CompleteExecution(c: Commitment, reply: Reply)
      requires Valid() && c.requestId in World().flights && World().flights[c.requestId] == Flight(c, Some(reply))
      modifies this`acts, gateway`executions, gateway`reconciliations
      ensures Valid() && acts == old(acts) + [RecordOutcome(c.requestId)]
      ensures c.requestId in gateway.executions && c.requestId in gateway.requests
      ensures match gateway.executions[c.requestId].progress
              case Dispatching => false
              case Succeeded => reply.Returned? && c.requestId in World().happened
              case Broken(code) => !UnknownCode(code) && EffectOf(c.action).Write? ==> c.requestId !in World().happened
      ensures c.requestId in gateway.reconciliations <==>
                EffectOf(c.action).Write? && gateway.executions[c.requestId].progress.Broken? &&
                UnknownCode(gateway.executions[c.requestId].progress.code)
      ensures CompletesWith(old(gateway.Tables()), gateway.Tables(), c, reply)
    {
      ghost var stale, before := gateway.staleDispatchMs, World();
      EveryHistoryKeeps(stale, acts);
      assert At(before, c.requestId);
      gateway.CompleteExecution(c, Outcome(EffectOf(c.action), reply));
      Happened(RecordOutcome(c.requestId));
      CompletionCloses(before.db, c, Outcome(EffectOf(c.action), reply));
      CompletionIsExact(before.db, c, reply);
      assert acts[..|acts|] == acts;
      RecordedOutcomesAreTrue(stale, acts, |acts|, c.requestId);
      ReconciliationsAreExact(stale, acts, c.requestId);
    }

    method ReconcileInterrupted(batch: seq<Id>, now: Time) returns (closed: nat)
      requires Valid() && |batch| <= SWEEP_LIMIT && forall i, j | 0 <= i < j < |batch| :: batch[i] != batch[j]
      requires forall i | 0 <= i < |batch| :: Stale(gateway.Tables(), gateway.staleDispatchMs, now, batch[i])
      modifies this`acts, gateway`executions, gateway`reconciliations
      ensures Valid() && acts == old(acts) + [CloseInterrupted(batch, now)] && closed == |batch|
      ensures InterruptsAll(old(gateway.Tables()), gateway.Tables(), batch)
    {
      ghost var before := gateway.Tables();
      ExecutionsHaveRequests(gateway.staleDispatchMs, acts);
      closed := gateway.ReconcileInterrupted(batch, now);
      Happened(CloseInterrupted(batch, now));
      InterruptedAreClosed(before, batch);
    }

    method IssueGrant(run: Id, requestId: Id, step: Id, v: View, now: Time, grantId: Id) returns (answer: Answer<Grant>)
      requires Valid()
      modifies this`acts, gateway
      ensures Valid() && acts == old(acts) + [AskGrant(run, requestId, step, v, now, grantId)]
      ensures GrantKept(old(gateway.Tables()), gateway.Tables(), answer, requestId, now)
      ensures IssuesAfterSweep(old(gateway.Tables()), gateway.Tables(), answer, run, requestId, step, v, now, grantId)
    {
      ghost var before := gateway.Tables();
      answer := gateway.IssueGrant(run, requestId, step, v, now, grantId);
      Happened(AskGrant(run, requestId, step, v, now, grantId));
      GrantIsAnswered(before, gateway.Tables(), answer, run, requestId, step, v, now, grantId);
    }

    method ExpireDue(now: Time, organization: Option<Id>) returns (count: nat)
      requires Valid()
      modifies this`acts, gateway
      ensures Valid() && acts == old(acts) + [SweepApprovals(now, organization)]
      ensures Swept(old(gateway.Tables()), gateway.Tables(), now, organization)
      ensures count == |set id | id in old(gateway.approvals) && Overdue(old(gateway.approvals)[id], now, organization)|
    {
      SweepIsExact(gateway.Tables(), now, organization);
      count := gateway.ExpireDue(now, organization);
      Happened(SweepApprovals(now, organization));
    }

    /**
     Overdue approvals expire first, whatever becomes of the decision. Then an approval is decided by someone
     else than who asked, once, before it expires: the run that waits for it is queued again, or cancelled.
     */
    method DecideApproval(id: Id, approved: bool, actor: Id, organization: Id, now: Time) returns (answer: Answer<()>)
      requires Valid()
      modifies this`acts, gateway
      ensures Valid() && acts == old(acts) + [DecideOn(id, approved, actor, organization, now)]
      ensures answer.Ok? <==> id in old(gateway.approvals) && old(gateway.approvals)[id].organization == organization &&
                              old(gateway.approvals)[id].requestedBy != actor && old(gateway.approvals)[id].status.Pending? &&
                              now < old(gateway.approvals)[id].expiresAt
      ensures answer.Err? ==> FirstFailing(ApprovalChecks(old(gateway.Tables()), id, actor, organization, now)) == Some(answer.code)
      ensures exists swept :: Swept(old(gateway.Tables()), swept, now, Some(organization)) &&
                if answer.Ok? then id in swept.approvals && DecidedOn(swept, gateway.Tables(), id, approved, actor)
                else gateway.Tables() == swept
    {
      ghost var before := gateway.Tables();
      answer := gateway.DecideApproval(id, approved, actor, organization, now);
      Happened(DecideOn(id, approved, actor, organization, now));
      SweepIsExact(before, now, Some(organization));
      DecisionIsExact(before, id, approved, actor, organization, now);
      Unfolds(ApprovalChecks(before, id, actor, organization, now));
    }

    /** A reconciliation is resolved once: the second attempt changes nothing. */
    method Resolve(organization: Id, requestId: Id, applied: bool) returns (answer: Answer<Standing>)
      requires Valid()
      modifies this`acts, gateway`reconciliations
      ensures Valid() && acts == old(acts) + [Reconcile(organization, requestId, applied)]
      ensures answer.Ok? <==> requestId in old(gateway.reconciliations) &&
                              old(gateway.reconciliations)[requestId].standing.Required? &&
                              old(gateway.reconciliations)[requestId].organization == organization
      ensures answer.Ok? ==> answer.value == (if applied then Applied else NotApplied)
      ensures answer.Ok? ==> gateway.reconciliations == old(gateway.reconciliations)[
                requestId := old(gateway.reconciliations)[requestId].(standing := answer.value)]
      ensures answer.Err? ==> gateway.Tables() == old(gateway.Tables())
      ensures answer == Err("RECONCILIATION_RESOLVED") <==>
                requestId in old(gateway.reconciliations) && !old(gateway.reconciliations)[requestId].standing.Required? &&
                old(gateway.reconciliations)[requestId].organization == organization
    {
      answer := gateway.Resolve(organization, requestId, applied);
      Happened(Reconcile(organization, requestId, applied));
    }
  }

  // ---- What the answers mean --------------------------------------------------------------

  /** What a plan is good for, and that no write is given out under an open reconciliation. */
  ghost predicate PlanGiven(w: World, x: World, answer: Answer<Plan>, r: Id) {
    match answer
    case Err(_) => x.db == w.db
    case Ok(Finished(e)) =>
      r in x.db.requests && r in x.db.executions && x.db.executions[r] == e && !e.progress.Dispatching?
    case Ok(Dispatch(c)) =>
      r !in w.db.executions && r in x.db.executions && x.db.executions[r].progress.Dispatching? && CarriesRequest(x, r, c) &&
      (EffectOf(x.db.requests[r].action).Write? ==>
         forall open :: GatewayTheorems.OpenFor(w.db, open, r) ==> !SameThread(w.db, open, r) && !SamePayload(w.db, open, r))
  }

  lemma PlanIsGiven(stale: nat, acts: seq<Act>, act: Act, answer: Answer<Plan>)
    requires act.AskExecution?
    requires answer == PrepareExecution(After(stale, acts).db, act.run, act.requestId, act.step, act.v, stale, act.now).1
    ensures PlanGiven(After(stale, acts), Apply(stale, After(stale, acts), act), answer, act.requestId)
  {
    var w, x, r := After(stale, acts), Apply(stale, After(stale, acts), act), act.requestId;
    EveryHistoryKeeps(stale, acts);
    if answer.Ok? {
      PlanIsTrue(w, stale, act, answer.value);
      if answer.value.Dispatch? && EffectOf(x.db.requests[r].action).Write? {
        forall open | GatewayTheorems.OpenFor(w.db, open, r) ensures !SameThread(w.db, open, r) && !SamePayload(w.db, open, r) {
          FenceHolds(stale, acts, act, r, open);
        }
      }
    }
  }

  lemma PlanIsTrue(w: World, stale: nat, act: Act, plan: Plan)
    requires act.AskExecution? && Core(w)
    requires PrepareExecution(w.db, act.run, act.requestId, act.step, act.v, stale, act.now).1 == Ok(plan)
    ensures var x := Apply(stale, w, act);
            act.requestId in x.db.executions && act.requestId in x.db.requests &&
            if plan.Dispatch?
            then Commits(stale, w, act, act.requestId) && CarriesRequest(x, act.requestId, plan.commitment)
            else x.db.executions[act.requestId] == plan.execution && !plan.execution.progress.Dispatching?
  {
    var swept := Expire(w.db, Due(w.db, act.now, Some(w.db.runs[act.run].organization)));
    assert At(w, act.requestId);
    if plan.Dispatch? {
      DispatchIsTrue(swept, act.run, act.requestId, act.step, act.v, stale, act.now);
    } else {
      FinishIsTrue(swept, act.run, act.requestId, act.step, act.v, stale, act.now);
    }
  }

  lemma DispatchIsTrue(db: Db, run: Id, r: Id, step: Id, v: View, stale: nat, now: Time)
    requires run in db.runs && Prepare(db, run, r, step, v, stale, now).1.Ok?
    requires Prepare(db, run, r, step, v, stale, now).1.value.Dispatch?
    ensures r !in db.executions && r in db.requests && db.requests[r].parameters.Some?
    ensures Prepare(db, run, r, step, v, stale, now) == Commit(db, db.requests[r], r, now)
  {
    PrepareCases(db, run, r, step, v, stale, now);
  }

  lemma FinishIsTrue(db: Db, run: Id, r: Id, step: Id, v: View, stale: nat, now: Time)
    requires run in db.runs && Prepare(db, run, r, step, v, stale, now).1.Ok?
    requires Prepare(db, run, r, step, v, stale, now).1.value.Finished?
    ensures var (after, answer) := Prepare(db, run, r, step, v, stale, now);
            r in after.executions && r in after.requests && after.executions[r] == answer.value.execution &&
            !answer.value.execution.progress.Dispatching?
  {
    PrepareCases(db, run, r, step, v, stale, now);
  }

  lemma CompletionCloses(db: Db, c: Commitment, outcome: Progress)
    requires c.requestId in db.executions && !outcome.Dispatching?
    ensures var after := CompleteExecution(db, c, outcome);
            c.requestId in after.executions && !after.executions[c.requestId].progress.Dispatching? && after.requests == db.requests
  {}

  /** A grant is on record as given and lasts; a repeated one is the first, and a refusal leaves no trace. */
  predicate GrantKept(db: Db, after: Db, answer: Answer<Grant>, r: Id, now: Time) {
    (answer.Ok? ==> r in after.grants && after.grants[r] == answer.value && now < answer.value.expiresAt) &&
    (r in db.grants ==> after.grants == db.grants) && (answer.Err? ==> after == db)
  }

  lemma GrantIsKept(db: Db, run: Id, r: Id, step: Id, v: View, now: Time, grantId: Id)
    ensures var (after, answer) := IssueGrant(db, run, r, step, v, now, grantId); GrantKept(db, after, answer, r, now)
  {}

  lemma GrantIsAnswered(db: Db, after: Db, answer: Answer<Grant>, run: Id, r: Id, step: Id, v: View, now: Time, grantId: Id)
    requires (after, answer) == IssueGrant(db, run, r, step, v, now, grantId)
    ensures GrantKept(db, after, answer, r, now) && IssuesAfterSweep(db, after, answer, run, r, step, v, now, grantId)
  {
    GrantIsKept(db, run, r, step, v, now, grantId);
    SweptIssueIsExact(db, run, r, step, v, now, grantId);
  }

  // ---- With the sweep that comes first ----------------------------------------------------

  predicate Running(db: Db, run: Id) {
    run in db.runs && db.runs[run].status.Running?
  }

  /** The answer to an execution, from the tables as they were: what it leaves is left on swept tables. */
  ghost predicate PreparesAfterSweep(db: Db, after: Db, answer: Answer<Plan>, run: Id, r: Id, step: Id, v: View, stale: nat, now: Time) {
    if !Running(db, run) then answer == Err("RUN_NOT_RUNNING")
    else if !Names(db, run, r, step) then
      answer == Err(if r in db.requests && db.requests[r].run == run && db.requests[r].organization == db.runs[run].organization
                    then "RUNTIME_CORRELATION_MISMATCH" else "ACTION_REQUEST_NOT_FOUND")
    else exists swept :: Swept(db, swept, now, Some(db.runs[run].organization)) && run in swept.runs && r in swept.requests &&
                         Prepares(swept, if answer.Ok? then after else swept, answer, run, r, v, stale, now)
  }

  lemma SweptPreparationIsExact(db: Db, after: Db, answer: Answer<Plan>, run: Id, r: Id, step: Id, v: View, stale: nat, now: Time)
    requires (after, answer) == PrepareExecution(db, run, r, step, v, stale, now)
    ensures PreparesAfterSweep(db, after, answer, run, r, step, v, stale, now)
  {
    if Running(db, run) {
      var organization := Some(db.runs[run].organization);
      var swept := ExpireDue(db, now, organization);
      SweepIsExact(db, now, organization);
      if Names(db, run, r, step) {
        PreparationIsExact(swept, run, r, step, v, stale, now);
        if Prepare(swept, run, r, step, v, stale, now).1.Err? { RefusedAsWell(swept, run, r, step, v, stale, now); }
      } else {
        UnnamedIsRefused(swept, run, r, step, v, stale, now);
      }
    }
  }

  lemma PreparationIsAnswered(stale: nat, acts: seq<Act>, act: Act, answer: Answer<Plan>)
    requires act.AskExecution?
    requires answer == Spec.PrepareExecution(After(stale, acts).db, act.run, act.requestId, act.step, act.v, stale, act.now).1
    ensures PreparesAfterSweep(After(stale, acts).db, Apply(stale, After(stale, acts), act).db, answer,
                               act.run, act.requestId, act.step, act.v, stale, act.now)
  {
    var after := Apply(stale, After(stale, acts), act).db;
    SweptPreparationIsExact(After(stale, acts).db, after, answer, act.run, act.requestId, act.step, act.v, stale, act.now);
  }

  /** An error says the same whatever it is said to leave. */
  lemma RefusedAsWell(db: Db, run: Id, r: Id, step: Id, v: View, stale: nat, now: Time)
    requires Names(db, run, r, step) && Prepare(db, run, r, step, v, stale, now).1.Err?
    ensures Prepares(db, db, Prepare(db, run, r, step, v, stale, now).1, run, r, v, stale, now)
  {
    PreparationIsExact(db, run, r, step, v, stale, now);
  }

  /** An open dispatch gets the outcome its reply asks for; a closed one stays as it was closed. */
  predicate CompletesWith(db: Db, after: Db, c: Commitment, reply: Reply) {
    OnlyExecution(db, after, c.requestId) &&
    if c.requestId in db.executions && db.executions[c.requestId].progress.Dispatching? then
      var p := after.executions[c.requestId].progress;
      OutcomeFits(EffectOf(c.action), reply, p) &&
      after.executions[c.requestId] == db.executions[c.requestId].(progress := p) &&
      if p == Broken(OUTCOME_UNKNOWN)
      then Opens(db, after, c.requestId, c.run, c.organization, c.action, c.payloadDigest, OUTCOME_UNKNOWN)
      else after.reconciliations == db.reconciliations
    else after == db
  }

  ghost predicate IssuesAfterSweep(db: Db, after: Db, answer: Answer<Grant>, run: Id, r: Id, step: Id, v: View, now: Time, grantId: Id) {
    if !Running(db, run) then answer == Err("RUN_NOT_RUNNING")
    else if !Names(db, run, r, step) then
      answer == Err(if r in db.requests && db.requests[r].run == run && db.requests[r].organization == db.runs[run].organization
                    then "RUNTIME_CORRELATION_MISMATCH" else "ACTION_REQUEST_NOT_FOUND")
    else exists swept :: Swept(db, swept, now, Some(db.runs[run].organization)) && run in swept.runs && r in swept.requests &&
                         Issues(swept, if answer.Ok? then after else swept, answer, run, r, v, now, grantId)
  }

  lemma SweptIssueIsExact(db: Db, run: Id, r: Id, step: Id, v: View, now: Time, grantId: Id)
    ensures var (after, answer) := IssueGrant(db, run, r, step, v, now, grantId);
            IssuesAfterSweep(db, after, answer, run, r, step, v, now, grantId)
  {
    if Running(db, run) {
      var organization := Some(db.runs[run].organization);
      var swept := ExpireDue(db, now, organization);
      SweepIsExact(db, now, organization);
      if Names(db, run, r, step) {
        IssueIsExact(swept, run, r, step, v, now, grantId);
      } else {
        UnnamedIsNotGranted(swept, run, r, step, v, now, grantId);
      }
    }
  }

  lemma UnnamedIsNotGranted(db: Db, run: Id, r: Id, step: Id, v: View, now: Time, grantId: Id)
    requires run in db.runs && !Names(db, run, r, step)
    ensures Issue(db, run, r, step, v, now, grantId).1 ==
            Err(if r in db.requests && db.requests[r].run == run && db.requests[r].organization == db.runs[run].organization
                then "RUNTIME_CORRELATION_MISMATCH" else "ACTION_REQUEST_NOT_FOUND")
  {}
}
