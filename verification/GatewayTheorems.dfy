/**
 What the gateway promises over every history: outcomes are final and never claimed without
 knowledge, unknown writes fence their repetition until a person has looked, and each request
 causes at most one connector call.
 */
module GatewayTheorems {
  import opened Wrappers
  import opened CanonicalJson
  import opened RunLifecycle
  import opened ActionGateway
  import opened GatewayHistory
  import opened GatewayAnswers
  import Policy
  import ChangeSet

  // ---- What lasts -------------------------------------------------------------------------

  /** An outcome, once recorded, stays; a dispatch keeps its start. */
  predicate Progresses(a: Execution, b: Execution) {
    b.(progress := a.progress) == a && (a.progress.Dispatching? || b.progress == a.progress)
  }

  /** A reconciliation opens once and is resolved once. */
  predicate Stands(a: Reconciliation, b: Reconciliation) {
    b.(standing := a.standing) == a && (a.standing.Required? || b.standing == a.standing)
  }

  ghost predicate DbLasts(a: Db, b: Db) {
    (forall r | r in a.requests :: r in b.requests && b.requests[r] == a.requests[r]) &&
    (forall r | r in a.executions :: r in b.executions && Progresses(a.executions[r], b.executions[r])) &&
    (forall r | r in a.reconciliations :: r in b.reconciliations && Stands(a.reconciliations[r], b.reconciliations[r]))
  }

  ghost predicate Lasts(w: World, x: World) {
    DbLasts(w.db, x.db) && w.calls <= x.calls && w.happened <= x.happened &&
    forall r | r in w.replies :: r in x.replies && x.replies[r] == w.replies[r]
  }

  lemma RequireLasts(db: Db, requestId: Id, run: Id, organization: Id, action: string, payload: Digest, reason: string)
    ensures DbLasts(db, Require(db, requestId, run, organization, action, payload, reason))
    ensures var after := Require(db, requestId, run, organization, action, payload, reason);
            after == db.(reconciliations := after.reconciliations)
  {}

  lemma ClosingLasts(db: Db, r: Id, outcome: Progress)
    requires r in db.executions && db.executions[r].progress.Dispatching?
    ensures DbLasts(db, db.(executions := db.executions[r := db.executions[r].(progress := outcome)]))
  {}

  lemma InterruptLasts(db: Db, r: Id)
    ensures DbLasts(db, Interrupt(db, r))
  {
    if r in db.executions && db.executions[r].progress.Dispatching? && r in db.requests {
      var e, q := db.executions[r], db.requests[r];
      ClosingLasts(db, r, Broken(INTERRUPTED));
      if q.parameters.Some? {
        RequireLasts(db.(executions := db.executions[r := e.(progress := Broken(INTERRUPTED))]), r, e.run, e.organization,
                     q.action, DigestOf(q.parameters.value), INTERRUPTED);
      }
    }
  }

  lemma {:induction false} InterruptAllLasts(db: Db, batch: seq<Id>)
    ensures DbLasts(db, InterruptAll(db, batch))
  {
    if batch != [] {
      InterruptAllLasts(db, batch[..|batch| - 1]);
      InterruptLasts(InterruptAll(db, batch[..|batch| - 1]), batch[|batch| - 1]);
    }
  }

  lemma CompletionLasts(db: Db, c: Commitment, outcome: Progress)
    ensures DbLasts(db, CompleteExecution(db, c, outcome))
  {
    var r := c.requestId;
    if r in db.executions && db.executions[r].progress.Dispatching? {
      ClosingLasts(db, r, outcome);
      RequireLasts(db.(executions := db.executions[r := db.executions[r].(progress := outcome)]), r, c.run, c.organization,
                   c.action, c.payloadDigest, OUTCOME_UNKNOWN);
    }
  }

  lemma PreparationLasts(db: Db, run: Id, r: Id, step: Id, v: View, stale: nat, now: Time)
    ensures DbLasts(db, PrepareExecution(db, run, r, step, v, stale, now).0)
  {
    var (after, answer) := PrepareExecution(db, run, r, step, v, stale, now);
    if answer.Ok? {
      var due := Due(db, now, Some(db.runs[run].organization));
      var swept := Expire(db, due);
      ExpiryLeavesTheRecord(db, due);
      PrepareCases(swept, run, r, step, v, stale, now);
      InterruptLasts(swept, r);
    }
  }

  lemma SameRecordLasts(a: Db, b: Db)
    requires SameRecord(a, b)
    ensures DbLasts(a, b)
  {}

  lemma RequestLasts(db: Db, q: Asked, v: View, now: Time, approvalId: Id)
    ensures DbLasts(db, RequestAction(db, q, v, now, approvalId).0)
  {
    RequestCases(db, q, v, now, approvalId);
  }

  lemma ResolutionLasts(db: Db, tenant: Id, r: Id, found: bool)
    ensures DbLasts(db, ResolveReconciliation(db, tenant, r, found).0)
  {}

  lemma OutsideActsLast(stale: nat, w: World, act: Act)
    requires Core(w) && (act.CallConnector? || act.RecordOutcome? || act.StopDispatcher?)
    ensures Lasts(w, Apply(stale, w, act))
  {
    assert At(w, act.requestId);
    if act.RecordOutcome? && act.requestId in w.flights && w.flights[act.requestId].reply.Some? {
      var c := w.flights[act.requestId].commitment;
      CompletionLasts(w.db, c, Outcome(EffectOf(c.action), w.flights[act.requestId].reply.value));
    }
  }

  lemma ApplyLasts(stale: nat, w: World, act: Act)
    requires Core(w)
    ensures Lasts(w, Apply(stale, w, act))
  {
    match act {
      case AskAction(q, v, now, approvalId) => RequestLasts(w.db, q, v, now, approvalId);
      case AskExecution(run, r, step, v, now) => PreparationLasts(w.db, run, r, step, v, stale, now);
      case CloseInterrupted(batch, now) => InterruptAllLasts(w.db, batch);
      case Reconcile(tenant, r, found) => ResolutionLasts(w.db, tenant, r, found);
      case _ =>
        if AboutPermissions(act) {
          PermissionsLeaveTheRecord(stale, w, act);
          SameRecordLasts(w.db, Apply(stale, w, act).db);
        } else {
          OutsideActsLast(stale, w, act);
        }
    }
  }

  /** Requests and their decisions, recorded outcomes, replies and resolutions stand for good. */
  lemma {:induction false} HistoryLasts(stale: nat, acts: seq<Act>, n: nat)
    requires n <= |acts|
    ensures Lasts(After(stale, acts[..n]), After(stale, acts))
    decreases |acts|
  {
    if n == |acts| {
      assert acts[..n] == acts;
    } else {
      var before := acts[..|acts| - 1];
      assert acts[..n] == before[..n];
      HistoryLasts(stale, before, n);
      EveryHistoryKeeps(stale, before);
      ApplyLasts(stale, After(stale, before), acts[|acts| - 1]);
    }
  }

  // ---- The record is true -----------------------------------------------------------------

  /**
   A write recorded as succeeded did succeed at the connector; one that failed with a definite code
   did not happen and never will, however late an answer comes or whichever control plane stops.
   */
  lemma RecordedOutcomesAreTrue(stale: nat, acts: seq<Act>, n: nat, r: Id)
    requires n <= |acts| && r in After(stale, acts[..n]).db.executions && r in After(stale, acts[..n]).db.requests
    ensures var early, late := After(stale, acts[..n]), After(stale, acts);
            match early.db.executions[r].progress
            case Dispatching => true
            case Succeeded => r in early.replies && early.replies[r].Returned? && r in early.happened
            case Broken(code) => !UnknownCode(code) && IsWrite(early, r) ==> r !in late.happened
  {
    EveryHistoryKeeps(stale, acts[..n]);
    EveryHistoryKeeps(stale, acts);
    HistoryLasts(stale, acts, n);
    assert At(After(stale, acts[..n]), r) && At(After(stale, acts), r);
  }

  /**
   A reconciliation is open or resolved for exactly the writes whose recorded outcome is unknown,
   whether the connector said so or a stopped control plane left them, and with their own payload.
   */
  lemma ReconciliationsAreExact(stale: nat, acts: seq<Act>, r: Id)
    ensures var w := After(stale, acts);
            (r in w.db.reconciliations <==> Unresolved(w, r)) &&
            (r in w.db.reconciliations ==>
               w.db.requests[r].parameters.Some? &&
               w.db.reconciliations[r].payloadDigest == DigestOf(w.db.requests[r].parameters.value) &&
               w.db.reconciliations[r].action == w.db.requests[r].action &&
               w.db.executions[r].progress == Broken(w.db.reconciliations[r].reason))
  {
    EveryHistoryKeeps(stale, acts);
    assert At(After(stale, acts), r);
  }

  /** What is on record is what the connector answered, unless the dispatch was closed as interrupted. */
  ghost predicate AnswerAt(w: World, r: Id) {
    r in w.db.executions && r in w.db.requests ==>
      var p := w.db.executions[r].progress;
      p.Dispatching? || p == Broken(INTERRUPTED) ||
      if r in w.replies then OutcomeFits(EffectOf(w.db.requests[r].action), w.replies[r], p)
      else p.Broken? && !UnknownCode(p.code)
  }

  /** Nothing about the outcome of `r` differs. */
  ghost predicate SameOutcome(w: World, x: World, r: Id) {
    (r in x.db.executions <==> r in w.db.executions) &&
    (r in w.db.executions ==>
       r in w.db.requests && r in x.db.requests && x.db.requests[r] == w.db.requests[r] &&
       x.db.executions[r] == w.db.executions[r]) &&
    (r in x.replies <==> r in w.replies) && (r in w.replies ==> x.replies[r] == w.replies[r])
  }

  lemma RecordsStand(stale: nat, w: World, act: Act, r: Id)
    requires Core(w) && (AboutPermissions(act) || act.AskAction? || act.StopDispatcher? || act.Reconcile?)
    ensures SameOutcome(w, Apply(stale, w, act), r)
  {
    assert At(w, r);
    if AboutPermissions(act) {
      PermissionsLeaveTheRecord(stale, w, act);
    } else if act.AskAction? {
      RequestCases(w.db, act.q, act.v, act.now, act.approvalId);
    }
  }

  /** A preparation leaves a row as it was, interrupts it, or makes it: as a dispatch or as a refusal. */
  ghost predicate RowMade(db: Db, after: Db, s: Id) {
    after.requests == db.requests &&
    (s in after.executions ==>
       var p := after.executions[s].progress;
       if s in db.executions then after.executions[s] == db.executions[s] || p == Broken(INTERRUPTED)
       else p.Dispatching? || (p.Broken? && !UnknownCode(p.code)))
  }

  lemma PreparedRow(db: Db, run: Id, r: Id, step: Id, v: View, stale: nat, now: Time, s: Id)
    requires run in db.runs && Prepare(db, run, r, step, v, stale, now).1.Ok?
    ensures RowMade(db, Prepare(db, run, r, step, v, stale, now).0, s)
  {
    PrepareCases(db, run, r, step, v, stale, now);
    if r in db.executions { OneIsClosed(db, r); }
    else { DispatchProblemIsKnown(db, db.runs[run], db.requests[r], v, now); }
  }

  lemma PreparationAnswers(stale: nat, w: World, act: Act, r: Id)
    requires Core(w) && AnswerAt(w, r) && act.AskExecution?
    ensures AnswerAt(Apply(stale, w, act), r)
  {
    assert At(w, r);
    var plan := PrepareExecution(w.db, act.run, act.requestId, act.step, act.v, stale, act.now);
    if plan.1.Ok? {
      var due := Due(w.db, act.now, Some(w.db.runs[act.run].organization));
      ExpiryLeavesTheRecord(w.db, due);
      PreparedRow(Expire(w.db, due), act.run, act.requestId, act.step, act.v, stale, act.now, r);
    }
  }

  lemma RecordingAnswers(w: World, r: Id, s: Id)
    requires Core(w) && AnswerAt(w, s) && r in w.flights && w.flights[r].reply.Some?
    ensures AnswerAt(Recorded(w, r), s)
  {
    assert At(w, r) && At(w, s);
    CompletionIsExact(w.db, w.flights[r].commitment, w.flights[r].reply.value);
  }

  lemma ApplyAnswers(stale: nat, w: World, act: Act, r: Id)
    requires Core(w) && AnswerAt(w, r)
    ensures AnswerAt(Apply(stale, w, act), r)
  {
    assert At(w, r);
    match act {
      case AskExecution(_, _, _, _, _) => PreparationAnswers(stale, w, act, r);
      case CallConnector(_, _, _) =>
      case RecordOutcome(s) => if s in w.flights && w.flights[s].reply.Some? { RecordingAnswers(w, s, r); }
      case CloseInterrupted(batch, _) => InterruptedAreClosed(w.db, batch);
      case _ => RecordsStand(stale, w, act, r);
    }
  }

  lemma {:induction false} EveryHistoryAnswers(stale: nat, acts: seq<Act>, r: Id)
    ensures AnswerAt(After(stale, acts), r)
  {
    if acts != [] {
      EveryHistoryAnswers(stale, acts[..|acts| - 1], r);
      EveryHistoryKeeps(stale, acts[..|acts| - 1]);
      ApplyAnswers(stale, After(stale, acts[..|acts| - 1]), acts[|acts| - 1], r);
    }
  }

  /**
   Whatever the history, a recorded outcome is the one its connector's reply asks for: a call that returned
   is a success, an error keeps its code. Only a dispatch nobody answered for is recorded as interrupted.
   */
  lemma OutcomesAreAnswers(stale: nat, acts: seq<Act>, r: Id)
    requires r in After(stale, acts).db.executions && r in After(stale, acts).replies
    ensures r in After(stale, acts).db.requests
    ensures var w := After(stale, acts);
            var p := w.db.executions[r].progress;
            p.Dispatching? || p == Broken(INTERRUPTED) || OutcomeFits(EffectOf(w.db.requests[r].action), w.replies[r], p)
  {
    EveryHistoryKeeps(stale, acts);
    assert At(After(stale, acts), r);
    EveryHistoryAnswers(stale, acts, r);
  }

  /** A write is put to reconciliation as unknown only if its connector did not return, and did not say why. */
  lemma UnknownWritesDidNotReturn(stale: nat, acts: seq<Act>, r: Id)
    requires r in After(stale, acts).db.reconciliations && After(stale, acts).db.reconciliations[r].reason == OUTCOME_UNKNOWN
    ensures r in After(stale, acts).replies && After(stale, acts).replies[r] in {ConnectorError(OutcomeUnknown), OtherError}
  {
    ReconciliationsAreExact(stale, acts, r);
    EveryHistoryKeeps(stale, acts);
    assert At(After(stale, acts), r);
    EveryHistoryAnswers(stale, acts, r);
  }

  /** A dispatch is closed as interrupted only by someone who finds it older than a dispatch may be. */
  lemma OnlyStaleOnesAreInterrupted(stale: nat, w: World, act: Act, r: Id)
    requires Core(w) && r in w.db.executions && w.db.executions[r].progress.Dispatching?
    requires r in Apply(stale, w, act).db.executions && Apply(stale, w, act).db.executions[r].progress == Broken(INTERRUPTED)
    ensures (act.AskExecution? && act.requestId == r && act.now - w.db.executions[r].startedAt >= stale) ||
            (act.CloseInterrupted? && r in act.batch && |act.batch| <= 100 && act.now - w.db.executions[r].startedAt > stale)
  {
    assert At(w, r);
    match act {
      case AskExecution(_, _, _, _, _) => InterruptedWhenAsked(stale, w, act, r);
      case CallConnector(_, _, _) =>
      case RecordOutcome(s) =>
        if s in w.flights && w.flights[s].reply.Some? {
          assert At(w, s);
          CompletionIsExact(w.db, w.flights[s].commitment, w.flights[s].reply.value);
        }
      case CloseInterrupted(batch, _) => InterruptedAreClosed(w.db, batch);
      case _ => RecordsStand(stale, w, act, r);
    }
  }

  lemma PreparedWhenStale(db: Db, run: Id, s: Id, step: Id, v: View, stale: nat, now: Time, r: Id)
    requires run in db.runs && Prepare(db, run, s, step, v, stale, now).1.Ok? && r in db.executions
    ensures var after := Prepare(db, run, s, step, v, stale, now).0;
            r in after.executions &&
            (after.executions[r] == db.executions[r] || (s == r && now - db.executions[r].startedAt >= stale))
  {
    PrepareCases(db, run, s, step, v, stale, now);
    if s in db.executions { OneIsClosed(db, s); }
  }

  lemma InterruptedWhenAsked(stale: nat, w: World, act: Act, r: Id)
    requires act.AskExecution? && r in w.db.executions && w.db.executions[r].progress.Dispatching?
    requires r in Apply(stale, w, act).db.executions && Apply(stale, w, act).db.executions[r].progress == Broken(INTERRUPTED)
    ensures act.requestId == r && act.now - w.db.executions[r].startedAt >= stale
  {
    var plan := PrepareExecution(w.db, act.run, act.requestId, act.step, act.v, stale, act.now);
    if plan.1.Ok? {
      var due := Due(w.db, act.now, Some(w.db.runs[act.run].organization));
      ExpiryLeavesTheRecord(w.db, due);
      PreparedWhenStale(Expire(w.db, due), act.run, act.requestId, act.step, act.v, stale, act.now, r);
    }
  }

  // ---- The fence --------------------------------------------------------------------------

  /** The act puts a dispatch of request `r` on its way. */
  ghost predicate Commits(stale: nat, w: World, act: Act, r: Id) {
    act.AskExecution? && act.requestId == r && r !in w.db.executions &&
    r in Apply(stale, w, act).db.executions && Apply(stale, w, act).db.executions[r].progress.Dispatching?
  }

  /** How a dispatch came to be committed, on the tables as swept at that moment. */
  lemma CommittedFor(stale: nat, w: World, act: Act, r: Id)
    requires Commits(stale, w, act, r)
    ensures act.run in w.db.runs && r in w.db.requests && w.db.requests[r].parameters.Some?
    ensures var swept := ExpireDue(w.db, act.now, Some(w.db.runs[act.run].organization));
            FindRequest(swept, act.run, r, act.step) == Ok(w.db.requests[r]) &&
            DispatchProblem(swept, swept.runs[act.run], w.db.requests[r], act.v, act.now).None? &&
            Apply(stale, w, act) == Prepared(w, r, Commit(swept, w.db.requests[r], r, act.now))
  {
    var swept := ExpireDue(w.db, act.now, Some(w.db.runs[act.run].organization));
    PrepareCases(swept, act.run, r, act.step, act.v, stale, act.now);
  }

  lemma UnblockedCommit(db: Db, run: ActionGateway.Run, q: Request, v: View, now: Time)
    requires DispatchProblem(db, run, q, v, now).None? && EffectOf(q.action).Write?
    ensures q.parameters.Some? && !Blocks(db, run.organization, run.thread, q.action, DigestOf(q.parameters.value))
  {
    AssessmentIsStrict(q.action, q.parameters, false, v);
  }

  /** An open reconciliation of the action `r` performs, in the same organization. */
  predicate OpenFor(db: Db, open: Id, r: Id) {
    open in db.reconciliations && r in db.requests && db.reconciliations[open].standing.Required? &&
    db.reconciliations[open].organization == db.requests[r].organization &&
    db.reconciliations[open].action == db.requests[r].action
  }

  predicate SameThread(db: Db, open: Id, r: Id) {
    open in db.reconciliations && r in db.requests && db.requests[r].run in db.runs &&
    db.reconciliations[open].thread == db.runs[db.requests[r].run].thread
  }

  /** The payloads are equal up to the order of object keys. */
  predicate SamePayload(db: Db, a: Id, b: Id) {
    a in db.requests && b in db.requests && db.requests[a].parameters.Some? && db.requests[b].parameters.Some? &&
    Proper(db.requests[a].parameters.value) && Proper(db.requests[b].parameters.value) &&
    Same(db.requests[a].parameters.value, db.requests[b].parameters.value)
  }

  lemma BlockedWhileOpen(w: World, open: Id, r: Id)
    requires At(w, open) && At(w, r) && OpenFor(w.db, open, r)
    requires SameThread(w.db, open, r) || SamePayload(w.db, open, r)
    requires w.db.requests[r].parameters.Some?
    ensures var q := w.db.requests[r];
            q.run in w.db.runs &&
            Blocks(w.db, q.organization, w.db.runs[q.run].thread, q.action, DigestOf(q.parameters.value))
  {
    var q := w.db.requests[r];
    if SamePayload(w.db, open, r) { EqualDigestsAreSame(w.db.requests[open].parameters.value, q.parameters.value); }
    assert Blocking(w.db.reconciliations[open], q.organization, w.db.runs[q.run].thread, q.action,
                    DigestOf(q.parameters.value));
  }

  /** A recorded write is blocked exactly by an open reconciliation of its action, in its thread or for its payload. */
  lemma BlockedExactlyWhileOpen(stale: nat, acts: seq<Act>, r: Id)
    requires r in After(stale, acts).db.requests && After(stale, acts).db.requests[r].parameters.Some?
    requires forall s | s in After(stale, acts).db.requests && After(stale, acts).db.requests[s].parameters.Some? ::
               Proper(After(stale, acts).db.requests[s].parameters.value)
    ensures var db := After(stale, acts).db;
            var q := db.requests[r];
            q.run in db.runs &&
            (Blocks(db, q.organization, db.runs[q.run].thread, q.action, DigestOf(q.parameters.value)) <==>
             exists open :: OpenFor(db, open, r) && (SameThread(db, open, r) || SamePayload(db, open, r)))
  {
    var w := After(stale, acts);
    var q := w.db.requests[r];
    EveryHistoryKeeps(stale, acts);
    assert At(w, r);
    if Blocks(w.db, q.organization, w.db.runs[q.run].thread, q.action, DigestOf(q.parameters.value)) {
      var open :| open in w.db.reconciliations &&
                  Blocking(w.db.reconciliations[open], q.organization, w.db.runs[q.run].thread, q.action, DigestOf(q.parameters.value));
      assert At(w, open);
      EqualDigestsAreSame(w.db.requests[open].parameters.value, q.parameters.value);
      assert OpenFor(w.db, open, r) && (SameThread(w.db, open, r) || SamePayload(w.db, open, r));
    }
    if open :| OpenFor(w.db, open, r) && (SameThread(w.db, open, r) || SamePayload(w.db, open, r)) {
      assert At(w, open);
      BlockedWhileOpen(w, open, r);
    }
  }

  /**
   While a reconciliation is open, no write of its action is dispatched in its thread, nor one with
   the same payload, up to the order of object keys, anywhere in its organization.
   */
  lemma FenceHolds(stale: nat, acts: seq<Act>, act: Act, r: Id, open: Id)
    requires Commits(stale, After(stale, acts), act, r) && OpenFor(After(stale, acts).db, open, r)
    requires EffectOf(After(stale, acts).db.requests[r].action).Write?
    ensures !SameThread(After(stale, acts).db, open, r) && !SamePayload(After(stale, acts).db, open, r)
  {
    var w := After(stale, acts);
    EveryHistoryKeeps(stale, acts);
    assert At(w, open) && At(w, r);
    CommittedFor(stale, w, act, r);
    var swept := ExpireDue(w.db, act.now, Some(w.db.runs[act.run].organization));
    UnblockedCommit(swept, swept.runs[act.run], w.db.requests[r], act.v, act.now);
    if SameThread(w.db, open, r) || SamePayload(w.db, open, r) {
      BlockedWhileOpen(w, open, r);
    }
  }

  /** Nor is such a write allowed or put to approval: a new request for it is denied. */
  lemma FencedRequestsAreDenied(db: Db, q: Asked, v: View, now: Time, approvalId: Id)
    requires q.run in db.runs && db.runs[q.run].status.Running? && q.requestId !in db.requests
    requires EffectOf(q.action).Write? && ControlPlaneAction(q.action).Some? && q.parameters.Some?
    requires Blocks(db, db.runs[q.run].organization, db.runs[q.run].thread, q.action, DigestOf(q.parameters.value))
    ensures var (after, answer) := RequestAction(db, q, v, now, approvalId);
            answer.Ok? && answer.value.decision.Denied? && after.requests[q.requestId].decision.Denied? &&
            after.requests[q.requestId].parameters.None?
  {
    if Assess(q.action, q.parameters, true, v).outcome != Policy.Deny {
      AssessmentIsStrict(q.action, q.parameters, true, v);
    }
  }

  // ---- One call per request ---------------------------------------------------------------

  ghost predicate CallsMade(w: World) {
    (forall i | 0 <= i < |w.calls| :: w.calls[i].requestId in w.replies && CarriesRequest(w, w.calls[i].requestId, w.calls[i])) &&
    (forall i, j | 0 <= i < j < |w.calls| :: w.calls[i].requestId != w.calls[j].requestId)
  }

  lemma ApplyCalls(stale: nat, w: World, act: Act)
    requires Core(w) && CallsMade(w)
    ensures CallsMade(Apply(stale, w, act))
  {
    var x := Apply(stale, w, act);
    ApplyLasts(stale, w, act);
    forall i | 0 <= i < |w.calls| ensures CarriesRequest(x, w.calls[i].requestId, w.calls[i]) {
      assert CarriesRequest(w, w.calls[i].requestId, w.calls[i]);
    }
    if act.CallConnector? {
      assert At(w, act.requestId);
    } else {
      assert x.calls == w.calls;
    }
  }

  lemma {:induction false} EveryHistoryCalls(stale: nat, acts: seq<Act>)
    ensures CallsMade(After(stale, acts))
  {
    if acts != [] {
      EveryHistoryCalls(stale, acts[..|acts| - 1]);
      EveryHistoryKeeps(stale, acts[..|acts| - 1]);
      ApplyCalls(stale, After(stale, acts[..|acts| - 1]), acts[|acts| - 1]);
    }
  }

  /** A request causes at most one connector call, ever, and with the payload it was decided for. */
  lemma OneCallPerRequest(stale: nat, acts: seq<Act>, i: nat, j: nat)
    requires i < |After(stale, acts).calls| && j < |After(stale, acts).calls|
    requires After(stale, acts).calls[i].requestId == After(stale, acts).calls[j].requestId
    ensures i == j && CarriesRequest(After(stale, acts), After(stale, acts).calls[i].requestId, After(stale, acts).calls[i])
  {
    EveryHistoryCalls(stale, acts);
  }
}
