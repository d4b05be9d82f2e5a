/**
 What the gateway has to answer. Each operation is described from the outside: the checks a request has
 to pass, in the order in which the first that fails is named, and what the tables hold afterwards. The
 transactions of `ActionGateway` are proved to do exactly that.
 */
module GatewayAnswers {
  import opened Wrappers
  import opened CanonicalJson
  import opened RunLifecycle
  import opened ActionGateway
  import Policy
  import ChangeSet

  /** Something that has to hold, and the code that says it does not. */
  datatype Check = Check(holds: bool, code: string)

  function FirstFrom(checks: seq<Check>, i: nat): Option<string>
    decreases |checks| - i
  {
    if i >= |checks| then None else if !checks[i].holds then Some(checks[i].code) else FirstFrom(checks, i + 1)
  }

  function FirstFailing(checks: seq<Check>): Option<string> {
    FirstFrom(checks, 0)
  }

  lemma UnfoldsAt(checks: seq<Check>, i: nat)
    requires i < |checks|
    ensures FirstFrom(checks, i) == if !checks[i].holds then Some(checks[i].code) else FirstFrom(checks, i + 1)
  {}

  lemma Unfolds(checks: seq<Check>)
    ensures forall i: nat {:trigger FirstFrom(checks, i)} | i < |checks| ::
              FirstFrom(checks, i) == (if !checks[i].holds then Some(checks[i].code) else FirstFrom(checks, i + 1))
  {
    forall i: nat | i < |checks|
      ensures FirstFrom(checks, i) == (if !checks[i].holds then Some(checks[i].code) else FirstFrom(checks, i + 1))
    {
      UnfoldsAt(checks, i);
    }
  }

  // ---- Assessment -------------------------------------------------------------------------

  function ManifestChecks(v: View): seq<Check> {
    [Check(v.manifestValid, "MANIFEST_INVALID"), Check(v.toolListed, "TOOL_NOT_IN_MANIFEST"),
     Check(v.bundleKnown, "BLUEPRINT_UNAVAILABLE"), Check(v.bundleMatches, "BLUEPRINT_DIGEST_MISMATCH"),
     Check(v.toolMatches, "TOOL_VERSION_MISMATCH"), Check(v.actionGoverned, "ACTION_NOT_GOVERNED_BY_TOOL"),
     Check(v.manifestOutcome.Some?, "ACTION_NOT_IN_MANIFEST")]
  }

  function ConnectorChecks(parameters: Option<Json>, publishes: bool, first: bool, v: View): seq<Check> {
    var resolved := ChangeSet.Resolve(v.writes, v.directory);
    [Check(parameters.Some?, "PARAMETERS_REQUIRED"), Check(v.parametersValid, "PARAMETERS_INVALID"),
     Check(first ==> v.inputMatches, "INPUT_DIGEST_MISMATCH"), Check(v.connection.Some?, "CONNECTOR_NOT_CONFIGURED"),
     Check(v.capabilityGranted, "CONNECTOR_CAPABILITY_MISSING"),
     Check(publishes ==> resolved.Changes?, if resolved.Problem? then resolved.code else ""),
     Check(!v.policyFails, "POLICY_UNAVAILABLE")]
  }

  function OperationChecks(parameters: Option<Json>, first: bool, v: View): seq<Check> {
    [Check(parameters.Some?, "PARAMETERS_REQUIRED"), Check(v.parametersValid, "PARAMETERS_INVALID"),
     Check(v.operationAllowed, "OPERATION_NOT_ALLOWED"), Check(first ==> v.inputMatches, "INPUT_DIGEST_MISMATCH"),
     Check(!v.policyFails, "POLICY_UNAVAILABLE")]
  }

  function ActionChecks(action: string, parameters: Option<Json>, first: bool, v: View): seq<Check> {
    match ControlPlaneAction(action)
    case Some(h) => ConnectorChecks(parameters, h.publishes, first, v)
    case None =>
      if Grantable(action) then OperationChecks(parameters, first, v) else [Check(!v.policyFails, "POLICY_UNAVAILABLE")]
  }

  function AssessmentProblem(action: string, parameters: Option<Json>, first: bool, v: View): Option<string> {
    var manifest := FirstFailing(ManifestChecks(v));
    if manifest.Some? then manifest else FirstFailing(ActionChecks(action, parameters, first, v))
  }

  /** What the policies are asked about. */
  function Question(action: string, v: View): Policy.Context {
    var scoped := ControlPlaneAction(action).Some? || Grantable(action);
    Policy.Context(action, v.manifestOutcome, v.organizationOutcome, if scoped then Some(v.inScope) else None)
  }

  /** The outcome is demanded by someone, and nobody demands more. */
  predicate Strictest(o: Policy.Outcome, demands: set<Policy.Outcome>) {
    o in demands && forall d | d in demands :: Policy.Rank(d) <= Policy.Rank(o)
  }

  /** What an assessment that passes all checks keeps for the request. */
  predicate Keeps(a: Assessment, action: string, parameters: Option<Json>, v: View) {
    var external, resolved := ControlPlaneAction(action), ChangeSet.Resolve(v.writes, v.directory);
    a.handler == external && a.execution == (external.None? && Grantable(action)) &&
    a.parameters == (if external.Some? || Grantable(action) then parameters else None) &&
    a.connection == (if external.Some? then v.connection else None) &&
    a.changes == (if external.Some? && external.value.publishes && resolved.Changes?
                  then Some(Published(resolved.digest, resolved.files)) else None)
  }

  /** What an assessment has to say: the first check that fails denies; else the strictest demand decides. */
  predicate Assesses(a: Assessment, action: string, parameters: Option<Json>, first: bool, v: View) {
    match AssessmentProblem(action, parameters, first, v)
    case Some(code) => a.outcome == Policy.Deny && a.reason == code && a.approvalTtlSeconds.None?
    case None =>
      Strictest(a.outcome, Policy.Demands(Question(action, v))) && Keeps(a, action, parameters, v) &&
      a.reason == Policy.Evaluate(Question(action, v)).reason &&
      a.approvalTtlSeconds == (if a.outcome == Policy.RequireApproval
                               then Some(Policy.ApprovalTtl(Policy.Platform(action).risk)) else None)
  }

  lemma JudgedStrictly(action: string, v: View, inScope: Option<bool>, found: Assessment)
    requires !v.policyFails
    ensures var c := Policy.Context(action, v.manifestOutcome, v.organizationOutcome, inScope);
            var a := Judge(action, v, inScope, found);
            Strictest(a.outcome, Policy.Demands(c)) &&
            a == found.(outcome := a.outcome, reason := a.reason, approvalTtlSeconds := a.approvalTtlSeconds) &&
            a.reason == Policy.Evaluate(c).reason &&
            (v.manifestOutcome.Some? ==> a.approvalTtlSeconds == (if a.outcome == Policy.RequireApproval
                                         then Some(Policy.ApprovalTtl(Policy.Platform(action).risk)) else None))
  {
    Policy.StrictestDemand(Policy.Context(action, v.manifestOutcome, v.organizationOutcome, inScope));
  }

  /** The part of `Assesses` that concerns the action, once the manifest is in order. */
  predicate ActionAssesses(a: Assessment, action: string, parameters: Option<Json>, first: bool, v: View) {
    match FirstFailing(ActionChecks(action, parameters, first, v))
    case Some(code) => a == DenyFor(code)
    case None =>
      Strictest(a.outcome, Policy.Demands(Question(action, v))) && Keeps(a, action, parameters, v) &&
      a.reason == Policy.Evaluate(Question(action, v)).reason &&
      a.approvalTtlSeconds == (if a.outcome == Policy.RequireApproval
                               then Some(Policy.ApprovalTtl(Policy.Platform(action).risk)) else None)
  }

  lemma ConnectorIsAssessed(action: string, parameters: Option<Json>, first: bool, v: View)
    requires ControlPlaneAction(action).Some? && v.manifestOutcome.Some?
    ensures ActionAssesses(if parameters.None? then DenyFor("PARAMETERS_REQUIRED")
                           else AssessConnector(action, ControlPlaneAction(action).value, parameters.value, first, v),
                           action, parameters, first, v)
  {
    var h := ControlPlaneAction(action).value;
    Unfolds(ConnectorChecks(parameters, h.publishes, first, v));
    if FirstFailing(ConnectorChecks(parameters, h.publishes, first, v)).None? {
      var changes := if h.publishes then Some(PublishedAt(v)) else None;
      JudgedStrictly(action, v, Some(v.inScope),
                     Assessment(Policy.Deny, "", None, Some(h), parameters, v.connection, changes, false));
    }
  }

  lemma OperationProblem(parameters: Option<Json>, first: bool, v: View)
    ensures FirstFailing(OperationChecks(parameters, first, v)) ==
            if parameters.None? then Some("PARAMETERS_REQUIRED") else if !v.parametersValid then Some("PARAMETERS_INVALID")
            else if !v.operationAllowed then Some("OPERATION_NOT_ALLOWED")
            else if first && !v.inputMatches then Some("INPUT_DIGEST_MISMATCH")
            else if v.policyFails then Some("POLICY_UNAVAILABLE") else None
  {
    Unfolds(OperationChecks(parameters, first, v));
  }

  /** What is found about an operation before the policies are asked. */
  function Operation(parameters: Option<Json>): Assessment {
    Assessment(Policy.Deny, "", None, None, parameters, None, None, true)
  }

  lemma OperationIsJudged(action: string, parameters: Option<Json>, first: bool, v: View)
    ensures (if parameters.None? then DenyFor("PARAMETERS_REQUIRED") else AssessOperation(action, parameters.value, first, v)) ==
            match FirstFailing(OperationChecks(parameters, first, v))
            case Some(code) => DenyFor(code)
            case None => Judge(action, v, Some(v.inScope), Operation(parameters))
  {
    OperationProblem(parameters, first, v);
  }

  lemma OperationIsAssessed(action: string, parameters: Option<Json>, first: bool, v: View)
    requires ControlPlaneAction(action).None? && Grantable(action) && v.manifestOutcome.Some?
    ensures ActionAssesses(if parameters.None? then DenyFor("PARAMETERS_REQUIRED")
                           else AssessOperation(action, parameters.value, first, v), action, parameters, first, v)
  {
    OperationIsJudged(action, parameters, first, v);
    assert ActionChecks(action, parameters, first, v) == OperationChecks(parameters, first, v);
    if FirstFailing(OperationChecks(parameters, first, v)).None? {
      OperationProblem(parameters, first, v);
      assert Question(action, v) == Policy.Context(action, v.manifestOutcome, v.organizationOutcome, Some(v.inScope));
      JudgedStrictly(action, v, Some(v.inScope), Operation(parameters));
    }
  }

  lemma OtherIsAssessed(action: string, parameters: Option<Json>, first: bool, v: View)
    requires ControlPlaneAction(action).None? && !Grantable(action) && v.manifestOutcome.Some?
    ensures ActionAssesses(Judge(action, v, None, DenyFor("")), action, parameters, first, v)
  {
    Unfolds([Check(!v.policyFails, "POLICY_UNAVAILABLE")]);
    if !v.policyFails { JudgedStrictly(action, v, None, DenyFor("")); }
  }

  /** What is assessed once the manifest is in order. */
  function AssessAction(action: string, parameters: Option<Json>, first: bool, v: View): Assessment {
    match ControlPlaneAction(action)
    case Some(h) =>
      if parameters.None? then DenyFor("PARAMETERS_REQUIRED") else AssessConnector(action, h, parameters.value, first, v)
    case None =>
      if !Grantable(action) then Judge(action, v, None, DenyFor(""))
      else if parameters.None? then DenyFor("PARAMETERS_REQUIRED")
      else AssessOperation(action, parameters.value, first, v)
  }

  lemma ActionIsAssessed(action: string, parameters: Option<Json>, first: bool, v: View)
    requires v.manifestOutcome.Some?
    ensures ActionAssesses(AssessAction(action, parameters, first, v), action, parameters, first, v)
  {
    if ControlPlaneAction(action).Some? {
      ConnectorIsAssessed(action, parameters, first, v);
    } else if Grantable(action) {
      OperationIsAssessed(action, parameters, first, v);
    } else {
      OtherIsAssessed(action, parameters, first, v);
    }
  }

  /** A manifest that is out of order denies before anything else is looked at. */
  lemma ManifestComesFirst(action: string, parameters: Option<Json>, first: bool, v: View)
    ensures var problem := FirstFailing(ManifestChecks(v));
            (problem.None? ==> v.manifestOutcome.Some?) &&
            Assess(action, parameters, first, v) ==
              if problem.Some? then DenyFor(problem.value) else AssessAction(action, parameters, first, v)
  {
    Unfolds(ManifestChecks(v));
  }

  /**
   An assessment names the first check that fails; if none does, it is the strictest of what platform,
   manifest, organization and scope demand, with the policy's time limit, for exactly what was asked.
   */
  lemma AssessmentIsExact(action: string, parameters: Option<Json>, first: bool, v: View)
    ensures Assesses(Assess(action, parameters, first, v), action, parameters, first, v)
  {
    ManifestComesFirst(action, parameters, first, v);
    if v.manifestOutcome.Some? { ActionIsAssessed(action, parameters, first, v); }
  }

  // ---- Decisions --------------------------------------------------------------------------

  /** A write that an open reconciliation blocks. */
  predicate Fenced(db: Db, q: Asked) {
    q.run in db.runs && EffectOf(q.action).Write? && ControlPlaneAction(q.action).Some? && q.parameters.Some? &&
    Blocks(db, db.runs[q.run].organization, db.runs[q.run].thread, q.action, DigestOf(q.parameters.value))
  }

  /** The decision of a new request is what was assessed, unless the write is fenced. */
  predicate FollowsAssessment(a: Assessment, fenced: bool, d: Decided) {
    (d.decision.Allowed? <==> a.outcome == Policy.Allow && !fenced) &&
    (d.decision.ApprovalRequired? <==> a.outcome == Policy.RequireApproval && !fenced) &&
    d.reason == if fenced && a.outcome != Policy.Deny then "ACTION_RECONCILIATION_REQUIRED" else a.reason
  }

  /** The new row is the request as asked and decided; payload and change set are kept unless it was denied. */
  predicate RowFits(run: ActionGateway.Run, q: Asked, a: Assessment, d: Decided, row: Request) {
    row.organization == run.organization && row.run == q.run && row.step == q.step && row.action == q.action &&
    row.hash == q.hash && row.decision == d.decision && row.reason == d.reason && row.approvalId == d.approvalId &&
    row.parameters == (if d.decision.Denied? then None else a.parameters) &&
    row.changes == (if d.decision.Denied? then None else a.changes)
  }

  /** An approval asked by the run's employee, for as long as the policy allows, pauses the run. */
  predicate ApprovalAsked(db: Db, after: Db, q: Asked, a: Assessment, now: Time, approvalId: Id, d: Decided)
    requires q.run in db.runs
  {
    var run := db.runs[q.run];
    if d.decision.ApprovalRequired? then
      a.approvalTtlSeconds.Some? && d.approvalId == Some(approvalId) && approvalId !in db.approvals &&
      after.approvals == db.approvals[approvalId :=
        Approval(run.organization, run.employee, q.run, Pending, None, now + a.approvalTtlSeconds.value * 1000)] &&
      after.runs == db.runs[q.run := run.(status := WaitingForApproval, reason := Some("APPROVAL_REQUIRED"))]
    else d.approvalId.None? && after.approvals == db.approvals && after.runs == db.runs
  }

  predicate DecidesNew(db: Db, after: Db, q: Asked, a: Assessment, now: Time, approvalId: Id, d: Decided)
    requires q.run in db.runs
  {
    FollowsAssessment(a, Fenced(db, q), d) && ApprovalAsked(db, after, q, a, now, approvalId, d) &&
    q.requestId in after.requests && RowFits(db.runs[q.run], q, a, d, after.requests[q.requestId]) &&
    after.requests == db.requests[q.requestId := after.requests[q.requestId]] &&
    after.executions == db.executions && after.grants == db.grants && after.reconciliations == db.reconciliations
  }

  /** The assessment with the fence. */
  function FencedVerdict(a: Assessment, fenced: bool): Assessment {
    if a.outcome != Policy.Deny && fenced
    then a.(outcome := Policy.Deny, reason := "ACTION_RECONCILIATION_REQUIRED", approvalTtlSeconds := None) else a
  }

  lemma VerdictIs(db: Db, q: Asked, v: View)
    requires q.run in db.runs
    ensures Verdict(db, db.runs[q.run], q, v) == FencedVerdict(Assess(q.action, q.parameters, true, v), Fenced(db, q))
    ensures var a := Assess(q.action, q.parameters, true, v); a.outcome == Policy.RequireApproval ==> a.approvalTtlSeconds.Some?
  {
    if Assess(q.action, q.parameters, true, v).outcome != Policy.Deny { AssessmentIsStrict(q.action, q.parameters, true, v); }
  }

  /** What is written for a verdict, whatever it is. */
  lemma EnactedFits(db: Db, q: Asked, a: Assessment, now: Time, approvalId: Id)
    requires q.run in db.runs && db.runs[q.run].status.Running? && Enact(db, q, a, now, approvalId).1.Ok?
    requires a.outcome == Policy.RequireApproval ==> a.approvalTtlSeconds.Some?
    ensures var (after, answer) := Enact(db, q, a, now, approvalId);
            var d, run := answer.value, db.runs[q.run];
            d.decision == (match a.outcome case Allow => Allowed case Deny => Denied case RequireApproval => ApprovalRequired) &&
            d.reason == a.reason && d.approvalId == (if a.outcome == Policy.RequireApproval then Some(approvalId) else None) &&
            after == db.(requests := db.requests[q.requestId :=
              Request(run.organization, q.run, q.step, q.action, q.hash, d.decision, a.reason,
                      if d.decision.Denied? then None else a.parameters, if d.decision.Denied? then None else a.changes,
                      d.approvalId)],
              approvals := after.approvals, runs := after.runs) &&
            if a.outcome == Policy.RequireApproval
            then approvalId !in db.approvals &&
                 after.approvals == db.approvals[approvalId :=
                   Approval(run.organization, run.employee, q.run, Pending, None, now + a.approvalTtlSeconds.value * 1000)] &&
                 after.runs == db.runs[q.run := run.(status := WaitingForApproval, reason := Some("APPROVAL_REQUIRED"))]
            else after.approvals == db.approvals && after.runs == db.runs
  {}

  lemma VerdictFits(db: Db, q: Asked, a: Assessment, now: Time, approvalId: Id)
    requires q.run in db.runs && db.runs[q.run].status.Running? && q.requestId !in db.requests
    requires a.outcome == Policy.RequireApproval ==> a.approvalTtlSeconds.Some?
    requires Enact(db, q, FencedVerdict(a, Fenced(db, q)), now, approvalId).1.Ok?
    ensures var (after, answer) := Enact(db, q, FencedVerdict(a, Fenced(db, q)), now, approvalId);
            DecidesNew(db, after, q, a, now, approvalId, answer.value)
  {
    EnactedFits(db, q, FencedVerdict(a, Fenced(db, q)), now, approvalId);
  }

  /** When a request is accepted: a repeated one if it is the same, a new one of a running run under an unused id. */
  predicate Acceptable(db: Db, q: Asked, v: View, approvalId: Id) {
    q.run in db.runs &&
    if q.requestId in db.requests
    then db.requests[q.requestId].organization == db.runs[q.run].organization && db.requests[q.requestId].hash == q.hash
    else db.runs[q.run].status.Running? &&
         (approvalId in db.approvals ==> Assess(q.action, q.parameters, true, v).outcome != Policy.RequireApproval || Fenced(db, q))
  }

  predicate Refuses(db: Db, q: Asked, code: string) {
    if q.run !in db.runs then code == "RUNTIME_LEASE_REQUIRED"
    else if q.requestId in db.requests && db.requests[q.requestId].organization == db.runs[q.run].organization
    then code == "RUNTIME_ACTION_CONFLICT"
    else if !db.runs[q.run].status.Running? then code == "RUN_NOT_RUNNING"
    else code == if q.requestId in db.requests then "RUNTIME_ACTION_CONFLICT" else "APPROVAL_ID_TAKEN"
  }

  lemma NewRequestsAreAnswered(db: Db, q: Asked, a: Assessment, now: Time, approvalId: Id)
    requires q.run in db.runs && db.runs[q.run].status.Running? && q.requestId !in db.requests
    requires a.outcome == Policy.RequireApproval ==> a.approvalTtlSeconds.Some?
    ensures var (after, answer) := Enact(db, q, FencedVerdict(a, Fenced(db, q)), now, approvalId);
            (answer.Err? <==> approvalId in db.approvals && a.outcome == Policy.RequireApproval && !Fenced(db, q)) &&
            (answer.Err? ==> after == db && answer.code == "APPROVAL_ID_TAKEN") &&
            (answer.Ok? ==> DecidesNew(db, after, q, a, now, approvalId, answer.value))
  {
    if Enact(db, q, FencedVerdict(a, Fenced(db, q)), now, approvalId).1.Ok? { VerdictFits(db, q, a, now, approvalId); }
  }

  /** What a request is told, and why, in all cases. */
  lemma RequestsAreAnswered(db: Db, q: Asked, v: View, now: Time, approvalId: Id)
    ensures var (after, answer) := RequestAction(db, q, v, now, approvalId);
            (answer.Ok? <==> Acceptable(db, q, v, approvalId)) &&
            (answer.Err? || q.requestId in db.requests ==> after == db) &&
            (answer.Ok? && q.requestId !in db.requests ==>
               DecidesNew(db, after, q, Assess(q.action, q.parameters, true, v), now, approvalId, answer.value)) &&
            (answer.Ok? && q.requestId in db.requests ==>
               var row := db.requests[q.requestId];
               answer.value == Decided(row.decision, row.reason, if row.decision.ApprovalRequired? then row.approvalId else None)) &&
            (answer.Err? ==> Refuses(db, q, answer.code))
  {
    if q.run in db.runs && db.runs[q.run].status.Running? && q.requestId !in db.requests {
      VerdictIs(db, q, v);
      NewRequestsAreAnswered(db, q, Assess(q.action, q.parameters, true, v), now, approvalId);
    }
  }

  // ---- Outcomes ---------------------------------------------------------------------------

  /** What a connector's reply has to be recorded as. */
  predicate OutcomeFits(effect: Effect, reply: Reply, p: Progress) {
    (p.Succeeded? <==> reply.Returned?) && !p.Dispatching? &&
    (p == Broken(OUTCOME_UNKNOWN) <==> effect.Write? && (reply == ConnectorError(OutcomeUnknown) || reply.OtherError?)) &&
    (reply == ConnectorError(RequestFailed) ==> p == Broken("CONNECTOR_REQUEST_FAILED")) &&
    (reply == ConnectorError(ResponseInvalid) ==> p == Broken("CONNECTOR_RESPONSE_INVALID")) &&
    (effect.Read? && reply == ConnectorError(OutcomeUnknown) ==> p == Broken("CONNECTOR_REQUEST_FAILED")) &&
    (effect.Read? && reply.OtherError? ==> p == Broken("CONNECTOR_FAILED"))
  }

  /** A reconciliation is open for the write, with everything a person needs to look for it. */
  predicate Opens(db: Db, after: Db, r: Id, run: Id, organization: Id, action: string, payload: Digest, reason: string) {
    if run in db.runs && r !in db.reconciliations
    then after.reconciliations == db.reconciliations[r :=
           Reconciliation(organization, db.runs[run].thread, run, action, payload, reason, Required)]
    else after.reconciliations == db.reconciliations
  }

  /** Nothing but executions and reconciliations differs, and of the executions at most `r`. */
  predicate OnlyExecution(db: Db, after: Db, r: Id) {
    after == db.(executions := after.executions, reconciliations := after.reconciliations) &&
    after.executions.Keys == db.executions.Keys && forall s | s in db.executions && s != r :: after.executions[s] == db.executions[s]
  }

  lemma RepliesAreOutcomes(effect: Effect, reply: Reply)
    ensures OutcomeFits(effect, reply, Outcome(effect, reply))
  {}

  lemma OutcomeIsRecorded(db: Db, c: Commitment, p: Progress)
    ensures var after := CompleteExecution(db, c, p);
            OnlyExecution(db, after, c.requestId) &&
            if c.requestId in db.executions && db.executions[c.requestId].progress.Dispatching?
            then after.executions[c.requestId] == db.executions[c.requestId].(progress := p) &&
                 if p == Broken(OUTCOME_UNKNOWN) && EffectOf(c.action).Write?
                 then Opens(db, after, c.requestId, c.run, c.organization, c.action, c.payloadDigest, OUTCOME_UNKNOWN)
                 else after.reconciliations == db.reconciliations
            else after == db
  {}

  /** An open dispatch gets the outcome its reply asks for; a closed one stays as it was closed. */
  lemma CompletionIsExact(db: Db, c: Commitment, reply: Reply)
    ensures var after := CompleteExecution(db, c, Outcome(EffectOf(c.action), reply));
            OnlyExecution(db, after, c.requestId) &&
            if c.requestId in db.executions && db.executions[c.requestId].progress.Dispatching?
            then var p := after.executions[c.requestId].progress;
                 OutcomeFits(EffectOf(c.action), reply, p) &&
                 after.executions[c.requestId] == db.executions[c.requestId].(progress := p) &&
                 if p == Broken(OUTCOME_UNKNOWN)
                 then Opens(db, after, c.requestId, c.run, c.organization, c.action, c.payloadDigest, OUTCOME_UNKNOWN)
                 else after.reconciliations == db.reconciliations
            else after == db
  {
    RepliesAreOutcomes(EffectOf(c.action), reply);
    OutcomeIsRecorded(db, c, Outcome(EffectOf(c.action), reply));
  }

  /** An interrupted dispatch is closed as such, and a write among them put to reconciliation. */
  predicate Interrupts(db: Db, after: Db, r: Id)
    requires r in db.executions && r in db.requests
  {
    var e, q := db.executions[r], db.requests[r];
    OnlyExecution(db, after, r) && after.executions[r] == e.(progress := Broken(INTERRUPTED)) &&
    if EffectOf(q.action).Write? && q.parameters.Some?
    then Opens(db, after, r, e.run, e.organization, q.action, DigestOf(q.parameters.value), INTERRUPTED)
    else after.reconciliations == db.reconciliations
  }

  /** Every dispatch of the batch is interrupted, and no other execution differs. */
  predicate InterruptsAll(db: Db, after: Db, batch: seq<Id>) {
    after == db.(executions := after.executions, reconciliations := after.reconciliations) &&
    after.executions.Keys == db.executions.Keys &&
    (forall r | r in db.executions ::
       after.executions[r] == if r in batch && db.executions[r].progress.Dispatching? && r in db.requests
                              then db.executions[r].(progress := Broken(INTERRUPTED)) else db.executions[r]) &&
    forall r | r in db.reconciliations :: r in after.reconciliations && after.reconciliations[r] == db.reconciliations[r]
  }

  lemma OneIsClosed(db: Db, r: Id)
    ensures InterruptsAll(db, Interrupt(db, r), [r])
  {}

  lemma {:induction false} InterruptedAreClosed(db: Db, batch: seq<Id>)
    ensures InterruptsAll(db, InterruptAll(db, batch), batch)
  {
    if batch != [] {
      InterruptedAreClosed(db, batch[..|batch| - 1]);
      OneIsClosed(InterruptAll(db, batch[..|batch| - 1]), batch[|batch| - 1]);
      assert batch == batch[..|batch| - 1] + [batch[|batch| - 1]];
    }
  }

  // ---- Sweeps and approvals ---------------------------------------------------------------

  predicate Overdue(a: Approval, now: Time, organization: Option<Id>) {
    a.status.Pending? && a.expiresAt <= now && (organization.Some? ==> a.organization == organization.value)
  }

  /** An approval that paused the run is overdue. */
  ghost predicate Abandoned(db: Db, run: Id, now: Time, organization: Option<Id>) {
    exists id :: id in db.approvals && db.approvals[id].run == run && Overdue(db.approvals[id], now, organization)
  }

  /** Overdue approvals have expired, the runs waiting for them are cancelled, and nothing else differs. */
  ghost predicate Swept(db: Db, after: Db, now: Time, organization: Option<Id>) {
    after == db.(approvals := after.approvals, runs := after.runs) &&
    after.approvals.Keys == db.approvals.Keys && after.runs.Keys == db.runs.Keys &&
    (forall id | id in db.approvals ::
       after.approvals[id] == if Overdue(db.approvals[id], now, organization)
                              then db.approvals[id].(status := Expired) else db.approvals[id]) &&
    (forall run | run in db.runs ::
       after.runs[run] == if db.runs[run].status.WaitingForApproval? && Abandoned(db, run, now, organization)
                          then db.runs[run].(status := Cancelled, reason := Some("APPROVAL_EXPIRED")) else db.runs[run])
  }

  lemma SweepIsExact(db: Db, now: Time, organization: Option<Id>)
    ensures Swept(db, ExpireDue(db, now, organization), now, organization)
    ensures Due(db, now, organization) == set id | id in db.approvals && Overdue(db.approvals[id], now, organization)
  {
    var due := Due(db, now, organization);
    forall run | run in db.runs ensures PausedBy(db, due, run) <==> Abandoned(db, run, now, organization) {
      if PausedBy(db, due, run) {
        var id :| id in due && id in db.approvals && db.approvals[id].run == run;
        assert Overdue(db.approvals[id], now, organization);
      }
      if id :| id in db.approvals && db.approvals[id].run == run && Overdue(db.approvals[id], now, organization) {
        assert id in due;
      }
    }
  }

  function ApprovalChecks(db: Db, id: Id, actor: Id, organization: Id, now: Time): seq<Check> {
    var known := id in db.approvals && db.approvals[id].organization == organization;
    [Check(known, "APPROVAL_NOT_FOUND"),
     Check(known ==> db.approvals[id].requestedBy != actor, "SELF_APPROVAL_FORBIDDEN"),
     Check(known ==> !db.approvals[id].status.Expired? && !Overdue(db.approvals[id], now, Some(organization)), "APPROVAL_EXPIRED"),
     Check(known ==> db.approvals[id].status.Pending?, "APPROVAL_ALREADY_DECIDED")]
  }

  /** What becomes of the run that waits for a decided approval. */
  function Released(run: ActionGateway.Run, approved: bool): ActionGateway.Run {
    if !run.status.WaitingForApproval? then run
    else if approved then run.(status := Queued, reason := Some("APPROVAL_GRANTED"))
    else run.(status := Cancelled, reason := Some("APPROVAL_REJECTED"))
  }

  /** After the sweep the decision is written to the approval and the run it paused, and nowhere else. */
  predicate DecidedOn(swept: Db, after: Db, id: Id, approved: bool, actor: Id)
    requires id in swept.approvals
  {
    var a := swept.approvals[id];
    after == swept.(approvals := after.approvals, runs := after.runs) &&
    after.approvals == swept.approvals[id :=
      a.(status := if approved then Approved else ApprovalStatus.Rejected, decidedBy := Some(actor))] &&
    after.runs == if a.run in swept.runs then swept.runs[a.run := Released(swept.runs[a.run], approved)] else swept.runs
  }

  lemma DecisionIsExact(db: Db, id: Id, approved: bool, actor: Id, organization: Id, now: Time)
    ensures var (after, answer) := DecideApproval(db, id, approved, actor, organization, now);
            var swept := ExpireDue(db, now, Some(organization));
            match FirstFailing(ApprovalChecks(db, id, actor, organization, now))
            case Some(code) => answer == Err(code) && after == swept
            case None => answer.Ok? && id in swept.approvals && DecidedOn(swept, after, id, approved, actor)
  {
    SweepIsExact(db, now, Some(organization));
    Unfolds(ApprovalChecks(db, id, actor, organization, now));
  }

  // ---- Actions ----------------------------------------------------------------------------

  /** Three actions go to a connector, two of them writes; five are granted to the execution runtime. */
  lemma ActionsAre(action: string)
    ensures ControlPlaneAction(action).Some? <==> action in {"jira.issue.create", "jira.read", "repository.pull_request.create"}
    ensures ControlPlaneAction(action).Some? ==>
              (ControlPlaneAction(action).value.publishes <==> action == "repository.pull_request.create")
    ensures EffectOf(action).Read? <==> action == "jira.read"
    ensures ControlPlaneAction(action).Some? ==> ControlPlaneAction(action).value.effect == EffectOf(action)
    ensures Grantable(action) <==>
            action in {"repository.read", "repository.write", "qa.execute_playwright", "workspace.command",
                       "workspace.dependencies.install"}
    ensures Grantable(action) ==> ControlPlaneAction(action).None?
  {}

  // ---- Dispatches -------------------------------------------------------------------------

  /** The row the caller names: of its run, its organization and its step. */
  predicate Names(db: Db, run: Id, requestId: Id, step: Id) {
    run in db.runs && requestId in db.requests && db.requests[requestId].run == run &&
    db.requests[requestId].organization == db.runs[run].organization && db.requests[requestId].step == step
  }

  /** An approval has been granted for the request, and still holds. */
  function ApprovalChecksFor(db: Db, q: Request, now: Time): seq<Check> {
    var needed := q.decision.ApprovalRequired?;
    var known := needed && q.approvalId.Some? && q.approvalId.value in db.approvals &&
                 db.approvals[q.approvalId.value].organization == q.organization;
    [Check(!q.decision.Denied?, "ACTION_DENIED"),
     Check(needed ==> known, "APPROVAL_NOT_GRANTED"),
     Check(known ==> !db.approvals[q.approvalId.value].status.Expired? && now < db.approvals[q.approvalId.value].expiresAt,
           "APPROVAL_EXPIRED"),
     Check(known ==> db.approvals[q.approvalId.value].status.Approved?, "APPROVAL_NOT_GRANTED")]
  }

  /** The policies of the moment still let the action through, as decided, and it can be dispatched. */
  function DispatchChecks(db: Db, run: ActionGateway.Run, q: Request, a: Assessment, v: View): seq<Check> {
    [Check(a.outcome != Policy.Deny, "POLICY_DENIED"),
     Check(a.outcome == Policy.RequireApproval ==> !q.decision.Allowed?, "APPROVAL_REQUIRED"),
     Check(a.connection.Some? && a.parameters.Some?, "CONNECTOR_NOT_CONFIGURED"),
     Check((q.changes.Some? <==> a.changes.Some?) && (q.changes.Some? && a.changes.Some? ==> q.changes.value.digest == a.changes.value.digest),
           "CHANGE_SET_CHANGED"),
     Check(EffectOf(q.action).Write? && a.parameters.Some? ==>
             !Blocks(db, run.organization, run.thread, q.action, DigestOf(a.parameters.value)), "ACTION_RECONCILIATION_REQUIRED"),
     Check(v.secretKnown, "SECRET_UNRESOLVED")]
  }

  function Firstly(a: Option<string>, b: Option<string>): Option<string> {
    if a.Some? then a else b
  }

  /** What stands against dispatching the request now. */
  function DispatchStands(db: Db, run: ActionGateway.Run, q: Request, v: View, now: Time): Option<string> {
    Firstly(FirstFailing(ApprovalChecksFor(db, q, now)),
            FirstFailing(DispatchChecks(db, run, q, Assess(q.action, q.parameters, false, v), v)))
  }

  lemma ApprovalProblemIs(db: Db, q: Request, now: Time)
    ensures (if q.decision.Denied? then Some("ACTION_DENIED") else ApprovalProblem(db, q, now)) ==
            FirstFailing(ApprovalChecksFor(db, q, now))
  {
    Unfolds(ApprovalChecksFor(db, q, now));
  }

  lemma DispatchChecksAre(db: Db, run: ActionGateway.Run, q: Request, a: Assessment, v: View)
    ensures FirstFailing(DispatchChecks(db, run, q, a, v)) ==
            if a.outcome == Policy.Deny then Some("POLICY_DENIED")
            else if a.outcome == Policy.RequireApproval && q.decision.Allowed? then Some("APPROVAL_REQUIRED")
            else if a.connection.None? || a.parameters.None? then Some("CONNECTOR_NOT_CONFIGURED")
            else if DigestOfChanges(q.changes) != DigestOfChanges(a.changes) then Some("CHANGE_SET_CHANGED")
            else if EffectOf(q.action).Write? && Blocks(db, run.organization, run.thread, q.action, DigestOf(a.parameters.value))
            then Some("ACTION_RECONCILIATION_REQUIRED")
            else if !v.secretKnown then Some("SECRET_UNRESOLVED") else None
  {
    Unfolds(DispatchChecks(db, run, q, a, v));
  }

  lemma DispatchProblemIs(db: Db, run: ActionGateway.Run, q: Request, v: View, now: Time)
    ensures DispatchProblem(db, run, q, v, now) == DispatchStands(db, run, q, v, now)
  {
    ApprovalProblemIs(db, q, now);
    DispatchChecksAre(db, run, q, Assess(q.action, q.parameters, false, v), v);
  }

  /** Sweeping the overdue approvals makes no difference to what stands against a dispatch or a grant. */
  lemma SweepingStands(db: Db, q: Request, now: Time, organization: Id)
    requires q.organization == organization
    ensures FirstFailing(ApprovalChecksFor(ExpireDue(db, now, Some(organization)), q, now)) ==
            FirstFailing(ApprovalChecksFor(db, q, now))
  {
    SweepIsExact(db, now, Some(organization));
    Unfolds(ApprovalChecksFor(db, q, now));
    Unfolds(ApprovalChecksFor(ExpireDue(db, now, Some(organization)), q, now));
  }

  /** How an execution is answered, and what it leaves, on swept tables. */
  predicate Prepares(db: Db, after: Db, answer: Answer<Plan>, run: Id, r: Id, v: View, stale: nat, now: Time)
    requires run in db.runs && r in db.requests
  {
    var q := db.requests[r];
    if ControlPlaneAction(q.action).None? then answer == Err("ACTION_NOT_EXECUTABLE")
    else if r in db.executions then
      var e := db.executions[r];
      if !e.progress.Dispatching? then answer == Ok(Finished(e)) && after == db
      else if now < e.startedAt + stale then answer == Err("ACTION_EXECUTION_IN_PROGRESS")
      else Interrupts(db, after, r) && answer == Ok(Finished(e.(progress := Broken(INTERRUPTED))))
    else
      match DispatchStands(db, db.runs[run], q, v, now)
      case Some(code) =>
        var e := Execution(q.organization, run, Broken(code), now);
        answer == Ok(Finished(e)) && after == db.(executions := db.executions[r := e])
      case None =>
        q.parameters.Some? && after == db.(executions := db.executions[r := Execution(q.organization, run, Dispatching, now)]) &&
        answer == Ok(Dispatch(Commitment(r, q.organization, run, q.action, q.parameters.value, q.changes,
                                         DigestOf(q.parameters.value))))
  }

  lemma PreparationIsExact(db: Db, run: Id, r: Id, step: Id, v: View, stale: nat, now: Time)
    requires Names(db, run, r, step)
    ensures var (after, answer) := Prepare(db, run, r, step, v, stale, now);
            Prepares(db, after, answer, run, r, v, stale, now)
  {
    var q := db.requests[r];
    DispatchProblemIs(db, db.runs[run], q, v, now);
    if ControlPlaneAction(q.action).Some? && r !in db.executions && DispatchStands(db, db.runs[run], q, v, now).None? {
      AssessmentIsStrict(q.action, q.parameters, false, v);
    }
  }

  lemma UnnamedIsRefused(db: Db, run: Id, r: Id, step: Id, v: View, stale: nat, now: Time)
    requires run in db.runs && !Names(db, run, r, step)
    ensures Prepare(db, run, r, step, v, stale, now).1 ==
            Err(if r in db.requests && db.requests[r].run == run && db.requests[r].organization == db.runs[run].organization
                then "RUNTIME_CORRELATION_MISMATCH" else "ACTION_REQUEST_NOT_FOUND")
  {}

  // ---- Grants -----------------------------------------------------------------------------

  function GrantChecks(q: Request, a: Assessment): seq<Check> {
    [Check(a.outcome != Policy.Deny, "POLICY_DENIED"),
     Check(a.outcome == Policy.RequireApproval ==> !q.decision.Allowed?, "APPROVAL_REQUIRED"),
     Check(a.execution && a.parameters.Some? && q.parameters.Some?, "PARAMETERS_REQUIRED")]
  }

  function GrantStands(db: Db, q: Request, v: View, now: Time): Option<string> {
    Firstly(FirstFailing(ApprovalChecksFor(db, q, now)), FirstFailing(GrantChecks(q, Assess(q.action, q.parameters, false, v))))
  }

  lemma GrantChecksAre(q: Request, a: Assessment)
    ensures FirstFailing(GrantChecks(q, a)) ==
            if a.outcome == Policy.Deny then Some("POLICY_DENIED")
            else if a.outcome == Policy.RequireApproval && q.decision.Allowed? then Some("APPROVAL_REQUIRED")
            else if !a.execution || a.parameters.None? || q.parameters.None? then Some("PARAMETERS_REQUIRED") else None
  {
    Unfolds(GrantChecks(q, a));
  }

  lemma GrantProblemIs(db: Db, q: Request, v: View, now: Time)
    ensures GrantProblem(db, q, v, now) == GrantStands(db, q, v, now)
  {
    ApprovalProblemIs(db, q, now);
    GrantChecksAre(q, Assess(q.action, q.parameters, false, v));
  }

  /** Ten minutes, or as long as the approval lasts if that is shorter. */
  predicate EndsInTime(db: Db, q: Request, now: Time, end: Time) {
    var limit := now + 10 * 60_000;
    end <= limit &&
    if q.decision.ApprovalRequired? && q.approvalId.Some? && q.approvalId.value in db.approvals
    then var expiry := db.approvals[q.approvalId.value].expiresAt; end <= expiry && (end == limit || end == expiry)
    else end == limit
  }

  /** How a grant is answered, and what it leaves, on swept tables. */
  predicate Issues(db: Db, after: Db, answer: Answer<Grant>, run: Id, r: Id, v: View, now: Time, grantId: Id)
    requires run in db.runs && r in db.requests
  {
    var q := db.requests[r];
    if !Grantable(q.action) then answer == Err("ACTION_NOT_GRANTABLE")
    else if r in db.grants then
      after == db && answer == if db.grants[r].expiresAt <= now then Err("GRANT_EXPIRED") else Ok(db.grants[r])
    else
      match GrantStands(db, q, v, now)
      case Some(code) => answer == Err(code)
      case None =>
        if exists id | id in db.grants :: db.grants[id].grantId == grantId then answer == Err("GRANT_ID_TAKEN")
        else
          answer.Ok? && after == db.(grants := db.grants[r := answer.value]) && q.parameters.Some? &&
          answer.value == Grant(grantId, q.organization, run, DigestOf(q.parameters.value), now, answer.value.expiresAt) &&
          EndsInTime(db, q, now, answer.value.expiresAt)
  }

  lemma IssueIsExact(db: Db, run: Id, r: Id, step: Id, v: View, now: Time, grantId: Id)
    requires Names(db, run, r, step)
    ensures var (after, answer) := Issue(db, run, r, step, v, now, grantId);
            Issues(db, after, answer, run, r, v, now, grantId)
  {
    GrantProblemIs(db, db.requests[r], v, now);
    GrantChecksAre(db.requests[r], Assess(db.requests[r].action, db.requests[r].parameters, false, v));
  }

  // ---- Runs -------------------------------------------------------------------------------

  /** An accepted event moves its run and nothing else; one that resumes a run names an approval granted for it. */
  lemma EventIsExact(db: Db, run: Id, event: RunEvent, approvalId: Id, reason: Option<string>)
    ensures var (after, answer) := IngestEvent(db, run, event, approvalId, reason);
            (answer.Ok? <==>
               run in db.runs && DecideRuntimeEvent(db.runs[run].status, db.runs[run].reason, event).Accepted? &&
               (event.RunResumed? ==> approvalId in db.approvals && db.approvals[approvalId].run == run &&
                                      db.approvals[approvalId].status.Approved?)) &&
            (answer.Err? ==> after == db) &&
            (answer.Ok? ==>
               answer.value == DecideRuntimeEvent(db.runs[run].status, db.runs[run].reason, event).next &&
               after == db.(runs := if answer.value == db.runs[run].status then db.runs
                                    else db.runs[run := db.runs[run].(status := answer.value, reason := reason)]))
  {}

  /** A run that has not ended can be cancelled, whatever it is doing. */
  lemma CancellationIsExact(db: Db, run: Id, reason: string)
    ensures var (after, answer) := CancelRun(db, run, reason);
            (answer.Ok? <==> run in db.runs && !Terminal(db.runs[run].status)) &&
            after == if answer.Ok? then db.(runs := db.runs[run := db.runs[run].(status := Cancelled, reason := Some(reason))]) else db
  {}
}
