/**
 The Action Gateway: requests are decided once, approved by someone else, dispatched at most once,
 and closed as unknown when nobody can tell what happened. The tables are maps, a transaction is
 one function from tables to tables; an error rolls its transaction back. Clock readings, policy
 and manifest state, the recorded workspace writes and drawn identifiers are inputs of each call.
 */
module ActionGateway {
  import opened Wrappers
  import opened CanonicalJson
  import opened RunLifecycle
  import Policy
  import ChangeSet

  type Id = nat
  type Time = int

  // ---- Actions ----------------------------------------------------------------------------

  datatype Effect = Read | Write
  datatype Handler = Handler(effect: Effect, publishes: bool)

  function ControlPlaneAction(action: string): Option<Handler> {
    match action
    case "jira.issue.create" => Some(Handler(Write, false))
    case "jira.read" => Some(Handler(Read, false))
    case "repository.pull_request.create" => Some(Handler(Write, true))
    case _ => None
  }

  /** An action a control plane no longer knows is taken for a write. */
  function EffectOf(action: string): Effect {
    match ControlPlaneAction(action)
    case Some(h) => h.effect
    case None => Write
  }

  predicate Grantable(action: string) {
    action in {"repository.read", "repository.write", "qa.execute_playwright", "workspace.command",
               "workspace.dependencies.install"}
  }

  // ---- Tables -----------------------------------------------------------------------------

  datatype Run = Run(organization: Id, thread: Id, employee: Id, status: RunStatus, reason: Option<string>)

  datatype Decision = Allowed | Denied | ApprovalRequired

  datatype Published = Published(digest: Digest, files: seq<ChangeSet.File>)

  datatype Request = Request(
    organization: Id, run: Id, step: Id, action: string, hash: Digest,
    decision: Decision, reason: string, parameters: Option<Json>, changes: Option<Published>, approvalId: Option<Id>)

  datatype ApprovalStatus = Pending | Approved | Rejected | Expired

  datatype Approval = Approval(
    organization: Id, requestedBy: Id, run: Id, status: ApprovalStatus, decidedBy: Option<Id>, expiresAt: Time)

  datatype Progress = Dispatching | Succeeded | Broken(code: string)

  datatype Execution = Execution(organization: Id, run: Id, progress: Progress, startedAt: Time)

  datatype Grant = Grant(
    grantId: Id, organization: Id, run: Id, operationDigest: Digest, issuedAt: Time, expiresAt: Time)

  datatype Standing = Required | Applied | NotApplied

  datatype Reconciliation = Reconciliation(
    organization: Id, thread: Id, run: Id, action: string, payloadDigest: Digest, reason: string, standing: Standing)

  datatype Db = Db(
    runs: map<Id, Run>,
    requests: map<Id, Request>,
    approvals: map<Id, Approval>,
    executions: map<Id, Execution>,
    grants: map<Id, Grant>,
    reconciliations: map<Id, Reconciliation>)

  datatype Answer<+T> = Ok(value: T) | Err(code: string)

  const OUTCOME_UNKNOWN := "CONNECTOR_OUTCOME_UNKNOWN"
  const INTERRUPTED := "DISPATCH_INTERRUPTED"
  const GRANT_MS := 10 * 60_000

  predicate UnknownCode(code: string) {
    code == OUTCOME_UNKNOWN || code == INTERRUPTED
  }

  // ---- Assessment -------------------------------------------------------------------------

  /** Everything an assessment reads outside the gateway's tables, as it stands at one moment. */
  datatype View = View(
    manifestValid: bool,
    toolListed: bool,
    bundleKnown: bool,
    bundleMatches: bool,
    toolMatches: bool,
    actionGoverned: bool,
    manifestOutcome: Option<Policy.Outcome>,
    parametersValid: bool,
    operationAllowed: bool,
    inputMatches: bool,
    connection: Option<Id>,
    capabilityGranted: bool,
    inScope: bool,
    writes: seq<ChangeSet.Operation>,
    directory: Text,
    organizationOutcome: Option<Policy.Outcome>,
    policyFails: bool,
    secretKnown: bool)

  datatype Assessment = Assessment(
    outcome: Policy.Outcome, reason: string, approvalTtlSeconds: Option<nat>, handler: Option<Handler>,
    parameters: Option<Json>, connection: Option<Id>, changes: Option<Published>, execution: bool)

  function DenyFor(reason: string): Assessment {
    Assessment(Policy.Deny, reason, None, None, None, None, None, false)
  }

  function Judge(action: string, v: View, inScope: Option<bool>, found: Assessment): Assessment {
    if v.policyFails then DenyFor("POLICY_UNAVAILABLE")
    else
      var d := Policy.Evaluate(Policy.Context(action, v.manifestOutcome, v.organizationOutcome, inScope));
      found.(outcome := d.outcome, reason := d.reason, approvalTtlSeconds := d.approvalTtlSeconds)
  }

  function AssessConnector(action: string, h: Handler, parameters: Json, first: bool, v: View): Assessment {
    if !v.parametersValid then DenyFor("PARAMETERS_INVALID")
    else if first && !v.inputMatches then DenyFor("INPUT_DIGEST_MISMATCH")
    else if v.connection.None? then DenyFor("CONNECTOR_NOT_CONFIGURED")
    else if !v.capabilityGranted then DenyFor("CONNECTOR_CAPABILITY_MISSING")
    else if h.publishes then
      (match ChangeSet.Resolve(v.writes, v.directory)
       case Problem(code) => DenyFor(code)
       case Changes(digest, files) =>
         Judge(action, v, Some(v.inScope),
               Assessment(Policy.Deny, "", None, Some(h), Some(parameters), v.connection,
                          Some(Published(digest, files)), false)))
    else
      Judge(action, v, Some(v.inScope),
            Assessment(Policy.Deny, "", None, Some(h), Some(parameters), v.connection, None, false))
  }

  function AssessOperation(action: string, parameters: Json, first: bool, v: View): Assessment {
    if !v.parametersValid then DenyFor("PARAMETERS_INVALID")
    else if !v.operationAllowed then DenyFor("OPERATION_NOT_ALLOWED")
    else if first && !v.inputMatches then DenyFor("INPUT_DIGEST_MISMATCH")
    else Judge(action, v, Some(v.inScope), Assessment(Policy.Deny, "", None, None, Some(parameters), None, None, true))
  }

  /** A `first` assessment also checks the digest of the input the request was made for. */
  function Assess(action: string, parameters: Option<Json>, first: bool, v: View): Assessment {
    if !v.manifestValid then DenyFor("MANIFEST_INVALID")
    else if !v.toolListed then DenyFor("TOOL_NOT_IN_MANIFEST")
    else if !v.bundleKnown then DenyFor("BLUEPRINT_UNAVAILABLE")
    else if !v.bundleMatches then DenyFor("BLUEPRINT_DIGEST_MISMATCH")
    else if !v.toolMatches then DenyFor("TOOL_VERSION_MISMATCH")
    else if !v.actionGoverned then DenyFor("ACTION_NOT_GOVERNED_BY_TOOL")
    else if v.manifestOutcome.None? then DenyFor("ACTION_NOT_IN_MANIFEST")
    else match ControlPlaneAction(action)
      case Some(h) =>
        if parameters.None? then DenyFor("PARAMETERS_REQUIRED")
        else AssessConnector(action, h, parameters.value, first, v)
      case None =>
        if !Grantable(action) then Judge(action, v, None, DenyFor(""))
        else if parameters.None? then DenyFor("PARAMETERS_REQUIRED")
        else AssessOperation(action, parameters.value, first, v)
  }

  lemma JudgeIsStrict(action: string, v: View, inScope: Option<bool>, found: Assessment)
    requires Judge(action, v, inScope, found).outcome != Policy.Deny
    ensures var a := Judge(action, v, inScope, found);
            Policy.AtLeastAllOf(a.outcome, action, v.manifestOutcome, v.organizationOutcome) &&
            inScope != Some(false) && (a.outcome == Policy.RequireApproval <==> a.approvalTtlSeconds.Some?) &&
            a == found.(outcome := a.outcome, reason := a.reason, approvalTtlSeconds := a.approvalTtlSeconds)
  {
    Policy.NotDenied(Policy.Context(action, v.manifestOutcome, v.organizationOutcome, inScope));
  }

  function PublishedAt(v: View): Published
    requires ChangeSet.Resolve(v.writes, v.directory).Changes?
  {
    var c := ChangeSet.Resolve(v.writes, v.directory);
    Published(c.digest, c.files)
  }

  ghost predicate StrictFor(a: Assessment, action: string, parameters: Json, v: View) {
    Policy.AtLeastAllOf(a.outcome, action, v.manifestOutcome, v.organizationOutcome) &&
    v.inScope && a.parameters == Some(parameters) && (a.outcome == Policy.RequireApproval <==> a.approvalTtlSeconds.Some?)
  }

  lemma ConnectorIsStrict(action: string, h: Handler, parameters: Json, first: bool, v: View)
    requires AssessConnector(action, h, parameters, first, v).outcome != Policy.Deny
    ensures var a := AssessConnector(action, h, parameters, first, v);
            StrictFor(a, action, parameters, v) && a.handler == Some(h) && !a.execution &&
            a.connection == v.connection && v.connection.Some?
  {
    var changes := if h.publishes && ChangeSet.Resolve(v.writes, v.directory).Changes? then Some(PublishedAt(v)) else None;
    JudgeIsStrict(action, v, Some(v.inScope),
                  Assessment(Policy.Deny, "", None, Some(h), Some(parameters), v.connection, changes, false));
  }

  lemma OperationIsStrict(action: string, parameters: Json, first: bool, v: View)
    requires AssessOperation(action, parameters, first, v).outcome != Policy.Deny
    ensures var a := AssessOperation(action, parameters, first, v);
            StrictFor(a, action, parameters, v) && a.handler.None? && a.execution
  {
    JudgeIsStrict(action, v, Some(v.inScope), Assessment(Policy.Deny, "", None, None, Some(parameters), None, None, true));
  }

  /** Whatever is not denied is as strict as platform, manifest and organization, and is for the payload given. */
  lemma AssessmentIsStrict(action: string, parameters: Option<Json>, first: bool, v: View)
    requires Assess(action, parameters, first, v).outcome != Policy.Deny
    ensures var a := Assess(action, parameters, first, v);
            Policy.AtLeastAllOf(a.outcome, action, v.manifestOutcome, v.organizationOutcome) &&
            a.handler == ControlPlaneAction(action) &&
            a.execution == (ControlPlaneAction(action).None? && Grantable(action)) &&
            (a.handler.Some? || a.execution ==> v.inScope && a.parameters == parameters && parameters.Some?) &&
            (a.handler.Some? ==> a.connection == v.connection && v.connection.Some?) &&
            (a.outcome == Policy.RequireApproval <==> a.approvalTtlSeconds.Some?)
  {
    match ControlPlaneAction(action) {
      case Some(h) => ConnectorIsStrict(action, h, parameters.value, first, v);
      case None =>
        if Grantable(action) {
          OperationIsStrict(action, parameters.value, first, v);
        } else {
          JudgeIsStrict(action, v, None, DenyFor(""));
        }
    }
  }

  // ---- Reconciliation ---------------------------------------------------------------------

  predicate Blocking(r: Reconciliation, organization: Id, thread: Id, action: string, payload: Digest) {
    r.organization == organization && r.action == action && r.standing.Required? &&
    (r.thread == thread || r.payloadDigest == payload)
  }

  predicate Blocks(db: Db, organization: Id, thread: Id, action: string, payload: Digest) {
    exists id | id in db.reconciliations :: Blocking(db.reconciliations[id], organization, thread, action, payload)
  }

  /** Opened once per request. */
  function Require(db: Db, requestId: Id, run: Id, organization: Id, action: string, payload: Digest, reason: string): Db {
    if run !in db.runs || requestId in db.reconciliations then db
    else
      db.(reconciliations := db.reconciliations[requestId :=
            Reconciliation(organization, db.runs[run].thread, run, action, payload, reason, Required)])
  }

  function ResolveReconciliation(db: Db, organization: Id, requestId: Id, applied: bool): (Db, Answer<Standing>) {
    if requestId !in db.reconciliations || db.reconciliations[requestId].organization != organization
    then (db, Err("RECONCILIATION_NOT_FOUND"))
    else
      var r := db.reconciliations[requestId];
      if !r.standing.Required? then (db, Err("RECONCILIATION_RESOLVED"))
      else
        var standing := if applied then Applied else NotApplied;
        (db.(reconciliations := db.reconciliations[requestId := r.(standing := standing)]), Ok(standing))
  }

  // ---- Approvals --------------------------------------------------------------------------

  function Due(db: Db, now: Time, organization: Option<Id>): set<Id> {
    set id | id in db.approvals && db.approvals[id].status.Pending? && db.approvals[id].expiresAt <= now &&
             (organization.None? || db.approvals[id].organization == organization.value)
  }

  /** The given approvals expire, and the runs they paused are cancelled. */
  function Expire(db: Db, due: set<Id>): Db {
    db.(approvals := map id | id in db.approvals ::
          if id in due then db.approvals[id].(status := Expired) else db.approvals[id],
        runs := map r | r in db.runs ::
          if db.runs[r].status.WaitingForApproval? && PausedBy(db, due, r)
          then db.runs[r].(status := Cancelled, reason := Some("APPROVAL_EXPIRED")) else db.runs[r])
  }

  predicate PausedBy(db: Db, due: set<Id>, run: Id) {
    exists id | id in due :: id in db.approvals && db.approvals[id].run == run
  }

  function ExpireDue(db: Db, now: Time, organization: Option<Id>): Db {
    Expire(db, Due(db, now, organization))
  }

  function OnApprovalDecided(db: Db, run: Id, approved: bool): Db {
    if run !in db.runs || !db.runs[run].status.WaitingForApproval? then db
    else
      db.(runs := db.runs[run :=
            if approved then db.runs[run].(status := Queued, reason := Some(APPROVAL_GRANTED))
            else db.runs[run].(status := Cancelled, reason := Some("APPROVAL_REJECTED"))])
  }

  /** The sweep stands even if the decision is refused; everything else is one transaction. */
  function DecideApproval(before: Db, id: Id, approved: bool, actor: Id, organization: Id, now: Time): (Db, Answer<()>) {
    var db := ExpireDue(before, now, Some(organization));
    if id !in db.approvals || db.approvals[id].organization != organization then (db, Err("APPROVAL_NOT_FOUND"))
    else
      var a := db.approvals[id];
      if a.requestedBy == actor then (db, Err("SELF_APPROVAL_FORBIDDEN"))
      else if a.status.Expired? then (db, Err("APPROVAL_EXPIRED"))
      else if !a.status.Pending? then (db, Err("APPROVAL_ALREADY_DECIDED"))
      else
        var decided := a.(status := if approved then Approved else ApprovalStatus.Rejected, decidedBy := Some(actor));
        (OnApprovalDecided(db.(approvals := db.approvals[id := decided]), a.run, approved), Ok(()))
  }

  // ---- Deciding a request -----------------------------------------------------------------

  datatype Asked = Asked(requestId: Id, run: Id, step: Id, action: string, parameters: Option<Json>, hash: Digest)

  datatype Decided = Decided(decision: Decision, reason: string, approvalId: Option<Id>)

  function Stored(r: Request): Decided {
    Decided(r.decision, r.reason, if r.decision.ApprovalRequired? then r.approvalId else None)
  }

  /** The assessment, but a write that an open reconciliation blocks is denied whatever the policies say. */
  function Verdict(db: Db, run: Run, q: Asked, v: View): Assessment {
    var a := Assess(q.action, q.parameters, true, v);
    if a.outcome != Policy.Deny && a.handler.Some? && a.handler.value.effect.Write? && a.parameters.Some? &&
       Blocks(db, run.organization, run.thread, q.action, DigestOf(a.parameters.value))
    then a.(outcome := Policy.Deny, reason := "ACTION_RECONCILIATION_REQUIRED", approvalTtlSeconds := None)
    else a
  }

  function RequestRow(run: Run, q: Asked, a: Assessment, approvalId: Option<Id>): Request {
    var denied := a.outcome == Policy.Deny;
    Request(run.organization, q.run, q.step, q.action, q.hash,
            match a.outcome case Allow => Allowed case Deny => Denied case RequireApproval => ApprovalRequired,
            a.reason, if denied then None else a.parameters, if denied then None else a.changes, approvalId)
  }

  function Record(db: Db, run: Run, q: Asked, a: Assessment, approvalId: Option<Id>): (Db, Answer<Decided>) {
    var row := RequestRow(run, q, a, approvalId);
    (db.(requests := db.requests[q.requestId := row]), Ok(Stored(row)))
  }

  function Pause(db: Db, run: Id): Db
    requires run in db.runs
  {
    db.(runs := db.runs[run := db.runs[run].(status := WaitingForApproval, reason := Some("APPROVAL_REQUIRED"))])
  }

  /** Records the verdict; one that needs an approval creates it and pauses the run with it. */
  function Enact(db: Db, q: Asked, a: Assessment, now: Time, approvalId: Id): (Db, Answer<Decided>)
    requires q.run in db.runs && db.runs[q.run].status.Running?
  {
    var run := db.runs[q.run];
    if a.outcome != Policy.RequireApproval then Record(db, run, q, a, None)
    else if approvalId in db.approvals then (db, Err("APPROVAL_ID_TAKEN"))
    else
      var expiresAt := now + a.approvalTtlSeconds.UnwrapOr(3600) * 1000;
      var approval := Approval(run.organization, run.employee, q.run, Pending, None, expiresAt);
      Record(Pause(db.(approvals := db.approvals[approvalId := approval]), q.run), run, q, a, Some(approvalId))
  }

  function Decide(db: Db, q: Asked, v: View, now: Time, approvalId: Id): (Db, Answer<Decided>)
    requires q.run in db.runs && db.runs[q.run].status.Running?
  {
    Enact(db, q, Verdict(db, db.runs[q.run], q, v), now, approvalId)
  }

  /** A repeated request is answered as it was decided; another one under its id is refused. */
  function RequestAction(db: Db, q: Asked, v: View, now: Time, approvalId: Id): (Db, Answer<Decided>) {
    if q.run !in db.runs then (db, Err("RUNTIME_LEASE_REQUIRED"))
    else
      var run := db.runs[q.run];
      if q.requestId in db.requests && db.requests[q.requestId].organization == run.organization then
        if db.requests[q.requestId].hash == q.hash then (db, Ok(Stored(db.requests[q.requestId])))
        else (db, Err("RUNTIME_ACTION_CONFLICT"))
      else if !run.status.Running? then (db, Err("RUN_NOT_RUNNING"))
      else if q.requestId in db.requests then (db, Err("RUNTIME_ACTION_CONFLICT"))
      else Decide(db, q, v, now, approvalId)
  }

  // ---- Committing to a dispatch -----------------------------------------------------------

  /** What a committed dispatch takes to the connector. */
  datatype Commitment = Commitment(
    requestId: Id, organization: Id, run: Id, action: string, parameters: Json, changes: Option<Published>,
    payloadDigest: Digest)

  datatype Plan = Finished(execution: Execution) | Dispatch(commitment: Commitment)

  /** The dispatch is over and its outcome unknown; a write among such is put to reconciliation. */
  function Interrupt(db: Db, requestId: Id): Db {
    if requestId !in db.executions || !db.executions[requestId].progress.Dispatching? || requestId !in db.requests then db
    else
      var e, q := db.executions[requestId], db.requests[requestId];
      var closed := db.(executions := db.executions[requestId := e.(progress := Broken(INTERRUPTED))]);
      if EffectOf(q.action).Write? && q.parameters.Some?
      then Require(closed, requestId, e.run, e.organization, q.action, DigestOf(q.parameters.value), INTERRUPTED)
      else closed
  }

  function Refuse(db: Db, q: Request, requestId: Id, code: string, now: Time): (Db, Answer<Plan>) {
    var e := Execution(q.organization, q.run, Broken(code), now);
    (db.(executions := db.executions[requestId := e]), Ok(Finished(e)))
  }

  /** What stands against an approval at `now`, if anything. */
  function ApprovalProblem(db: Db, q: Request, now: Time): Option<string> {
    if !q.decision.ApprovalRequired? then None
    else if q.approvalId.None? || q.approvalId.value !in db.approvals then Some("APPROVAL_NOT_GRANTED")
    else
      var a := db.approvals[q.approvalId.value];
      if a.organization != q.organization then Some("APPROVAL_NOT_GRANTED")
      else if a.status.Expired? || a.expiresAt <= now then Some("APPROVAL_EXPIRED")
      else if !a.status.Approved? then Some("APPROVAL_NOT_GRANTED")
      else None
  }

  function DigestOfChanges(c: Option<Published>): Option<Digest> {
    if c.Some? then Some(c.value.digest) else None
  }

  /** Why the request may not be dispatched now, if it may not. */
  function DispatchProblem(db: Db, run: Run, q: Request, v: View, now: Time): Option<string> {
    if q.decision.Denied? then Some("ACTION_DENIED")
    else if ApprovalProblem(db, q, now).Some? then ApprovalProblem(db, q, now)
    else
      var a := Assess(q.action, q.parameters, false, v);
      if a.outcome == Policy.Deny then Some("POLICY_DENIED")
      else if a.outcome == Policy.RequireApproval && q.decision.Allowed? then Some("APPROVAL_REQUIRED")
      else if a.connection.None? || a.parameters.None? then Some("CONNECTOR_NOT_CONFIGURED")
      else if DigestOfChanges(q.changes) != DigestOfChanges(a.changes) then Some("CHANGE_SET_CHANGED")
      else if EffectOf(q.action).Write? &&
              Blocks(db, run.organization, run.thread, q.action, DigestOf(a.parameters.value))
      then Some("ACTION_RECONCILIATION_REQUIRED")
      else if !v.secretKnown then Some("SECRET_UNRESOLVED")
      else None
  }

  function Commit(db: Db, q: Request, requestId: Id, now: Time): (Db, Answer<Plan>)
    requires q.parameters.Some?
  {
    var p := q.parameters.value;
    (db.(executions := db.executions[requestId := Execution(q.organization, q.run, Dispatching, now)]),
     Ok(Dispatch(Commitment(requestId, q.organization, q.run, q.action, p, q.changes, DigestOf(p)))))
  }

  function Reopen(db: Db, requestId: Id, stale: nat, now: Time): (Db, Answer<Plan>)
    requires requestId in db.executions
  {
    var e := db.executions[requestId];
    if !e.progress.Dispatching? then (db, Ok(Finished(e)))
    else if e.startedAt + stale > now then (db, Err("ACTION_EXECUTION_IN_PROGRESS"))
    else
      var closed := Interrupt(db, requestId);
      (closed, Ok(Finished(if requestId in closed.executions then closed.executions[requestId] else e)))
  }

  /** The request a call names, if it is this run's and step's. */
  function FindRequest(db: Db, run: Id, requestId: Id, step: Id): Answer<Request>
    requires run in db.runs
  {
    if requestId !in db.requests || db.requests[requestId].organization != db.runs[run].organization ||
       db.requests[requestId].run != run
    then Err("ACTION_REQUEST_NOT_FOUND")
    else if db.requests[requestId].step != step then Err("RUNTIME_CORRELATION_MISMATCH")
    else Ok(db.requests[requestId])
  }

  function Prepare(db: Db, run: Id, requestId: Id, step: Id, v: View, stale: nat, now: Time): (Db, Answer<Plan>)
    requires run in db.runs
  {
    match FindRequest(db, run, requestId, step)
    case Err(code) => (db, Err(code))
    case Ok(q) =>
      if ControlPlaneAction(q.action).None? then (db, Err("ACTION_NOT_EXECUTABLE"))
      else if requestId in db.executions then Reopen(db, requestId, stale, now)
      else
        match DispatchProblem(db, db.runs[run], q, v, now)
        case Some(code) => Refuse(db, q, requestId, code, now)
        case None => if q.parameters.Some? then Commit(db, q, requestId, now) else (db, Err("CONNECTOR_NOT_CONFIGURED"))
  }

  /** An error rolls the sweep of expired approvals back with everything else. */
  function PrepareExecution(db: Db, run: Id, requestId: Id, step: Id, v: View, stale: nat, now: Time): (Db, Answer<Plan>) {
    if run !in db.runs || !db.runs[run].status.Running? then (db, Err("RUN_NOT_RUNNING"))
    else
      var (after, answer) :=
        Prepare(ExpireDue(db, now, Some(db.runs[run].organization)), run, requestId, step, v, stale, now);
      (if answer.Ok? then after else db, answer)
  }

  // ---- Outcomes ---------------------------------------------------------------------------

  datatype ConnectorCode = RequestFailed | ResponseInvalid | OutcomeUnknown

  /** What the connector call came back with. */
  datatype Reply = Returned | ConnectorError(code: ConnectorCode) | OtherError

  function CodeText(code: ConnectorCode): string {
    match code
    case RequestFailed => "CONNECTOR_REQUEST_FAILED"
    case ResponseInvalid => "CONNECTOR_RESPONSE_INVALID"
    case OutcomeUnknown => OUTCOME_UNKNOWN
  }

  function Outcome(effect: Effect, reply: Reply): Progress {
    match reply
    case Returned => Succeeded
    case ConnectorError(code) =>
      Broken(if effect.Read? && code.OutcomeUnknown? then "CONNECTOR_REQUEST_FAILED" else CodeText(code))
    case OtherError => Broken(if effect.Write? then OUTCOME_UNKNOWN else "CONNECTOR_FAILED")
  }

  /** Records an outcome unless the dispatch was already closed: that stands. */
  function CompleteExecution(db: Db, c: Commitment, outcome: Progress): Db {
    if c.requestId !in db.executions || !db.executions[c.requestId].progress.Dispatching? then db
    else
      var recorded := db.(executions :=
                            db.executions[c.requestId := db.executions[c.requestId].(progress := outcome)]);
      if EffectOf(c.action).Write? && outcome == Broken(OUTCOME_UNKNOWN)
      then Require(recorded, c.requestId, c.run, c.organization, c.action, c.payloadDigest, OUTCOME_UNKNOWN)
      else recorded
  }

  predicate Stale(db: Db, stale: nat, now: Time, requestId: Id) {
    requestId in db.executions && db.executions[requestId].progress.Dispatching? &&
    db.executions[requestId].startedAt < now - stale
  }

  /** Closes a batch of dispatches, one after another. */
  function InterruptAll(db: Db, batch: seq<Id>): Db {
    if batch == [] then db else Interrupt(InterruptAll(db, batch[..|batch| - 1]), batch[|batch| - 1])
  }

  const SWEEP_LIMIT := 100

  // ---- Grants -----------------------------------------------------------------------------

  function Earlier(a: Time, b: Time): Time {
    if a < b then a else b
  }

  function GrantEnd(db: Db, q: Request, now: Time): Time {
    if q.decision.ApprovalRequired? && q.approvalId.Some? && q.approvalId.value in db.approvals
    then Earlier(now + GRANT_MS, db.approvals[q.approvalId.value].expiresAt) else now + GRANT_MS
  }

  function GrantProblem(db: Db, q: Request, v: View, now: Time): Option<string> {
    if q.decision.Denied? then Some("ACTION_DENIED")
    else if ApprovalProblem(db, q, now).Some? then ApprovalProblem(db, q, now)
    else
      var a := Assess(q.action, q.parameters, false, v);
      if a.outcome == Policy.Deny then Some("POLICY_DENIED")
      else if a.outcome == Policy.RequireApproval && q.decision.Allowed? then Some("APPROVAL_REQUIRED")
      else if !a.execution || a.parameters.None? || q.parameters.None? then Some("PARAMETERS_REQUIRED")
      else None
  }

  /** The first grant under a request. */
  function IssueFirst(db: Db, q: Request, run: Id, requestId: Id, v: View, now: Time, grantId: Id): (Db, Answer<Grant>) {
    match GrantProblem(db, q, v, now)
    case Some(code) => (db, Err(code))
    case None =>
      if q.parameters.None? then (db, Err("PARAMETERS_REQUIRED"))
      else if exists id | id in db.grants :: db.grants[id].grantId == grantId then (db, Err("GRANT_ID_TAKEN"))
      else
        var g := Grant(grantId, q.organization, run, DigestOf(q.parameters.value), now, GrantEnd(db, q, now));
        (db.(grants := db.grants[requestId := g]), Ok(g))
  }

  function Issue(db: Db, run: Id, requestId: Id, step: Id, v: View, now: Time, grantId: Id): (Db, Answer<Grant>)
    requires run in db.runs
  {
    match FindRequest(db, run, requestId, step)
    case Err(code) => (db, Err(code))
    case Ok(q) =>
      if !Grantable(q.action) then (db, Err("ACTION_NOT_GRANTABLE"))
      else if requestId in db.grants then
        (db, if db.grants[requestId].expiresAt <= now then Err("GRANT_EXPIRED") else Ok(db.grants[requestId]))
      else IssueFirst(db, q, run, requestId, v, now, grantId)
  }

  function IssueGrant(db: Db, run: Id, requestId: Id, step: Id, v: View, now: Time, grantId: Id): (Db, Answer<Grant>) {
    if run !in db.runs || !db.runs[run].status.Running? then (db, Err("RUN_NOT_RUNNING"))
    else
      var (after, answer) := Issue(ExpireDue(db, now, Some(db.runs[run].organization)), run, requestId, step, v, now, grantId);
      (if answer.Ok? then after else db, answer)
  }

  // ---- Runs -------------------------------------------------------------------------------

  /** A runtime event: a resumed run names an approval that was granted for it. */
  function IngestEvent(db: Db, run: Id, event: RunEvent, approvalId: Id, reason: Option<string>): (Db, Answer<RunStatus>) {
    if run !in db.runs then (db, Err("RUN_NOT_FOUND"))
    else
      match DecideRuntimeEvent(db.runs[run].status, db.runs[run].reason, event)
      case Rejected(code) => (db, Err(code))
      case Accepted(next) =>
        if event.RunResumed? && !(approvalId in db.approvals && db.approvals[approvalId].run == run &&
                                  db.approvals[approvalId].status.Approved?)
        then (db, Err("RUNTIME_APPROVAL_MISMATCH"))
        else if next == db.runs[run].status then (db, Ok(next))
        else (db.(runs := db.runs[run := db.runs[run].(status := next, reason := reason)]), Ok(next))
  }

  function CancelRun(db: Db, run: Id, reason: string): (Db, Answer<()>) {
    if run !in db.runs then (db, Err("RUN_NOT_FOUND"))
    else if !CanTransition(db.runs[run].status, Cancelled) then (db, Err("RUN_TERMINAL"))
    else (db.(runs := db.runs[run := db.runs[run].(status := Cancelled, reason := Some(reason))]), Ok(()))
  }
}
