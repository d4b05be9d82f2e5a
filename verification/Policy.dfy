/**
 Policy v2: the platform decides by a table, and manifest, organization and scope may demand more, never less.
 */
module Policy {
  import opened Wrappers

  datatype Outcome = Allow | RequireApproval | Deny
  datatype Risk = Low | Medium | High | Critical

  datatype Ruling = Ruling(outcome: Outcome, risk: Risk, reason: string)

  /** What the decision may depend on besides the action; the scope is known only for a resource. */
  datatype Context = Context(
    action: string,
    manifestOutcome: Option<Outcome>,
    organizationOutcome: Option<Outcome>,
    inScope: Option<bool>)

  datatype Decision = Decision(outcome: Outcome, risk: Risk, reason: string, approvalTtlSeconds: Option<nat>)

  function Platform(action: string): Ruling {
    match action
    case "repository.read" =>
      Ruling(Allow, Low, "Read-only repository context is allowed for assigned projects.")
    case "repository.write" =>
      Ruling(Allow, Low, "Writing inside the agent's private workspace changes nothing outside it.")
    case "workspace.dependencies.install" =>
      Ruling(Allow, Medium, "Locked dependencies are installed in the sandbox from the configured registry only, "
                          + "with install scripts disabled.")
    case "workspace.command" =>
      Ruling(Allow, Medium, "Allow-listed project scripts run inside the sandboxed workspace without network access.")
    case "jira.read" =>
      Ruling(Allow, Low, "Read-only work-item context is allowed for assigned projects.")
    case "qa.plan" =>
      Ruling(Allow, Low, "Generating a test plan does not mutate an external system.")
    case "qa.execute_playwright" =>
      Ruling(RequireApproval, Medium, "Browser execution can affect a target environment and must be approved.")
    case "jira.issue.create" =>
      Ruling(RequireApproval, Medium, "Creating a Jira issue is an external write.")
    case "repository.pull_request.create" =>
      Ruling(RequireApproval, High, "Publishing repository changes requires human approval.")
    case "production.deploy" =>
      Ruling(Deny, Critical, "Employee agents cannot deploy to production.")
    case _ => Ruling(Deny, Critical, "Unknown actions are denied.")
  }

  function Rank(o: Outcome): nat {
    match o
    case Allow => 0
    case RequireApproval => 1
    case Deny => 2
  }

  function ApprovalTtl(risk: Risk): nat {
    match risk
    case Low => 24 * 3600
    case Medium => 24 * 3600
    case High => 8 * 3600
    case Critical => 3600
  }

  function Decide(outcome: Outcome, risk: Risk, reason: string): Decision {
    Decision(outcome, risk, reason, if outcome == RequireApproval then Some(ApprovalTtl(risk)) else None)
  }

  function Evaluate(c: Context): Decision {
    var base := Platform(c.action);
    if base.outcome == Deny then Decide(Deny, base.risk, base.reason)
    else if c.manifestOutcome.None? then Decide(Deny, Critical, "The agent manifest does not grant this action.")
    else if c.inScope == Some(false) then
      Decide(Deny, base.risk, "The target resource is outside the configured scope.")
    else
      var manifest := c.manifestOutcome.value;
      var (first, reason) :=
        if Rank(manifest) > Rank(base.outcome) then (manifest, "Restricted by the agent manifest.")
        else (base.outcome, base.reason);
      var (last, why) :=
        if c.organizationOutcome.Some? && Rank(c.organizationOutcome.value) > Rank(first)
        then (c.organizationOutcome.value, "Restricted by organization policy.")
        else (first, reason);
      Decide(last, base.risk, why)
  }

  // ---- Tighten-only combination -----------------------------------------------------------

  /** What each input asks for on its own. */
  function Demands(c: Context): set<Outcome> {
    {Platform(c.action).outcome, c.manifestOutcome.UnwrapOr(Deny), c.organizationOutcome.UnwrapOr(Allow),
     if c.inScope == Some(false) then Deny else Allow}
  }

  /** The decision is the strictest demand: one of them, and at least as strict as each. */
  lemma StrictestDemand(c: Context)
    ensures Evaluate(c).outcome in Demands(c)
    ensures forall o | o in Demands(c) :: Rank(o) <= Rank(Evaluate(c).outcome)
  {
    var base, e := Platform(c.action).outcome, Evaluate(c).outcome;
    assert e == base || Some(e) == c.manifestOutcome || Some(e) == c.organizationOutcome || e == Deny;
  }

  predicate AtLeastAllOf(o: Outcome, action: string, manifest: Option<Outcome>, organization: Option<Outcome>) {
    Rank(Platform(action).outcome) <= Rank(o) && Rank(manifest.UnwrapOr(Deny)) <= Rank(o) &&
    Rank(organization.UnwrapOr(Allow)) <= Rank(o)
  }

  /** What is not denied is in scope, at least as strict as every policy, and timed if it needs approval. */
  lemma NotDenied(c: Context)
    requires Evaluate(c).outcome != Deny
    ensures AtLeastAllOf(Evaluate(c).outcome, c.action, c.manifestOutcome, c.organizationOutcome)
    ensures c.inScope != Some(false)
    ensures Evaluate(c).approvalTtlSeconds.Some? <==> Evaluate(c).outcome == RequireApproval
  {
    StrictestDemand(c);
    assert Platform(c.action).outcome in Demands(c);
    assert c.manifestOutcome.UnwrapOr(Deny) in Demands(c);
    assert c.organizationOutcome.UnwrapOr(Allow) in Demands(c);
    assert (if c.inScope == Some(false) then Deny else Allow) in Demands(c);
  }

  ghost predicate Tighter(c: Context, d: Context) {
    c.action == d.action &&
    Rank(c.manifestOutcome.UnwrapOr(Deny)) <= Rank(d.manifestOutcome.UnwrapOr(Deny)) &&
    Rank(c.organizationOutcome.UnwrapOr(Allow)) <= Rank(d.organizationOutcome.UnwrapOr(Allow)) &&
    (c.inScope == Some(false) ==> d.inScope == Some(false))
  }

  /** Tightening any input never loosens the decision. */
  lemma TighteningTightens(c: Context, d: Context)
    requires Tighter(c, d)
    ensures Rank(Evaluate(c).outcome) <= Rank(Evaluate(d).outcome)
  {
    StrictestDemand(c);
    StrictestDemand(d);
    assert c.manifestOutcome.UnwrapOr(Deny) in Demands(c) && d.manifestOutcome.UnwrapOr(Deny) in Demands(d);
    assert c.organizationOutcome.UnwrapOr(Allow) in Demands(c) && d.organizationOutcome.UnwrapOr(Allow) in Demands(d);
    assert Platform(d.action).outcome in Demands(d);
    assert (if d.inScope == Some(false) then Deny else Allow) in Demands(d);
  }

  const ALLOWED: seq<string> := ["repository.read", "repository.write", "workspace.dependencies.install",
                                 "workspace.command", "jira.read", "qa.plan"]
  const APPROVED: seq<string> := ["qa.execute_playwright", "jira.issue.create", "repository.pull_request.create"]

  /** The platform lets through what reads, plans or stays in the workspace, and wants approved what reaches outside. */
  lemma PlatformRulings()
    ensures forall i | 0 <= i < |ALLOWED| :: Platform(ALLOWED[i]).outcome == Allow
    ensures forall i | 0 <= i < |APPROVED| :: Platform(APPROVED[i]).outcome == RequireApproval
    ensures Platform("production.deploy").outcome == Deny && Platform("repository.pull_request.create").risk == High
  {}

  /** Whatever else there is, known or not, is denied. */
  lemma PlatformDeniesTheRest(action: string)
    requires Platform(action).outcome != Deny
    ensures action in ALLOWED || action in APPROVED
  {
    assert action == ALLOWED[0] || action == ALLOWED[1] || action == ALLOWED[2] || action == ALLOWED[3] ||
           action == ALLOWED[4] || action == ALLOWED[5] || action == APPROVED[0] || action == APPROVED[1] || action == APPROVED[2];
  }

  /** An approval lasts a day, eight hours for a risky action, an hour for a critical one. */
  lemma ApprovalsLast(risk: Risk)
    ensures ApprovalTtl(risk) == match risk case Critical => 60 * 60 case High => 8 * 60 * 60 case _ => 24 * 60 * 60
  {}

  /** An action is as risky as the platform says, but one no manifest grants is critical. */
  lemma RisksAreThePlatforms(c: Context)
    ensures Evaluate(c).risk == if c.manifestOutcome.None? then Critical else Platform(c.action).risk
  {
    if c.manifestOutcome.None? && Platform(c.action).outcome == Deny { assert Platform(c.action).risk == Critical; }
  }

  /** The reason given is that of whoever decided: the organization or the manifest only if stricter than all before. */
  lemma ReasonsNameWhoDecided(c: Context)
    requires Platform(c.action).outcome != Deny && c.manifestOutcome.Some? && c.inScope != Some(false)
    ensures var base, manifest := Rank(Platform(c.action).outcome), Rank(c.manifestOutcome.value);
            var organization := Rank(c.organizationOutcome.UnwrapOr(Allow));
            Evaluate(c).reason ==
              if organization > base && organization > manifest then "Restricted by organization policy."
              else if manifest > base then "Restricted by the agent manifest."
              else Platform(c.action).reason
  {}
}
