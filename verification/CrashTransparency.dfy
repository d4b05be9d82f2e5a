/**
 Crash transparency. In a world whose model, tools and decisions answer the same way whenever
 they are shown the same state, a run may be cut anywhere and continued any number of times: every
 life that ends, ends as the uncut run does. The one window left out is the one between a step's
 end event and the next save; there the call is answered `TOOL_OUTCOME_UNKNOWN`.
 */
module CrashTransparency {
  import opened Wrappers
  import opened Kernel
  import opened Checkpoints
  import opened RunProtocol

  datatype Verdict = Allow | Deny(reason: string) | NeedApproval
  datatype ToolAnswer = Gives(text: string, artifactIds: seq<Id>) | Fails(error: Error)

  /** Everything outside the kernel, as functions of what the run has reached. */
  datatype Env = Env(
    model: State -> seq<Block>,
    inspect: State -> Inspection,
    verdict: State -> Verdict,
    tool: State -> ToolAnswer)

  /** What a run has reached, whatever request its current call goes by. */
  function Erase(s: State): State {
    SetFlight(s, None)
  }

  // ---- The uncut run ----------------------------------------------------------------------

  function HeadUse(s: State): Use
    requires CallsLeft(s)
  {
    s.turn.value.toolUses[s.turn.value.index]
  }

  // What the model is told, whatever the kernel's own words for it are.

  function FirstOf(s: string, n: nat): string {
    if |s| > n then s[..n] else s
  }

  /** A tool's output, up to fifty thousand units of it; not an error. */
  function Worked(use: Use, text: string): Block {
    ToolResult(use.id, FirstOf(text, 50_000), false)
  }

  /** A failure: its code and message, marked as an error. */
  function DidNot(use: Use, code: string, message: string): Block {
    ToolResult(use.id, code + ": " + FirstOf(message, 2000), true)
  }

  /** The tool's own error, or that it failed. */
  function Broke(use: Use, e: Error): Block {
    match e
    case RuntimeFailure(code, message) => DidNot(use, code, message)
    case _ => DidNot(use, "TOOL_EXECUTION_FAILED", use.name + " failed.")
  }

  function NotThere(use: Use): Block {
    ToolResult(use.id, "Tool " + SafeLabel(use.name) + " is not available.", true)
  }

  /** What the model said last, if anything, up to four thousand units. */
  function LastWords(content: seq<Block>): string {
    FirstOf(if Said(content) == "" then "Completed." else Said(content), 4000)
  }

  function Executed(env: Env, s: State): State
    requires CallsLeft(s)
  {
    match env.tool(s)
    case Gives(text, ids) => Push(s.(artifactIds := s.artifactIds + ids), Worked(HeadUse(s), text))
    case Fails(e) => Push(s, Broke(HeadUse(s), e))
  }

  predicate Refused(env: Env, s: State, governed: bool) {
    governed && env.verdict(s).Deny?
  }

  /** The next call, answered. */
  function Advance(env: Env, s: State): State
    requires CallsLeft(s)
  {
    match env.inspect(s)
    case Missing => Push(s, NotThere(HeadUse(s)))
    case Invalid(message) => Push(s, DidNot(HeadUse(s), "TOOL_INPUT_INVALID", message))
    case Ready(governed) =>
      if Refused(env, s, governed) then Push(s, DidNot(HeadUse(s), "ACTION_DENIED", env.verdict(s).reason))
      else Executed(env, s)
  }

  datatype Final = Final(state: State, outcome: Outcome)

  function Left(s: State): nat {
    if CallsLeft(s) then |s.turn.value.toolUses| - s.turn.value.index else 0
  }

  /** The uncut run from `s` to its end. */
  function Finish(env: Env, maxTurns: nat, s: State): Final
    decreases if s.turns < maxTurns then maxTurns - s.turns else 0, Left(s)
  {
    if CallsLeft(s) then Finish(env, maxTurns, Advance(env, s))
    else
      var closed := CloseTurn(s);
      if closed.turns >= maxTurns then Final(closed, Failed("MAX_TURNS_EXCEEDED"))
      else
        var asked := closed.(turns := closed.turns + 1);
        var content := env.model(asked);
        if Uses(content) == [] then Final(Respond(asked, content), Completed(LastWords(content), asked.artifactIds))
        else Finish(env, maxTurns, Respond(asked, content))
  }

  function AfterModel(env: Env, maxTurns: nat, s: State, content: seq<Block>): Final {
    if Uses(content) == [] then Final(Respond(s, content), Completed(Summary(content), s.artifactIds))
    else Finish(env, maxTurns, Respond(s, content))
  }

  // ---- A suspended kernel's future --------------------------------------------------------

  function ModelFuture(env: Env, maxTurns: nat, s: State, phase: ModelPhase): Final {
    match phase
    case Breaking(code) => Final(s, Failed(code))
    case Reporting(content) => AfterModel(env, maxTurns, s, content)
    case Saying(content) => AfterModel(env, maxTurns, s, content)
    case Closing(content) => AfterModel(env, maxTurns, s, content)
    case _ => AfterModel(env, maxTurns, s, env.model(s))
  }

  function CallFuture(env: Env, maxTurns: nat, s: State, c: Call, phase: CallPhase): Final {
    match phase
    case Lacking => Finish(env, maxTurns, Push(Erase(s), Unavailable(c.use)))
    case Completing(text) => Finish(env, maxTurns, Push(Erase(s), Success(c.use, text)))
    case Ending(text) => Finish(env, maxTurns, Push(Erase(s), Success(c.use, text)))
    case Catching(e) =>
      Finish(env, maxTurns, Push(Erase(s), FailureText(c.use, ToolErrorCode(e), ToolErrorMessage(c.use, e))))
    case Failing(code, message) => Finish(env, maxTurns, Push(Erase(s), FailureText(c.use, code, message)))
    case Ended(code, message) => Finish(env, maxTurns, Push(Erase(s), FailureText(c.use, code, message)))
    case _ => Finish(env, maxTurns, Erase(s))
  }

  function Future(env: Env, maxTurns: nat, m: Machine): Final {
    match m.pc
    case ModelIds => AfterModel(env, maxTurns, m.state, env.model(m.state))
    case InModel(_, phase) => ModelFuture(env, maxTurns, m.state, phase)
    case InCall(c, phase) => CallFuture(env, maxTurns, m.state, c, phase)
    case Done(outcome) =>
      if outcome.Paused? then Finish(env, maxTurns, Erase(m.state)) else Final(m.state, outcome)
    case _ => Finish(env, maxTurns, Erase(m.state))
  }

  /** An approval is only ever known for a call that needs one. */
  ghost predicate Sound(env: Env, s: State) {
    s.turn.Some? && s.turn.value.inFlight.Some? && s.turn.value.inFlight.value.approvalId.Some? ==>
      env.verdict(Erase(s)).NeedApproval?
  }

  /** The call is over but for its events and its save. */
  predicate Concluding(phase: CallPhase) {
    phase.Lacking? || phase.Completing? || phase.Ending? || phase.Catching? || phase.Failing? || phase.Ended?
  }

  ghost predicate CallAgrees(env: Env, s: State, phase: CallPhase) {
    (!Concluding(phase) ==> Sound(env, s)) &&
    match phase
    case Requested(i) => env.inspect(Erase(s)) == i
    case Recording(g) => env.inspect(Erase(s)) == Ready(g)
    case Asking => env.inspect(Erase(s)) == Ready(true)
    case Approving => env.inspect(Erase(s)) == Ready(true) && !Refused(env, Erase(s), true)
    case Starting(g) => env.inspect(Erase(s)) == Ready(g) && !Refused(env, Erase(s), g)
    case Executing(g) => env.inspect(Erase(s)) == Ready(g) && !Refused(env, Erase(s), g)
    case _ => true
  }

  /** What the kernel has been told so far is what the environment says. */
  ghost predicate Agrees(env: Env, m: Machine) {
    (if m.pc.InCall? then CallAgrees(env, m.state, m.pc.callPhase) else Sound(env, m.state)) &&
    (m.pc.LoopHead? && m.resumption.Some? && m.state.turn.Some? && m.state.turn.value.inFlight.Some? ==>
       !Finished(m.state.turn.value.inFlight.value, m.resumption))
  }

  /** The environment's answer; identifiers and approval ids are free. */
  predicate Honest(env: Env, m: Machine, a: Kernel.Answer) {
    match EffectOf(m)
    case PollSignal => a == Signal(None)
    case DrawIds => a.Ids?
    case Inspect(_) => a == Inspected(env.inspect(Erase(m.state)))
    case Emit(_, _) => a.Ack?
    case CallModel(_) => a == Responded(env.model(m.state))
    case AskDecision(_) =>
      a.Decided? &&
      (match env.verdict(Erase(m.state))
       case Allow => a.decision.Allowed?
       case Deny(reason) => a.decision == Denied(reason)
       case NeedApproval => a.decision.ApprovalRequired?)
    case RunTool(_, _) =>
      (match env.tool(Erase(m.state))
       case Gives(text, ids) => a == Output(text, ids)
       case Fails(e) => a == Thrown(e))
    case Checkpoint(_, _) => a.Ack?
    case Nothing => true
  }

  /** Where `Tracks` leaves a kernel, as far as its future goes. */
  ghost predicate Placed(m: Machine) {
    match m.pc
    case InCall(c, phase) =>
      Concluding(phase) ||
      (Heads(m.state, c.use) &&
       (phase.Recording? || phase.Requested? ==> !c.resumed) &&
       (!c.resumed && (phase.Looking? || phase.Requested? || phase.Recording?) ==> c.flight.approvalId.None?) &&
       (c.resumed && phase.Looking? ==> m.state.turn.value.inFlight == Some(c.flight)))
    case LoopHead => m.state.turn.Some? && m.state.turn.value.inFlight.Some? ==> CallsLeft(m.state)
    case SaveCall => m.state.turn.Some? && m.state.turn.value.inFlight.None?
    case ModelIds => m.state.turn.None?
    case InModel(_, _) => m.state.turn.None?
    case _ => true
  }

  lemma NextCallFuture(env: Env, maxTurns: nat, s: State, resumption: Option<Resumption>)
    requires s.turn.Some? && Sound(env, s)
    requires s.turn.value.inFlight.Some? ==> !Finished(s.turn.value.inFlight.value, resumption)
    requires !CallsLeft(s) ==> s.turn.value.inFlight.None?
    ensures Agrees(env, NextCall(maxTurns, s, resumption))
    ensures Future(env, maxTurns, NextCall(maxTurns, s, resumption)) == Finish(env, maxTurns, Erase(s))
  {
    assert s.turn.value.inFlight.None? ==> Erase(s) == s;
  }

  /** The step from `m` to `next` changes nothing about how the run will end. */
  ghost predicate SameFuture(env: Env, maxTurns: nat, m: Machine, next: Machine) {
    Agrees(env, next) && Future(env, maxTurns, next) == Future(env, maxTurns, m)
  }

  lemma ConcludingFuture(env: Env, maxTurns: nat, m: Machine, a: Kernel.Answer)
    requires m.pc.InCall? && Concluding(m.pc.callPhase) && Honest(env, m, a)
    ensures SameFuture(env, maxTurns, m, CallStep(m, m.pc.call, m.pc.callPhase, a))
  {
    var phase := m.pc.callPhase;
    if phase.Lacking? || phase.Ending? || phase.Ended? { AnsweringFuture(env, maxTurns, m, a); }
  }

  lemma AnsweringFuture(env: Env, maxTurns: nat, m: Machine, a: Kernel.Answer)
    requires m.pc.InCall? && Honest(env, m, a)
    requires m.pc.callPhase.Lacking? || m.pc.callPhase.Ending? || m.pc.callPhase.Ended?
    ensures SameFuture(env, maxTurns, m, CallStep(m, m.pc.call, m.pc.callPhase, a))
  {
    assert forall b :: Erase(Push(m.state, b)) == Push(Erase(m.state), b);
  }

  lemma LookingFuture(env: Env, maxTurns: nat, m: Machine, a: Kernel.Answer)
    requires m.pc.InCall? && (m.pc.callPhase.Looking? || m.pc.callPhase.Requested?)
    requires Placed(m) && Agrees(env, m) && Honest(env, m, a)
    ensures SameFuture(env, maxTurns, m, CallStep(m, m.pc.call, m.pc.callPhase, a))
  {
    assert Erase(SetFlight(m.state, Some(m.pc.call.flight))) == Erase(m.state);
    assert Finish(env, maxTurns, Erase(m.state)) == Finish(env, maxTurns, Advance(env, Erase(m.state)));
  }

  lemma AskingFuture(env: Env, maxTurns: nat, m: Machine, a: Kernel.Answer)
    requires m.pc.InCall? && m.pc.callPhase.Asking?
    requires Placed(m) && Agrees(env, m) && Honest(env, m, a)
    ensures SameFuture(env, maxTurns, m, CallStep(m, m.pc.call, m.pc.callPhase, a))
  {
    assert forall f :: Erase(SetFlight(m.state, f)) == Erase(m.state);
    assert Finish(env, maxTurns, Erase(m.state)) == Finish(env, maxTurns, Advance(env, Erase(m.state)));
  }

  lemma ExecutingFuture(env: Env, maxTurns: nat, m: Machine, a: Kernel.Answer)
    requires m.pc.InCall? && m.pc.callPhase.Executing?
    requires Placed(m) && Agrees(env, m) && Honest(env, m, a)
    ensures SameFuture(env, maxTurns, m, CallStep(m, m.pc.call, m.pc.callPhase, a))
  {
    assert Finish(env, maxTurns, Erase(m.state)) == Finish(env, maxTurns, Advance(env, Erase(m.state)));
  }

  lemma CallStepFuture(env: Env, maxTurns: nat, m: Machine, a: Kernel.Answer)
    requires m.pc.InCall? && Placed(m) && Agrees(env, m) && Honest(env, m, a)
    ensures SameFuture(env, maxTurns, m, CallStep(m, m.pc.call, m.pc.callPhase, a))
  {
    var phase := m.pc.callPhase;
    if Concluding(phase) { ConcludingFuture(env, maxTurns, m, a); }
    else if phase.Looking? || phase.Requested? { LookingFuture(env, maxTurns, m, a); }
    else if phase.Asking? { AskingFuture(env, maxTurns, m, a); }
    else if phase.Executing? { ExecutingFuture(env, maxTurns, m, a); }
  }

  lemma ModelStepFuture(env: Env, maxTurns: nat, m: Machine, a: Kernel.Answer)
    requires m.pc.InModel? && m.state.turn.None? && Honest(env, m, a)
    ensures SameFuture(env, maxTurns, m, ModelStep(m.state, m.pc.stepId, m.pc.modelPhase, a))
  {}

  lemma StepFuture(env: Env, maxTurns: nat, m: Machine, a: Kernel.Answer)
    requires Placed(m) && Agrees(env, m) && Honest(env, m, a)
    ensures SameFuture(env, maxTurns, m, Step(maxTurns, m, a))
  {
    match m.pc {
      case InCall(_, _) => CallStepFuture(env, maxTurns, m, a);
      case InModel(_, _) => ModelStepFuture(env, maxTurns, m, a);
      case LoopHead => LoopHeadFuture(env, maxTurns, m, a);
      case SaveCall => NextCallFuture(env, maxTurns, m.state, None);
      case _ =>
    }
  }

  lemma LoopHeadFuture(env: Env, maxTurns: nat, m: Machine, a: Kernel.Answer)
    requires m.pc.LoopHead? && Placed(m) && Agrees(env, m) && Honest(env, m, a)
    ensures SameFuture(env, maxTurns, m, Step(maxTurns, m, a))
  {
    if m.state.turn.Some? { NextCallFuture(env, maxTurns, m.state, m.resumption); }
  }

  // ---- Every history ----------------------------------------------------------------------

  /** Honest answers, approvals that match, and no takeover in the window after a step's end. */
  ghost predicate Faithful(env: Env, w: World, act: Act) {
    match act
    case Answer(l, a) => Alive(w, l) ==> Honest(env, w.lives[l].value.machine, a)
    case Continue(approval, openStepIds) =>
      w.history != [] ==>
        var s := w.history[|w.history| - 1].state;
        (approval.Some? ==> approval.value.approved && Answers(s, approval.value.approvalId)) &&
        (s.turn.Some? && s.turn.value.inFlight.Some? && openStepIds.Some? ==>
           s.turn.value.inFlight.value.stepId in openStepIds.value)
    // A lost lease stops the host without an outcome, a cut that `Crash` covers. Any other refusal fails
    // the run for good: such a run is not one cut and continued.
    case RefuseSave(_, _) => false
    case _ => true
  }

  ghost predicate FaithfulRun(env: Env, maxTurns: nat, prompt: string, acts: seq<Act>) {
    acts == [] ||
    (FaithfulRun(env, maxTurns, prompt, acts[..|acts| - 1]) &&
     Faithful(env, Run(maxTurns, prompt, acts[..|acts| - 1]), acts[|acts| - 1]))
  }

  ghost predicate OnCourse(env: Env, maxTurns: nat, prompt: string, s: State) {
    Sound(env, s) && Finish(env, maxTurns, Erase(s)) == Finish(env, maxTurns, Initial(prompt))
  }

  ghost predicate Bound(env: Env, maxTurns: nat, prompt: string, m: Machine) {
    Agrees(env, m) && Future(env, maxTurns, m) == Finish(env, maxTurns, Initial(prompt))
  }

  ghost predicate Course(env: Env, maxTurns: nat, prompt: string, w: World) {
    (forall k | 0 <= k < |w.history| :: OnCourse(env, maxTurns, prompt, w.history[k].state)) &&
    (forall l | 0 <= l < |w.lives| && w.lives[l].Some? :: Bound(env, maxTurns, prompt, w.lives[l].value.machine)) &&
    (forall save | save in w.transit :: OnCourse(env, maxTurns, prompt, save.state))
  }

  lemma LivesArePlaced(maxTurns: nat, prompt: string, w: World, l: nat)
    requires Inv(maxTurns, prompt, w) && Alive(w, l)
    ensures Placed(w.lives[l].value.machine)
  {
    var life := w.lives[l].value;
    if life.version > 0 { ChainIsWellFormed(maxTurns, prompt, w.history, life.version - 1); }
  }

  lemma AnswerStaysOnCourse(env: Env, maxTurns: nat, prompt: string, w: World, l: nat, a: Kernel.Answer)
    requires Inv(maxTurns, prompt, w) && Course(env, maxTurns, prompt, w) && Alive(w, l)
    requires Honest(env, w.lives[l].value.machine, a)
    ensures Bound(env, maxTurns, prompt, Step(maxTurns, w.lives[l].value.machine, a))
  {
    LivesArePlaced(maxTurns, prompt, w, l);
    StepFuture(env, maxTurns, w.lives[l].value.machine, a);
  }

  lemma ContinueIsBound(env: Env, maxTurns: nat, prompt: string, w: World, act: Act)
    requires Course(env, maxTurns, prompt, w) && act.Continue? && Faithful(env, w, act) && w.history != []
    ensures Bound(env, maxTurns, prompt, Resume(w.history[|w.history| - 1].state, act.approval, act.openStepIds))
  {}

  lemma SavesAreOnCourse(env: Env, maxTurns: nat, prompt: string, m: Machine)
    requires Bound(env, maxTurns, prompt, m) && WantsSave(m)
    ensures OnCourse(env, maxTurns, prompt, m.state)
  {}

  /** Replacing one life by one that is on course keeps everything on course. */
  lemma InstallStaysOnCourse(env: Env, maxTurns: nat, prompt: string, w: World, x: World, l: nat)
    requires Course(env, maxTurns, prompt, w) && l < |w.lives| && |x.lives| == |w.lives|
    requires x.history == w.history && x.transit == w.transit && forall k | 0 <= k < |w.lives| && k != l :: x.lives[k] == w.lives[k]
    requires x.lives[l].Some? ==> Bound(env, maxTurns, prompt, x.lives[l].value.machine)
    ensures Course(env, maxTurns, prompt, x)
  {}

  lemma AnswersStayOnCourse(env: Env, maxTurns: nat, prompt: string, w: World, l: nat, a: Kernel.Answer)
    requires Inv(maxTurns, prompt, w) && Course(env, maxTurns, prompt, w)
    requires Alive(w, l) ==> Honest(env, w.lives[l].value.machine, a)
    ensures Course(env, maxTurns, prompt, Apply(maxTurns, prompt, w, Act.Answer(l, a)))
  {
    if Alive(w, l) {
      AnswerStaysOnCourse(env, maxTurns, prompt, w, l, a);
      InstallStaysOnCourse(env, maxTurns, prompt, w, Apply(maxTurns, prompt, w, Act.Answer(l, a)), l);
    }
  }

  lemma AcknowledgedStaysOnCourse(env: Env, maxTurns: nat, prompt: string, w: World, l: nat)
    requires Inv(maxTurns, prompt, w) && Course(env, maxTurns, prompt, w)
    ensures Course(env, maxTurns, prompt, Apply(maxTurns, prompt, w, Acknowledge(l)))
  {
    if Alive(w, l) {
      if Saves(w.lives[l].value.machine) { AnswerStaysOnCourse(env, maxTurns, prompt, w, l, Ack); }
      InstallStaysOnCourse(env, maxTurns, prompt, w, Apply(maxTurns, prompt, w, Acknowledge(l)), l);
    }
  }

  lemma ApplyStaysOnCourse(env: Env, maxTurns: nat, prompt: string, w: World, act: Act)
    requires Inv(maxTurns, prompt, w) && Course(env, maxTurns, prompt, w) && Faithful(env, w, act)
    ensures Course(env, maxTurns, prompt, Apply(maxTurns, prompt, w, act))
  {
    match act {
      case Answer(l, a) => AnswersStayOnCourse(env, maxTurns, prompt, w, l, a);
      case Acknowledge(l) => AcknowledgedStaysOnCourse(env, maxTurns, prompt, w, l);
      case Continue(_, _) =>
        if w.history != [] { ContinueIsBound(env, maxTurns, prompt, w, act); }
      case SendSave(l) =>
        if Alive(w, l) && WantsSave(w.lives[l].value.machine) {
          SavesAreOnCourse(env, maxTurns, prompt, w.lives[l].value.machine);
        }
      case Submit => SubmissionIsBound(env, maxTurns, prompt, w);
      case _ => NetworkStaysOnCourse(env, maxTurns, prompt, w, act);
    }
  }

  lemma SubmissionIsBound(env: Env, maxTurns: nat, prompt: string, w: World)
    requires Course(env, maxTurns, prompt, w)
    ensures Course(env, maxTurns, prompt, Apply(maxTurns, prompt, w, Submit))
  {}

  lemma NetworkStaysOnCourse(env: Env, maxTurns: nat, prompt: string, w: World, act: Act)
    requires Course(env, maxTurns, prompt, w)
    requires act.EventLands? || act.CloseStep? || act.SendExecution? || act.Deliver? || act.Crash?
    ensures Course(env, maxTurns, prompt, Apply(maxTurns, prompt, w, act))
  {}

  lemma {:induction false} EveryFaithfulRunIsOnCourse(env: Env, maxTurns: nat, prompt: string, acts: seq<Act>)
    requires FaithfulRun(env, maxTurns, prompt, acts)
    ensures Course(env, maxTurns, prompt, Run(maxTurns, prompt, acts))
  {
    if acts != [] {
      var before := acts[..|acts| - 1];
      EveryFaithfulRunIsOnCourse(env, maxTurns, prompt, before);
      EveryRunKeeps(maxTurns, prompt, before);
      ApplyStaysOnCourse(env, maxTurns, prompt, Run(maxTurns, prompt, before), acts[|acts| - 1]);
    }
  }

  /** However often the run was cut and continued, a life that ends has the uncut run's transcript and outcome. */
  lemma CutRunsEndAsUncut(env: Env, maxTurns: nat, prompt: string, acts: seq<Act>, l: nat)
    requires FaithfulRun(env, maxTurns, prompt, acts)
    requires Alive(Run(maxTurns, prompt, acts), l)
    requires Run(maxTurns, prompt, acts).lives[l].value.machine.pc.Done?
    requires !Run(maxTurns, prompt, acts).lives[l].value.machine.pc.outcome.Paused?
    ensures var m := Run(maxTurns, prompt, acts).lives[l].value.machine;
            Final(m.state, m.pc.outcome) == Finish(env, maxTurns, Initial(prompt))
  {
    EveryFaithfulRunIsOnCourse(env, maxTurns, prompt, acts);
    assert Bound(env, maxTurns, prompt, Run(maxTurns, prompt, acts).lives[l].value.machine);
  }

  // ---- The window -------------------------------------------------------------------------

  /**
   Continued in the window, the call is answered as unknown at once: the kernel's next await is the
   save of that answer, and neither the decision nor the tool is asked for.
   */
  lemma WindowAnswersUnknown(maxTurns: nat, s: State, approval: Option<Approval>, open: set<Id>)
    requires CallsLeft(s) && s.turn.value.inFlight.Some? && s.turn.value.inFlight.value.stepId !in open
    requires approval.Some? ==> approval.value.approved && Answers(s, approval.value.approvalId)
    ensures Step(maxTurns, Resume(s, approval, Some(open)), Signal(None)) ==
            Machine(Push(s, UnknownOutcome(HeadUse(s))), SaveCall, None)
  {}

  lemma OpenCallsGoOn(maxTurns: nat, s: State, approval: Option<Approval>, open: set<Id>)
    requires CallsLeft(s) && s.turn.value.inFlight.Some? && s.turn.value.inFlight.value.stepId in open
    requires approval.Some? ==> approval.value.approved && Answers(s, approval.value.approvalId)
    ensures var next := Step(maxTurns, Resume(s, approval, Some(open)), Signal(None));
            next.state == s && next.pc == InCall(Call(HeadUse(s), s.turn.value.inFlight.value, true), Looking)
  {}

  /** A life asks and runs tools only at the position of the checkpoint it stands on. */
  ghost predicate AtWork(m: Machine) {
    m.pc.InCall? && (m.pc.callPhase.Asking? || m.pc.callPhase.Executing?)
  }

  /** Once a later position is saved, no life standing on that save or a later one runs the call again. */
  lemma AnsweredCallsNeverRunAgain(maxTurns: nat, prompt: string, acts: seq<Act>, k: nat, l: nat)
    requires k < |Run(maxTurns, prompt, acts).history| && Alive(Run(maxTurns, prompt, acts), l)
    requires var w := Run(maxTurns, prompt, acts);
             w.lives[l].value.version > k && w.history[k].state.turn.Some? && AtWork(w.lives[l].value.machine)
    ensures var w := Run(maxTurns, prompt, acts);
            AtOrAfter(At(w.history[k].state), At(w.lives[l].value.machine.state))
  {
    EveryRunKeeps(maxTurns, prompt, acts);
    WorkIsNotBehind(maxTurns, prompt, Run(maxTurns, prompt, acts), k, l);
  }

  lemma WorkIsNotBehind(maxTurns: nat, prompt: string, w: World, k: nat, l: nat)
    requires Inv(maxTurns, prompt, w) && k < |w.history| && Alive(w, l)
    requires w.lives[l].value.version > k && w.history[k].state.turn.Some? && AtWork(w.lives[l].value.machine)
    ensures AtOrAfter(At(w.history[k].state), At(w.lives[l].value.machine.state))
  {
    RecordedCallsAgree(maxTurns, prompt, w.history, k, w.lives[l].value.version - 1);
  }

  /** The control plane knows the step: it started, and may have ended. */
  ghost predicate Known(w: World, id: Id) {
    id in w.open || id in w.ended
  }

  ghost predicate FlightKnown(w: World, s: State) {
    s.turn.Some? && s.turn.value.inFlight.Some? ==> Known(w, s.turn.value.inFlight.value.stepId)
  }

  ghost predicate MachineKnown(w: World, m: Machine) {
    FlightKnown(w, m.state) &&
    (m.pc.InCall? && !m.pc.callPhase.Announcing? ==> Known(w, m.pc.call.flight.stepId))
  }

  ghost predicate StepsKnown(w: World) {
    (forall k | 0 <= k < |w.history| :: FlightKnown(w, w.history[k].state)) &&
    (forall l | 0 <= l < |w.lives| && w.lives[l].Some? :: MachineKnown(w, w.lives[l].value.machine)) &&
    (forall save | save in w.transit :: FlightKnown(w, save.state))
  }

  lemma CallStepKnows(w: World, m: Machine, a: Kernel.Answer)
    requires m.pc.InCall? && MachineKnown(w, m) && Known(w, m.pc.call.flight.stepId)
    requires Fits(EffectOf(m), a) && (a.Thrown? ==> Handled(m.pc))
    ensures MachineKnown(w, CallStep(m, m.pc.call, m.pc.callPhase, a))
  {}

  lemma AnswerKnows(maxTurns: nat, w: World, m: Machine, a: Kernel.Answer)
    requires MachineKnown(w, m)
    ensures MachineKnown(if a.Ack? then Land(w, EffectOf(m)) else w, Step(maxTurns, m, a))
  {
    var got := Understood(EffectOf(m), a);
    if m.pc.InCall? && (got.Thrown? ==> Handled(m.pc)) {
      CallStepKnows(if a.Ack? then Land(w, EffectOf(m)) else w, m, got);
    }
  }

  lemma AnswersKnow(maxTurns: nat, prompt: string, w: World, l: nat, a: Kernel.Answer)
    requires StepsKnown(w)
    ensures StepsKnown(Apply(maxTurns, prompt, w, Act.Answer(l, a)))
  {
    if Alive(w, l) { AnswerKnows(maxTurns, w, w.lives[l].value.machine, a); }
  }

  lemma SavesKnow(maxTurns: nat, prompt: string, w: World, act: Act)
    requires StepsKnown(w) && (act.Acknowledge? || act.RefuseSave?)
    ensures StepsKnown(Apply(maxTurns, prompt, w, act))
  {
    if Alive(w, act.life) {
      AnswerKnows(maxTurns, w, w.lives[act.life].value.machine, if act.Acknowledge? then Ack else Thrown(act.error));
    }
  }

  lemma ApplyKnows(maxTurns: nat, prompt: string, w: World, act: Act)
    requires StepsKnown(w)
    ensures StepsKnown(Apply(maxTurns, prompt, w, act))
  {
    match act {
      case Answer(l, a) => AnswersKnow(maxTurns, prompt, w, l, a);
      case Acknowledge(_) => SavesKnow(maxTurns, prompt, w, act);
      case RefuseSave(_, _) => SavesKnow(maxTurns, prompt, w, act);
      case _ =>
    }
  }

  lemma {:induction false} EveryRunKnowsItsSteps(maxTurns: nat, prompt: string, acts: seq<Act>)
    ensures StepsKnown(Run(maxTurns, prompt, acts))
  {
    if acts != [] {
      EveryRunKnowsItsSteps(maxTurns, prompt, acts[..|acts| - 1]);
      ApplyKnows(maxTurns, prompt, Run(maxTurns, prompt, acts[..|acts| - 1]), acts[|acts| - 1]);
    }
  }

  lemma LandKeepsApart(w: World, e: Effect)
    requires w.open !! w.ended
    ensures Land(w, e).open !! Land(w, e).ended
  {}

  lemma {:induction false} EndedStepsAreNotOpen(maxTurns: nat, prompt: string, acts: seq<Act>)
    ensures Run(maxTurns, prompt, acts).open !! Run(maxTurns, prompt, acts).ended
  {
    if acts != [] {
      var w, act := Run(maxTurns, prompt, acts[..|acts| - 1]), acts[|acts| - 1];
      EndedStepsAreNotOpen(maxTurns, prompt, acts[..|acts| - 1]);
      if (act.Answer? || act.EventLands?) && Alive(w, act.life) { LandKeepsApart(w, EffectOf(w.lives[act.life].value.machine)); }
    }
  }

  function NobodyKnows(use: Use): Block {
    ToolResult(use.id, "TOOL_OUTCOME_UNKNOWN: " + SafeLabel(use.name), true)
  }

  /** What a life does first that takes the run over from its latest save, told which steps are open. */
  function FirstMove(maxTurns: nat, w: World, approval: Option<Approval>): Machine
    requires w.history != []
  {
    Step(maxTurns, Resume(w.history[|w.history| - 1].state, approval, Some(w.open)), Signal(None))
  }

  /**
   In every history: taken over, a recorded call is answered as unknown, with neither the decision nor the
   tool asked for, exactly if its step has ended at the control plane; else its host goes on with that very call.
   */
  lemma UnknownExactlyInTheWindow(maxTurns: nat, prompt: string, acts: seq<Act>, approval: Option<Approval>)
    requires Run(maxTurns, prompt, acts).history != []
    requires var s := Run(maxTurns, prompt, acts).history[|Run(maxTurns, prompt, acts).history| - 1].state;
             s.turn.Some? && s.turn.value.inFlight.Some? &&
             (approval.Some? ==> approval.value.approved && Answers(s, approval.value.approvalId))
    ensures var w := Run(maxTurns, prompt, acts);
            var s, next := w.history[|w.history| - 1].state, FirstMove(maxTurns, w, approval);
            CallsLeft(s) &&
            if s.turn.value.inFlight.value.stepId in w.ended
            then next == Machine(Push(s, NobodyKnows(HeadUse(s))), SaveCall, None)
            else next.state == s && next.pc == InCall(Call(HeadUse(s), s.turn.value.inFlight.value, true), Looking)
  {
    EveryRunKnowsItsSteps(maxTurns, prompt, acts);
    EndedStepsAreNotOpen(maxTurns, prompt, acts);
    var w := Run(maxTurns, prompt, acts);
    EverySaveIsWellFormed(maxTurns, prompt, acts, |w.history| - 1);
    assert FlightKnown(w, w.history[|w.history| - 1].state);
    var s := w.history[|w.history| - 1].state;
    if s.turn.value.inFlight.value.stepId in w.ended {
      WindowAnswersUnknown(maxTurns, s, approval, w.open);
    } else {
      OpenCallsGoOn(maxTurns, s, approval, w.open);
    }
  }
}
