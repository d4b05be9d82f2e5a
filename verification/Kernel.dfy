/**
 The native kernel as a coroutine: everything it awaits is an `Effect`, everything it is
 answered is an `Answer`, and `Step` is what it does with the answer. Identifiers it draws, the
 abort signal and the tool registry are part of the environment, so they are answers too.
 */
module Kernel {
  import opened Wrappers

  type Id = nat

  datatype Block =
    | Text(text: string)
    | ToolUse(id: string, name: string, input: string)
    | ToolResult(toolUseId: string, content: string, isError: bool)

  datatype Role = User | Assistant
  datatype Message = Message(role: Role, content: seq<Block>)

  datatype Use = Use(id: string, name: string, input: string)

  /** The call in progress; fixed before anything is asked about it. */
  datatype InFlight = InFlight(stepId: Id, toolCallId: Id, requestId: Id, approvalId: Option<Id>)

  datatype Turn = Turn(toolUses: seq<Use>, results: seq<Block>, index: nat, inFlight: Option<InFlight>)

  datatype State = State(messages: seq<Message>, turns: nat, artifactIds: seq<Id>, turn: Option<Turn>)

  datatype Error = RuntimeFailure(code: string, message: string) | ControlPlaneError(code: string) | Unexpected

  datatype Outcome =
    | Completed(summary: string, artifactIds: seq<Id>)
    | Paused(approvalId: Id, stepId: Id)
    | Failed(code: string)

  datatype Event =
    | StepStarted | ModelRequested | ModelResponded | AgentMessage | StepCompleted | StepFailed
    | ToolRequested | ToolStarted | ToolCompleted | ToolFailed

  datatype Inspection = Missing | Invalid(message: string) | Ready(governed: bool)
  datatype Decision = Allowed | Denied(reason: string) | ApprovalRequired(approvalId: Id)

  datatype Effect =
    | PollSignal
    | DrawIds
    | Inspect(use: Use)
    | Emit(event: Event, stepId: Id)
    | CallModel(messages: seq<Message>)
    | AskDecision(requestId: Id)
    | RunTool(use: Use, governedBy: Option<Id>)
    | Checkpoint(state: State, checkpointStep: Option<Id>)
    | Nothing

  datatype Answer =
    | Ack
    | Signal(reason: Option<string>)
    | Ids(stepId: Id, toolCallId: Id, requestId: Id)
    | Inspected(inspection: Inspection)
    | Responded(content: seq<Block>)
    | Decided(decision: Decision)
    | Output(text: string, artifactIds: seq<Id>)
    | Thrown(error: Error)

  /** Why a life goes on: an approval, or a takeover, told which steps are open. */
  datatype Resumption = Resumption(approvalId: Option<Id>, openStepIds: Option<set<Id>>)

  datatype Call = Call(use: Use, flight: InFlight, resumed: bool)

  /** Inside one model turn. */
  datatype ModelPhase =
    | Opening
    | Requesting
    | Calling
    | Breaking(code: string)
    | Reporting(content: seq<Block>)
    | Saying(content: seq<Block>)
    | Closing(content: seq<Block>)

  /** Inside one tool call. */
  datatype CallPhase =
    | Announcing
    | Looking
    | Lacking
    | Requested(inspection: Inspection)
    | Recording(governed: bool)
    | Asking
    | Approving
    | Starting(governed: bool)
    | Executing(governed: bool)
    | Completing(text: string)
    | Ending(text: string)
    | Catching(error: Error)
    | Failing(failure: string, message: string)
    | Ended(failure: string, message: string)

  /** Where the kernel is suspended. */
  datatype Pc =
    | SaveStart
    | LoopHead
    | ModelIds
    | InModel(stepId: Id, modelPhase: ModelPhase)
    | SaveTurn
    | CallIds(use: Use)
    | InCall(call: Call, callPhase: CallPhase)
    | SaveCall
    | Done(outcome: Outcome)

  datatype Machine = Machine(state: State, pc: Pc, resumption: Option<Resumption>)

  // ---- Text -------------------------------------------------------------------------------

  function Clip(s: string, n: nat): string {
    if |s| <= n then s else s[..n]
  }

  predicate LabelChar(c: char) {
    'A' <= c <= 'Z' || 'a' <= c <= 'z' || '0' <= c <= '9' || c == '.' || c == '_' || c == '-'
  }

  function LabelChars(s: string): string {
    if s == "" then "" else (if LabelChar(s[0]) then [s[0]] else "") + LabelChars(s[1..])
  }

  function SafeLabel(s: string): string {
    var kept := Clip(LabelChars(s), 60);
    if kept == "" then "unknown" else kept
  }

  predicate White(c: char) {
    c in {'\t', '\n', '\U{0B}', '\U{0C}', '\r', ' ', '\U{A0}', '\U{1680}', '\U{2028}', '\U{2029}', '\U{202F}',
          '\U{205F}', '\U{3000}', '\U{FEFF}'}
    || '\U{2000}' <= c <= '\U{200A}'
  }

  function Trim(s: string): string {
    if s != "" && White(s[0]) then Trim(s[1..])
    else if s != "" && White(s[|s| - 1]) then Trim(s[..|s| - 1])
    else s
  }

  function Texts(content: seq<Block>): seq<string> {
    if content == [] then []
    else (if content[0].Text? then [content[0].text] else []) + Texts(content[1..])
  }

  function JoinLines(parts: seq<string>): string {
    if parts == [] then "" else if |parts| == 1 then parts[0] else parts[0] + "\n" + JoinLines(parts[1..])
  }

  function Said(content: seq<Block>): string {
    Trim(JoinLines(Texts(content)))
  }

  function Summary(content: seq<Block>): string {
    Clip(if Said(content) == "" then "Completed." else Said(content), 4000)
  }

  /** The tool uses of a model response, in order. */
  function Uses(content: seq<Block>): seq<Use> {
    if content == [] then []
    else (if content[0].ToolUse? then [Use(content[0].id, content[0].name, content[0].input)] else [])
         + Uses(content[1..])
  }

  function Result(use: Use, content: string, isError: bool): Block {
    ToolResult(use.id, content, isError)
  }

  function UnknownOutcome(use: Use): Block {
    Result(use, "TOOL_OUTCOME_UNKNOWN: " + SafeLabel(use.name), true)
  }

  function Unavailable(use: Use): Block {
    Result(use, "Tool " + SafeLabel(use.name) + " is not available.", true)
  }

  function FailureText(use: Use, code: string, message: string): Block {
    Result(use, code + ": " + Clip(message, 2000), true)
  }

  function Success(use: Use, text: string): Block {
    Result(use, Clip(text, 50_000), false)
  }

  /** How the kernel reports an error that ends the run. */
  function FailureCode(e: Error): string {
    match e
    case RuntimeFailure(code, _) => code
    case ControlPlaneError(_) => "CONTROL_PLANE_REJECTED"
    case Unexpected => "RUNTIME_INTERNAL_ERROR"
  }

  function ToolErrorCode(e: Error): string {
    if e.RuntimeFailure? then e.code else "TOOL_EXECUTION_FAILED"
  }

  function ToolErrorMessage(use: Use, e: Error): string {
    if e.RuntimeFailure? then e.message else use.name + " failed."
  }

  /** Trimming takes white space off both ends, all of it and nothing else. */
  lemma {:induction false} TrimTakesWhite(s: string) returns (a: string, b: string)
    ensures s == a + Trim(s) + b && (forall c | c in a + b :: White(c))
    ensures Trim(s) != "" ==> !White(Trim(s)[0]) && !White(Trim(s)[|Trim(s)| - 1])
    decreases |s|
  {
    if s != "" && White(s[0]) {
      a, b := TrimTakesWhite(s[1..]);
      assert s == [s[0]] + s[1..];
      a := [s[0]] + a;
    } else if s != "" && White(s[|s| - 1]) {
      a, b := TrimTakesWhite(s[..|s| - 1]);
      assert s == s[..|s| - 1] + [s[|s| - 1]];
      b := b + [s[|s| - 1]];
    } else {
      a, b := "", "";
    }
  }

  /** A tool's name as it is shown: what is printable of it, at most sixty characters, never nothing. */
  lemma {:induction false} LabelsAreSafe(s: string)
    ensures 0 < |SafeLabel(s)| <= 60 && forall c | c in SafeLabel(s) :: LabelChar(c)
    ensures |s| <= 60 && s != "" && (forall c | c in s :: LabelChar(c)) ==> SafeLabel(s) == s
  {
    KeptChars(s);
  }

  lemma {:induction false} KeptChars(s: string)
    ensures forall c | c in LabelChars(s) :: LabelChar(c) && c in s
    ensures (forall c | c in s :: LabelChar(c)) ==> LabelChars(s) == s
  {
    if s != "" {
      KeptChars(s[1..]);
      assert s == [s[0]] + s[1..];
    }
  }

  /** The uses are those of the response, in order, as they are in it. */
  lemma {:induction false} UsesAreThere(content: seq<Block>, more: seq<Block>)
    ensures Uses(content + more) == Uses(content) + Uses(more)
    ensures |content| == 1 && content[0].ToolUse? ==> Uses(content) == [Use(content[0].id, content[0].name, content[0].input)]
    ensures |content| == 1 && !content[0].ToolUse? ==> Uses(content) == []
  {
    if content == [] {
      assert content + more == more;
    } else {
      assert (content + more)[1..] == content[1..] + more;
      UsesAreThere(content[1..], more);
    }
  }

  // ---- State updates ----------------------------------------------------------------------

  function Initial(prompt: string): State {
    State([Message(User, [Text(prompt)])], 0, [], None)
  }

  function SetFlight(s: State, flight: Option<InFlight>): State {
    if s.turn.None? then s else s.(turn := Some(s.turn.value.(inFlight := flight)))
  }

  /** The call is answered: its result is kept and the next call is up. */
  function Push(s: State, block: Block): State {
    if s.turn.None? then s
    else
      var t := s.turn.value;
      s.(turn := Some(Turn(t.toolUses, t.results + [block], t.index + 1, None)))
  }

  /** All calls are answered: their results become the next user message. */
  function CloseTurn(s: State): State {
    if s.turn.None? then s
    else s.(messages := s.messages + [Message(User, s.turn.value.results)], turn := None)
  }

  function Respond(s: State, content: seq<Block>): State {
    var said := s.(messages := s.messages + [Message(Assistant, content)]);
    if Uses(content) == [] then said else said.(turn := Some(Turn(Uses(content), [], 0, None)))
  }

  predicate CallsLeft(s: State) {
    s.turn.Some? && s.turn.value.index < |s.turn.value.toolUses|
  }

  // ---- The coroutine ----------------------------------------------------------------------

  function ModelEffect(s: State, id: Id, phase: ModelPhase): Effect {
    match phase
    case Opening => Emit(StepStarted, id)
    case Requesting => Emit(ModelRequested, id)
    case Calling => CallModel(s.messages)
    case Breaking(_) => Emit(StepFailed, id)
    case Reporting(_) => Emit(ModelResponded, id)
    case Saying(_) => Emit(AgentMessage, id)
    case Closing(_) => Emit(StepCompleted, id)
  }

  function CallEffect(s: State, c: Call, phase: CallPhase): Effect {
    var id := c.flight.stepId;
    match phase
    case Announcing => Emit(StepStarted, id)
    case Looking => Inspect(c.use)
    case Lacking => Emit(StepFailed, id)
    case Requested(_) => Emit(ToolRequested, id)
    case Recording(_) => Checkpoint(s, Some(id))
    case Asking => AskDecision(c.flight.requestId)
    case Approving => Checkpoint(s, Some(id))
    case Starting(_) => Emit(ToolStarted, id)
    case Executing(governed) => RunTool(c.use, if governed then Some(c.flight.requestId) else None)
    case Completing(_) => Emit(ToolCompleted, id)
    case Ending(_) => Emit(StepCompleted, id)
    case Catching(_) => PollSignal
    case Failing(_, _) => Emit(ToolFailed, id)
    case Ended(_, _) => Emit(StepFailed, id)
  }

  /** What a suspended kernel is waiting for. */
  function EffectOf(m: Machine): Effect {
    match m.pc
    case SaveStart => Checkpoint(m.state, None)
    case LoopHead => PollSignal
    case ModelIds => DrawIds
    case InModel(id, phase) => ModelEffect(m.state, id, phase)
    case SaveTurn => Checkpoint(m.state, None)
    case CallIds(_) => DrawIds
    case InCall(c, phase) => CallEffect(m.state, c, phase)
    case SaveCall => Checkpoint(m.state, None)
    case Done(_) => Nothing
  }

  predicate Fits(e: Effect, a: Answer) {
    match e
    case PollSignal => a.Signal?
    case DrawIds => a.Ids?
    case Inspect(_) => a.Inspected?
    case Emit(_, _) => a.Ack? || a.Thrown?
    case CallModel(_) => a.Responded? || a.Thrown?
    case AskDecision(_) => a.Decided? || a.Thrown?
    case RunTool(_, _) => a.Output? || a.Thrown?
    case Checkpoint(_, _) => a.Ack? || a.Thrown?
    case Nothing => false
  }

  /** An answer of the wrong kind is an internal error. */
  function Understood(e: Effect, a: Answer): (r: Answer) {
    if Fits(e, a) then a else Thrown(Unexpected)
  }

  function Stop(s: State, outcome: Outcome): Machine {
    Machine(s, Done(outcome), None)
  }

  /** The head of the tool loop: the next call, or the next model turn once all are answered. */
  function NextCall(maxTurns: nat, s: State, resumption: Option<Resumption>): Machine {
    if !CallsLeft(s) then BeginTurn(maxTurns, CloseTurn(s))
    else
      var t := s.turn.value;
      var use := t.toolUses[t.index];
      match t.inFlight
      case None => Machine(s, CallIds(use), None)
      case Some(flight) =>
        if Finished(flight, resumption) then Answered(s, UnknownOutcome(use))
        else Machine(s, InCall(Call(use, flight, true), Looking), resumption)
  }

  /** The call in flight is not among the steps that are open, of those a takeover was told. */
  predicate Finished(flight: InFlight, resumption: Option<Resumption>) {
    resumption.Some? && resumption.value.openStepIds.Some? && flight.stepId !in resumption.value.openStepIds.value
  }

  function BeginTurn(maxTurns: nat, s: State): Machine {
    if s.turns >= maxTurns then Stop(s, Failed("MAX_TURNS_EXCEEDED"))
    else Machine(s.(turns := s.turns + 1), ModelIds, None)
  }

  function Answered(s: State, block: Block): Machine {
    Machine(Push(s, block), SaveCall, None)
  }

  function Responding(s: State, content: seq<Block>): Machine {
    var next := Respond(s, content);
    if Uses(content) == [] then Stop(next, Completed(Summary(content), s.artifactIds))
    else Machine(next, SaveTurn, None)
  }

  /** The tool is known and its input was looked at. */
  function Inspecting(m: Machine, c: Call, inspection: Inspection): Machine {
    match inspection
    case Missing => m.(pc := InCall(c, Lacking))
    case Invalid(message) => m.(pc := InCall(c, Failing("TOOL_INPUT_INVALID", message)))
    case Ready(governed) =>
      if c.resumed then Deciding(m, c, governed)
      else m.(state := SetFlight(m.state, Some(c.flight)), pc := InCall(c, Recording(governed)))
  }

  function Deciding(m: Machine, c: Call, governed: bool): Machine {
    m.(pc := InCall(c, if governed && c.flight.approvalId.None? then Asking else Starting(governed)))
  }

  function AwaitingApproval(m: Machine, c: Call, approvalId: Id): Machine {
    var approved := c.(flight := c.flight.(approvalId := Some(approvalId)));
    var s := SetFlight(m.state, Some(approved.flight));
    if m.resumption.Some? && m.resumption.value.approvalId == Some(approvalId)
    then m.(state := s, pc := InCall(approved, Approving))
    else Stop(s, Paused(approvalId, c.flight.stepId))
  }

  /** The awaits whose exceptions the kernel handles itself; any other ends the run. */
  predicate Handled(pc: Pc) {
    (pc.InModel? && pc.modelPhase.Calling?) ||
    (pc.InCall? && (pc.callPhase.Executing? || pc.callPhase.Completing? || pc.callPhase.Ending?))
  }

  function ModelStep(s: State, id: Id, phase: ModelPhase, a: Answer): Machine
    requires Fits(ModelEffect(s, id, phase), a)
    requires a.Thrown? ==> phase.Calling?
  {
    match phase
    case Opening => Machine(s, InModel(id, Requesting), None)
    case Requesting => Machine(s, InModel(id, Calling), None)
    case Calling =>
      Machine(s, InModel(id, if a.Thrown? then Breaking(FailureCode(a.error)) else Reporting(a.content)), None)
    case Breaking(code) => Stop(s, Failed(code))
    case Reporting(content) =>
      Machine(s, InModel(id, if Said(content) != "" then Saying(content) else Closing(content)), None)
    case Saying(content) => Machine(s, InModel(id, Closing(content)), None)
    case Closing(content) => Responding(s, content)
  }

  function CallStep(m: Machine, c: Call, phase: CallPhase, a: Answer): Machine
    requires Fits(CallEffect(m.state, c, phase), a)
    requires a.Thrown? ==> phase.Executing? || phase.Completing? || phase.Ending?
  {
    var s := m.state;
    match phase
    case Announcing => m.(pc := InCall(c, Looking))
    case Looking =>
      if c.resumed || a.inspection.Missing? then Inspecting(m, c, a.inspection)
      else m.(pc := InCall(c, Requested(a.inspection)))
    case Lacking => Answered(s, Unavailable(c.use))
    case Requested(inspection) => Inspecting(m, c, inspection)
    case Recording(governed) => Deciding(m, c, governed)
    case Asking =>
      (match a.decision
       case Denied(reason) => m.(pc := InCall(c, Failing("ACTION_DENIED", reason)))
       case ApprovalRequired(id) => AwaitingApproval(m, c, id)
       case Allowed => m.(pc := InCall(c, Starting(true))))
    case Approving => m.(pc := InCall(c, Starting(true)))
    case Starting(governed) => m.(pc := InCall(c, Executing(governed)))
    case Executing(_) =>
      if a.Thrown? then m.(pc := InCall(c, Catching(a.error)))
      else m.(state := s.(artifactIds := s.artifactIds + a.artifactIds), pc := InCall(c, Completing(a.text)))
    case Completing(text) =>
      m.(pc := InCall(c, if a.Thrown? then Catching(a.error) else Ending(text)))
    case Ending(text) =>
      if a.Thrown? then m.(pc := InCall(c, Catching(a.error))) else Answered(s, Success(c.use, text))
    case Catching(error) =>
      if a.reason.Some? then Stop(s, Failed(a.reason.value))
      else m.(pc := InCall(c, Failing(ToolErrorCode(error), ToolErrorMessage(c.use, error))))
    case Failing(code, message) => m.(pc := InCall(c, Ended(code, message)))
    case Ended(code, message) => Answered(s, FailureText(c.use, code, message))
  }

  /** What a suspended kernel does with the answer it was waiting for. */
  function Step(maxTurns: nat, m: Machine, answer: Answer): Machine {
    var a := Understood(EffectOf(m), answer);
    var s := m.state;
    if m.pc.Done? then m
    else if a.Thrown? && !Handled(m.pc) then Stop(s, Failed(FailureCode(a.error)))
    else match m.pc
      case SaveStart => Machine(s, LoopHead, None)
      case LoopHead =>
        if a.reason.Some? then Stop(s, Failed(a.reason.value))
        else if s.turn.Some? then NextCall(maxTurns, s, m.resumption)
        else BeginTurn(maxTurns, s)
      case ModelIds => Machine(s, InModel(a.stepId, Opening), None)
      case InModel(id, phase) => ModelStep(s, id, phase, a)
      case SaveTurn => Machine(s, LoopHead, None)
      case CallIds(use) =>
        var flight := InFlight(a.stepId, a.toolCallId, a.requestId, None);
        Machine(s, InCall(Call(use, flight, false), Announcing), None)
      case InCall(c, phase) => CallStep(m, c, phase, a)
      case SaveCall => NextCall(maxTurns, s, None)
  }

  function Start(prompt: string): Machine {
    Machine(Initial(prompt), SaveStart, None)
  }

  datatype Approval = Approval(approvalId: Id, approved: bool)

  /** Continue from a checkpoint: after an approval, after a takeover (`openStepIds`), or both. */
  function Resume(s: State, approval: Option<Approval>, openStepIds: Option<set<Id>>): Machine {
    if approval.Some? && !Answers(s, approval.value.approvalId) then Stop(s, Failed("RUNTIME_APPROVAL_MISMATCH"))
    else if approval.Some? && !approval.value.approved then Stop(s, Failed("ACTION_REJECTED"))
    else
      var released := if approval.Some? then Some(approval.value.approvalId) else None;
      Machine(s, LoopHead, Some(Resumption(released, openStepIds)))
  }

  /** The approval is the one the checkpointed call waits for, as far as the checkpoint knows. */
  predicate Answers(s: State, approvalId: Id) {
    s.turn.Some? && s.turn.value.inFlight.Some? &&
    (s.turn.value.inFlight.value.approvalId.None? || s.turn.value.inFlight.value.approvalId == Some(approvalId))
  }

  /** The machine after a script of answers. */
  function Drive(maxTurns: nat, m: Machine, script: seq<Answer>): Machine
    decreases |script|
  {
    if script == [] then m else Step(maxTurns, Drive(maxTurns, m, script[..|script| - 1]), script[|script| - 1])
  }
}
