/**
 The native kernel as it runs: loops over fields that change in place, awaiting a runtime. The
 runtime answers from a script that may end anywhere (a crash), and its ghost machine is the
 coroutine of `Kernel`: `Await` may only be asked for what the coroutine waits for, so a kernel
 that verifies does exactly what `Kernel.Drive` says, on every script.
 */
module NativeKernel {
  import opened Wrappers
  import opened Kernel

  datatype Failure = Crashed | Raised(error: Error)

  datatype Reply<+T> = Got(value: T) | Lost(failure: Failure) {
    predicate IsFailure() { Lost? }

    function PropagateFailure<U>(): Reply<U>
      requires Lost?
    {
      Lost(failure)
    }

    function Extract(): T
      requires Got?
    {
      value
    }
  }

  datatype CallResult = Result(block: Block) | Pausing(approvalId: Id, stepId: Id)

  /** Everything a kernel awaits. */
  class Runtime {
    const script: seq<Answer>
    const maxTurns: nat
    var next: nat
    ghost const origin: Machine
    ghost var machine: Machine
    ghost var trace: seq<Machine>

    /** The machines the coroutine went through, one for every answer given so far. */
    ghost predicate Valid()
      reads this
    {
      next <= |script| && |trace| == next + 1 && trace[0] == origin && trace[|trace| - 1] == machine &&
      forall i {:trigger script[i]} | 0 <= i < next :: trace[i + 1] == Step(maxTurns, trace[i], script[i])
    }

    /** The trace is the coroutine's own run on the answers used so far. */
    lemma TraceIsDrive(n: nat)
      requires Valid() && n <= next
      ensures trace[n] == Drive(maxTurns, origin, script[..n])
    {
      if n > 0 {
        TraceIsDrive(n - 1);
        assert script[n - 1] == script[..n][n - 1];
        assert script[..n][..n - 1] == script[..n - 1];
      }
    }

    constructor (maxTurns: nat, script: seq<Answer>, ghost origin: Machine)
      ensures Valid() && machine == origin && this.origin == origin
      ensures this.maxTurns == maxTurns && this.script == script && next == 0
    {
      this.maxTurns, this.script, this.origin := maxTurns, script, origin;
      next, machine, trace := 0, origin, [origin];
    }

    method Await(effect: Effect) returns (a: Reply<Answer>)
      requires Valid() && effect == EffectOf(machine) && !machine.pc.Done?
      modifies this
      ensures Valid() && next >= old(next)
      ensures a.Lost? ==> a.failure.Crashed? && next == |script| && machine == old(machine)
      ensures a.Got? ==> Fits(effect, a.value) || a.value == Thrown(Unexpected)
      ensures a.Got? ==> machine == Step(maxTurns, old(machine), a.value)
    {
      if next == |script| { return Lost(Crashed); }
      a := Got(Understood(effect, script[next]));
      machine := Step(maxTurns, machine, script[next]);
      trace := trace + [machine];
      next := next + 1;
    }

    /** An await that is acknowledged or throws. */
    method Perform(effect: Effect) returns (r: Reply<()>)
      requires Valid() && effect == EffectOf(machine) && (effect.Emit? || effect.Checkpoint?)
      modifies this
      ensures Valid() && next >= old(next)
      ensures r.Got? ==> machine == Step(maxTurns, old(machine), Ack)
      ensures r.Lost? && r.failure.Crashed? ==> next == |script| && machine == old(machine)
      ensures r.Lost? && r.failure.Raised? ==> machine == Step(maxTurns, old(machine), Thrown(r.failure.error))
    {
      var a :- Await(effect);
      if a.Thrown? { return Lost(Raised(a.error)); }
      return Got(());
    }
  }

  class NativeKernel {
    const runtime: Runtime
    var messages: seq<Message>
    var turns: nat
    var artifactIds: seq<Id>
    var turn: Option<Turn>

    function Snapshot(): State
      reads this
    {
      State(messages, turns, artifactIds, turn)
    }

    /** The coroutine has ended with this outcome and this state. */
    ghost predicate EndedWith(outcome: Outcome)
      reads this, runtime
    {
      runtime.Valid() && runtime.machine == Stop(Snapshot(), outcome)
    }

    /** How a method leaves when it does not return: out of answers, or by an error that ends the run. */
    ghost predicate LeftBy(failure: Failure)
      reads this, runtime
    {
      runtime.Valid() &&
      match failure
      case Crashed => runtime.next == |runtime.script| && !runtime.machine.pc.Done?
      case Raised(e) => EndedWith(Failed(FailureCode(e)))
    }

    constructor (runtime: Runtime, s: State)
      ensures this.runtime == runtime && Snapshot() == s
    {
      this.runtime := runtime;
      messages, turns, artifactIds, turn := s.messages, s.turns, s.artifactIds, s.turn;
    }

    method Start(prompt: string) returns (r: Reply<Outcome>)
      requires runtime.Valid() && runtime.machine == Kernel.Start(prompt) && Snapshot() == Initial(prompt)
      modifies this, runtime
      ensures r.Got? ==> EndedWith(r.value)
      ensures r.Lost? ==> r.failure.Crashed? && LeftBy(r.failure)
    {
      var saved := runtime.Perform(Checkpoint(Snapshot(), None));
      if saved.Lost? {
        if saved.failure.Crashed? { return Lost(Crashed); }
        return Got(Failed(FailureCode(saved.failure.error)));
      }
      r := Loop(None);
    }

    method Resume(approval: Option<Approval>, openStepIds: Option<set<Id>>) returns (r: Reply<Outcome>)
      requires runtime.Valid() && runtime.machine == Kernel.Resume(Snapshot(), approval, openStepIds)
      modifies this, runtime
      ensures r.Got? ==> EndedWith(r.value)
      ensures r.Lost? ==> r.failure.Crashed? && LeftBy(r.failure)
    {
      if approval.Some? {
        if turn.None? || turn.value.inFlight.None? ||
           (turn.value.inFlight.value.approvalId.Some? &&
            turn.value.inFlight.value.approvalId.value != approval.value.approvalId)
        {
          return Got(Failed("RUNTIME_APPROVAL_MISMATCH"));
        }
        if !approval.value.approved { return Got(Failed("ACTION_REJECTED")); }
      }
      var released := if approval.Some? then Some(approval.value.approvalId) else None;
      r := Loop(Some(Resumption(released, openStepIds)));
    }

    method Loop(resumption: Option<Resumption>) returns (r: Reply<Outcome>)
      requires runtime.Valid() && runtime.machine == Machine(Snapshot(), LoopHead, resumption)
      modifies this, runtime
      ensures r.Got? ==> EndedWith(r.value)
      ensures r.Lost? ==> r.failure.Crashed? && LeftBy(r.failure)
    {
      r := Turns(resumption);
      if r.Lost? && r.failure.Raised? { r := Got(Failed(FailureCode(r.failure.error))); }
    }

    /** The model and tool turns; terminates because every pass uses up a model turn. */
    method Turns(first: Option<Resumption>) returns (r: Reply<Outcome>)
      requires runtime.Valid() && runtime.machine == Machine(Snapshot(), LoopHead, first)
      modifies this, runtime
      ensures r.Got? ==> EndedWith(r.value)
      ensures r.Lost? ==> LeftBy(r.failure)
    {
      var resumption := first;
      while true
        invariant runtime.Valid() && runtime.machine == Machine(Snapshot(), LoopHead, resumption)
        decreases if turns < runtime.maxTurns then runtime.maxTurns - turns else 0
      {
        var _ :- ThrowIfAborted();
        if turn.Some? {
          var paused :- RunTools(resumption);
          if paused.Some? { return Got(paused.value); }
          messages := messages + [Message(User, turn.value.results)];
          turn := None;
        }
        resumption := None;
        if turns >= runtime.maxTurns { return Got(Failed("MAX_TURNS_EXCEEDED")); }
        turns := turns + 1;
        var ended :- ModelTurn();
        if ended.Some? { return Got(ended.value); }
      }
    }

    /** One model turn: the answer joins the conversation, and its tool uses are saved before they run. */
    method ModelTurn() returns (r: Reply<Option<Outcome>>)
      requires runtime.Valid() && runtime.machine == Machine(Snapshot(), ModelIds, None)
      modifies this, runtime
      ensures r.Got? ==> turns == old(turns)
      ensures r.Got? && r.value.None? ==> runtime.Valid() && runtime.machine == Machine(Snapshot(), LoopHead, None)
      ensures r.Got? && r.value.Some? ==> EndedWith(r.value.value)
      ensures r.Lost? ==> LeftBy(r.failure)
    {
      var content :- AskModel();
      messages := messages + [Message(Assistant, content)];
      var toolUses := Uses(content);
      if |toolUses| == 0 { return Got(Some(Completed(Summary(content), artifactIds))); }
      turn := Some(Turn(toolUses, [], 0, None));
      var _ :- runtime.Perform(Checkpoint(Snapshot(), None));
      return Got(None);
    }

    method ThrowIfAborted() returns (r: Reply<()>)
      requires runtime.Valid() && EffectOf(runtime.machine) == PollSignal && runtime.machine.state == Snapshot()
      modifies runtime
      ensures runtime.Valid()
      ensures r.Got? ==> runtime.machine == Step(runtime.maxTurns, old(runtime.machine), Signal(None))
      ensures r.Lost? ==> LeftBy(r.failure)
    {
      var a :- runtime.Await(PollSignal);
      if a.Thrown? { return Lost(Raised(a.error)); }
      if a.reason.Some? { return Lost(Raised(RuntimeFailure(a.reason.value, ""))); }
      return Got(());
    }

    /** One model turn, up to its end event. */
    method AskModel() returns (r: Reply<seq<Block>>)
      requires runtime.Valid() && runtime.machine == Machine(Snapshot(), ModelIds, None)
      modifies runtime
      ensures runtime.Valid()
      ensures r.Got? ==> runtime.machine == Responding(Snapshot(), r.value)
      ensures r.Lost? ==> LeftBy(r.failure)
    {
      var ids :- runtime.Await(DrawIds);
      if ids.Thrown? { return Lost(Raised(ids.error)); }
      var _ :- runtime.Perform(Emit(StepStarted, ids.stepId));
      var _ :- runtime.Perform(Emit(ModelRequested, ids.stepId));
      r := Complete(ids.stepId);
      if r.Got? { r := Report(ids.stepId, r.value); }
    }

    method Complete(stepId: Id) returns (r: Reply<seq<Block>>)
      requires runtime.Valid() && runtime.machine == Machine(Snapshot(), InModel(stepId, Calling), None)
      modifies runtime
      ensures runtime.Valid()
      ensures r.Got? ==> runtime.machine == Machine(Snapshot(), InModel(stepId, Reporting(r.value)), None)
      ensures r.Lost? ==> LeftBy(r.failure)
    {
      var a :- runtime.Await(CallModel(messages));
      if a.Thrown? {
        var code := FailureCode(a.error);
        var _ :- runtime.Perform(Emit(StepFailed, stepId));
        return Lost(Raised(RuntimeFailure(code, "")));
      }
      return Got(a.content);
    }

    method Report(stepId: Id, content: seq<Block>) returns (r: Reply<seq<Block>>)
      requires runtime.Valid() && runtime.machine == Machine(Snapshot(), InModel(stepId, Reporting(content)), None)
      modifies runtime
      ensures runtime.Valid()
      ensures r.Got? ==> r.value == content && runtime.machine == Responding(Snapshot(), content)
      ensures r.Lost? ==> LeftBy(r.failure)
    {
      var _ :- runtime.Perform(Emit(ModelResponded, stepId));
      if Said(content) != "" {
        var _ :- runtime.Perform(Emit(AgentMessage, stepId));
      }
      var _ :- runtime.Perform(Emit(StepCompleted, stepId));
      return Got(content);
    }

    /** From the current index on, each call is answered and saved; an approval needed ends the loop. */
    method RunTools(first: Option<Resumption>) returns (r: Reply<Option<Outcome>>)
      requires turn.Some? && runtime.Valid() && runtime.machine == NextCall(runtime.maxTurns, Snapshot(), first)
      modifies this, runtime
      ensures r.Got? ==> runtime.Valid() && turns == old(turns) && messages == old(messages)
      ensures r.Got? && r.value.None? ==>
                turn.Some? && runtime.machine == BeginTurn(runtime.maxTurns, CloseTurn(Snapshot()))
      ensures r.Got? && r.value.Some? ==> EndedWith(r.value.value)
      ensures r.Lost? ==> LeftBy(r.failure)
    {
      var resumption := first;
      while turn.value.index < |turn.value.toolUses|
        invariant turn.Some? && turn.value.toolUses == old(turn.value.toolUses)
        invariant turns == old(turns) && messages == old(messages)
        invariant runtime.Valid() && runtime.machine == NextCall(runtime.maxTurns, Snapshot(), resumption)
        decreases |turn.value.toolUses| - turn.value.index
      {
        var use := turn.value.toolUses[turn.value.index];
        var step :- RunTool(use, if turn.value.inFlight.Some? then resumption else None);
        resumption := None;
        if step.Pausing? { return Got(Some(Paused(step.approvalId, step.stepId))); }
        turn := Some(Turn(turn.value.toolUses, turn.value.results + [step.block], turn.value.index + 1, None));
        var _ :- runtime.Perform(Checkpoint(Snapshot(), None));
      }
      return Got(None);
    }

    method RunTool(use: Use, resumption: Option<Resumption>) returns (r: Reply<CallResult>)
      requires CallsLeft(Snapshot()) && use == turn.value.toolUses[turn.value.index]
      requires turn.value.inFlight.None? ==> resumption.None?
      requires runtime.Valid() && runtime.machine == NextCall(runtime.maxTurns, Snapshot(), resumption)
      modifies this, runtime
      ensures r.Got? ==> runtime.Valid() && turns == old(turns) && messages == old(messages)
      ensures r.Got? ==> turn.Some? && turn.value.(inFlight := None) == old(turn.value).(inFlight := None)
      ensures r.Got? && r.value.Result? ==> runtime.machine == Answered(Snapshot(), r.value.block)
      ensures r.Got? && r.value.Pausing? ==> EndedWith(Paused(r.value.approvalId, r.value.stepId))
      ensures r.Lost? ==> LeftBy(r.failure)
    {
      var resumed := turn.value.inFlight;
      var flight: InFlight;
      if resumed.Some? {
        flight := resumed.value;
        if Finished(flight, resumption) { return Got(Result(UnknownOutcome(use))); }
      } else {
        flight :- Announce(use);
      }
      r := LookAndRun(Call(use, flight, resumed.Some?), resumption);
    }

    /** A fresh call gets its identifiers and its step. */
    method Announce(use: Use) returns (r: Reply<InFlight>)
      requires runtime.Valid() && runtime.machine == Machine(Snapshot(), CallIds(use), None)
      modifies runtime
      ensures runtime.Valid()
      ensures r.Got? ==> runtime.machine == Machine(Snapshot(), InCall(Call(use, r.value, false), Looking), None)
      ensures r.Lost? ==> LeftBy(r.failure)
    {
      var ids :- runtime.Await(DrawIds);
      if ids.Thrown? { return Lost(Raised(ids.error)); }
      var flight := InFlight(ids.stepId, ids.toolCallId, ids.requestId, None);
      var _ :- runtime.Perform(Emit(StepStarted, flight.stepId));
      return Got(flight);
    }

    /** The tool is looked up and its input checked; only then is the call recorded and run. */
    method LookAndRun(c: Call, resumption: Option<Resumption>) returns (r: Reply<CallResult>)
      requires turn.Some? && turn.value.inFlight == (if c.resumed then Some(c.flight) else None)
      requires runtime.Valid() && runtime.machine == Machine(Snapshot(), InCall(c, Looking), resumption)
      modifies this, runtime
      ensures r.Got? ==> runtime.Valid() && turns == old(turns) && messages == old(messages)
      ensures r.Got? ==> turn.Some? && turn.value.(inFlight := None) == old(turn.value).(inFlight := None)
      ensures r.Got? && r.value.Result? ==> runtime.machine == Answered(Snapshot(), r.value.block)
      ensures r.Got? && r.value.Pausing? ==> EndedWith(Paused(r.value.approvalId, r.value.stepId))
      ensures r.Lost? ==> LeftBy(r.failure)
    {
      var inspection :- Look(c, resumption);
      if inspection.Missing? {
        var _ :- runtime.Perform(Emit(StepFailed, c.flight.stepId));
        return Got(Result(Unavailable(c.use)));
      }
      if inspection.Invalid? {
        r := ToolFails(c, "TOOL_INPUT_INVALID", inspection.message);
        return;
      }
      if !c.resumed {
        turn := Some(turn.value.(inFlight := Some(c.flight)));
        var _ :- runtime.Perform(Checkpoint(Snapshot(), Some(c.flight.stepId)));
      }
      r := DecideAndRun(c, inspection.governed, resumption);
    }

    method Look(c: Call, resumption: Option<Resumption>) returns (r: Reply<Inspection>)
      requires runtime.Valid() && runtime.machine == Machine(Snapshot(), InCall(c, Looking), resumption)
      modifies runtime
      ensures runtime.Valid()
      ensures r.Got? ==> runtime.machine == Inspecting(Machine(Snapshot(), InCall(c, Looking), resumption), c, r.value)
      ensures r.Lost? ==> LeftBy(r.failure)
    {
      var a :- runtime.Await(Inspect(c.use));
      if a.Thrown? { return Lost(Raised(a.error)); }
      if !c.resumed && !a.inspection.Missing? {
        var _ :- runtime.Perform(Emit(ToolRequested, c.flight.stepId));
      }
      return Got(a.inspection);
    }

    /** From the recorded call to its answer: the decision, then the tool. */
    method DecideAndRun(c: Call, governed: bool, resumption: Option<Resumption>) returns (r: Reply<CallResult>)
      requires turn.Some? && turn.value.inFlight == Some(c.flight) && runtime.Valid()
      requires runtime.machine == Deciding(Machine(Snapshot(), LoopHead, resumption), c, governed)
      modifies this, runtime
      ensures r.Got? ==> runtime.Valid() && turns == old(turns) && messages == old(messages)
      ensures r.Got? ==> turn.Some? && turn.value.(inFlight := None) == old(turn.value).(inFlight := None)
      ensures r.Got? && r.value.Result? ==> runtime.machine == Answered(Snapshot(), r.value.block)
      ensures r.Got? && r.value.Pausing? ==> EndedWith(Paused(r.value.approvalId, r.value.stepId))
      ensures r.Lost? ==> LeftBy(r.failure)
    {
      var approved := c;
      if governed && c.flight.approvalId.None? {
        var a :- runtime.Await(AskDecision(c.flight.requestId));
        if a.Thrown? { return Lost(Raised(a.error)); }
        if a.decision.Denied? {
          r := ToolFails(c, "ACTION_DENIED", a.decision.reason);
          return;
        }
        if a.decision.ApprovalRequired? {
          approved := c.(flight := c.flight.(approvalId := Some(a.decision.approvalId)));
          turn := Some(turn.value.(inFlight := Some(approved.flight)));
          if resumption.None? || resumption.value.approvalId != Some(a.decision.approvalId) {
            return Got(Pausing(a.decision.approvalId, c.flight.stepId));
          }
          var _ :- runtime.Perform(Checkpoint(Snapshot(), Some(c.flight.stepId)));
        }
      }
      r := RunApproved(approved, governed, resumption);
    }

    method RunApproved(c: Call, governed: bool, resumption: Option<Resumption>) returns (r: Reply<CallResult>)
      requires runtime.Valid() && runtime.machine == Machine(Snapshot(), InCall(c, Starting(governed)), resumption)
      modifies this`artifactIds, runtime
      ensures r.Got? ==> runtime.Valid() && r.value.Result? && runtime.machine == Answered(Snapshot(), r.value.block)
      ensures r.Lost? ==> LeftBy(r.failure)
    {
      var _ :- runtime.Perform(Emit(ToolStarted, c.flight.stepId));
      var output := Execute(c, governed);
      if output.Got? { return Got(Result(Success(c.use, output.value))); }
      if output.failure.Crashed? { return Lost(Crashed); }
      var error := output.failure.error;
      var _ :- ThrowIfAborted();
      r := ToolFails(c, ToolErrorCode(error), ToolErrorMessage(c.use, error));
    }

    /** The tool itself and its end events; an error in any of them is the call's, not the run's. */
    method Execute(c: Call, governed: bool) returns (r: Reply<string>)
      requires runtime.Valid() && runtime.machine.pc == InCall(c, Executing(governed))
      requires runtime.machine.state == Snapshot()
      modifies this`artifactIds, runtime
      ensures runtime.Valid()
      ensures r.Got? ==> runtime.machine == Answered(Snapshot(), Success(c.use, r.value))
      ensures r.Lost? && r.failure.Crashed? ==> LeftBy(Crashed)
      ensures r.Lost? && r.failure.Raised? ==>
                runtime.machine == old(runtime.machine).(state := Snapshot(), pc := InCall(c, Catching(r.failure.error)))
    {
      var a :- runtime.Await(Effect.RunTool(c.use, if governed then Some(c.flight.requestId) else None));
      if a.Thrown? { return Lost(Raised(a.error)); }
      artifactIds := artifactIds + a.artifactIds;
      var _ :- runtime.Perform(Emit(ToolCompleted, c.flight.stepId));
      var _ :- runtime.Perform(Emit(StepCompleted, c.flight.stepId));
      return Got(a.text);
    }

    method ToolFails(c: Call, code: string, message: string) returns (r: Reply<CallResult>)
      requires runtime.Valid() && runtime.machine.pc == InCall(c, Failing(code, message))
      requires runtime.machine.state == Snapshot()
      modifies runtime
      ensures r.Got? ==> runtime.Valid() && r.value.Result? && runtime.machine == Answered(Snapshot(), r.value.block)
      ensures r.Lost? ==> LeftBy(r.failure)
    {
      var _ :- runtime.Perform(Emit(ToolFailed, c.flight.stepId));
      var _ :- runtime.Perform(Emit(StepFailed, c.flight.stepId));
      return Got(Result(FailureText(c.use, code, message)));
    }
  }

  /** A machine that has ended stays as it is, whatever else it is told. */
  lemma {:induction false} EndedStays(maxTurns: nat, m: Machine, script: seq<Answer>, n: nat)
    requires n <= |script| && Drive(maxTurns, m, script[..n]).pc.Done?
    ensures Drive(maxTurns, m, script) == Drive(maxTurns, m, script[..n])
    decreases |script|
  {
    if n < |script| {
      var before := script[..|script| - 1];
      assert before[..n] == script[..n];
      EndedStays(maxTurns, m, before, n);
    } else {
      assert script[..n] == script;
    }
  }

  // ---- Approvals --------------------------------------------------------------------------

  /** The checkpoint has no call in flight that may be waiting for this approval. */
  predicate Mismatched(s: State, approvalId: Id) {
    s.turn.None? || s.turn.value.inFlight.None? || s.turn.value.inFlight.value.approvalId !in {None, Some(approvalId)}
  }

  /** What a life continued with this approval ends in before it does anything, if it does. */
  function EndsAtOnce(s: State, approval: Option<Approval>): Option<string> {
    if approval.None? then None
    else if Mismatched(s, approval.value.approvalId) then Some("RUNTIME_APPROVAL_MISMATCH")
    else if !approval.value.approved then Some("ACTION_REJECTED")
    else None
  }

  /**
   A life continued with a rejected approval, or one for something else, has ended with the checkpoint as
   it is: on no script does it ever wait for a decision, a tool, the model or a save, or for anything.
   */
  lemma {:induction false} RejectedEndsAtOnce(maxTurns: nat, s: State, approval: Option<Approval>,
                                              openStepIds: Option<set<Id>>, script: seq<Answer>)
    requires EndsAtOnce(s, approval).Some?
    ensures var m := Drive(maxTurns, Kernel.Resume(s, approval, openStepIds), script);
            m.state == s && m.pc == Done(Failed(EndsAtOnce(s, approval).value)) && EffectOf(m) == Nothing
  {
    if script != [] { RejectedEndsAtOnce(maxTurns, s, approval, openStepIds, script[..|script| - 1]); }
  }

  /**
   Any other life goes on. One whose call has the approval it waited for runs the tool next, under the
   recorded request and without asking again.
   */
  lemma ApprovedGoesOn(maxTurns: nat, s: State, approval: Option<Approval>, openStepIds: Option<set<Id>>)
    requires EndsAtOnce(s, approval).None?
    ensures var m := Kernel.Resume(s, approval, openStepIds);
            m.state == s && EffectOf(m) == PollSignal
    ensures CallsLeft(s) && s.turn.value.inFlight.Some? && approval.Some? &&
            s.turn.value.inFlight.value.approvalId == Some(approval.value.approvalId) &&
            (openStepIds.Some? ==> s.turn.value.inFlight.value.stepId in openStepIds.value) ==>
              var m := Drive(maxTurns, Kernel.Resume(s, approval, openStepIds), [Signal(None), Inspected(Ready(true)), Ack]);
              var t := s.turn.value;
              m.state == s && EffectOf(m) == Effect.RunTool(t.toolUses[t.index], Some(t.inFlight.value.requestId))
  {
    var origin := Kernel.Resume(s, approval, openStepIds);
    var script := [Signal(None), Inspected(Ready(true)), Ack];
    assert script[..2] == [Signal(None), Inspected(Ready(true))] && script[..2][..1] == [Signal(None)] && script[..1][..0] == [];
    assert Drive(maxTurns, origin, [Signal(None)]) == Step(maxTurns, origin, Signal(None)) by {
      assert [Signal(None)][..0] == [];
    }
  }

  /**
   So does one whose pause was never saved: asked again, it is told of the very approval it was given, saves
   that, and runs the tool.
   */
  lemma ApprovalFoundAgain(maxTurns: nat, s: State, approval: Approval, openStepIds: Option<set<Id>>)
    requires EndsAtOnce(s, Some(approval)).None? && CallsLeft(s) && s.turn.value.inFlight.Some?
    requires s.turn.value.inFlight.value.approvalId.None?
    requires openStepIds.Some? ==> s.turn.value.inFlight.value.stepId in openStepIds.value
    ensures var script := [Signal(None), Inspected(Ready(true)), Decided(ApprovalRequired(approval.approvalId)), Ack, Ack];
            var t := s.turn.value;
            EffectOf(Drive(maxTurns, Kernel.Resume(s, Some(approval), openStepIds), script)) ==
            Effect.RunTool(t.toolUses[t.index], Some(t.inFlight.value.requestId))
  {
    var m0 := Kernel.Resume(s, Some(approval), openStepIds);
    var m2 := Step(maxTurns, Step(maxTurns, m0, Signal(None)), Inspected(Ready(true)));
    AskedAgain(maxTurns, s, approval, openStepIds);
    KnownApprovalRuns(maxTurns, m2);
    DriveFive(maxTurns, m0, Signal(None), Inspected(Ready(true)), Decided(ApprovalRequired(approval.approvalId)), Ack, Ack);
  }

  /** It is asked about again, under the same request. */
  lemma AskedAgain(maxTurns: nat, s: State, approval: Approval, openStepIds: Option<set<Id>>)
    requires EndsAtOnce(s, Some(approval)).None? && CallsLeft(s) && s.turn.value.inFlight.Some?
    requires s.turn.value.inFlight.value.approvalId.None?
    requires openStepIds.Some? ==> s.turn.value.inFlight.value.stepId in openStepIds.value
    ensures var m := Step(maxTurns, Step(maxTurns, Kernel.Resume(s, Some(approval), openStepIds), Signal(None)), Inspected(Ready(true)));
            var t := s.turn.value;
            m == Machine(s, InCall(Call(t.toolUses[t.index], t.inFlight.value, true), Asking),
                         Some(Resumption(Some(approval.approvalId), openStepIds)))
  {}

  /** And goes on to the tool if it needs the approval the life was given. */
  lemma KnownApprovalRuns(maxTurns: nat, m: Machine)
    requires m.pc.InCall? && m.pc.callPhase.Asking? && m.resumption.Some? && m.resumption.value.approvalId.Some?
    ensures var asked := Step(maxTurns, m, Decided(ApprovalRequired(m.resumption.value.approvalId.value)));
            EffectOf(Step(maxTurns, Step(maxTurns, asked, Ack), Ack)) ==
            Effect.RunTool(m.pc.call.use, Some(m.pc.call.flight.requestId))
  {}

  lemma DriveFive(maxTurns: nat, m: Machine, a: Answer, b: Answer, c: Answer, d: Answer, e: Answer)
    ensures Drive(maxTurns, m, [a, b, c, d, e]) ==
            Step(maxTurns, Step(maxTurns, Step(maxTurns, Step(maxTurns, Step(maxTurns, m, a), b), c), d), e)
  {
    assert [a, b, c, d, e][..4] == [a, b, c, d] && [a, b, c, d][..3] == [a, b, c] && [a, b, c][..2] == [a, b];
    assert [a, b][..1] == [a] && [a][..0] == [];
    assert Drive(maxTurns, m, [a]) == Step(maxTurns, m, a);
    assert Drive(maxTurns, m, [a, b]) == Step(maxTurns, Drive(maxTurns, m, [a]), b);
    assert Drive(maxTurns, m, [a, b, c]) == Step(maxTurns, Drive(maxTurns, m, [a, b]), c);
  }

  /** One life of a run, from its start or from a checkpoint: on every script it does what the coroutine does. */
  method Live(maxTurns: nat, prompt: string, from: Option<State>, approval: Option<Approval>,
              openStepIds: Option<set<Id>>, script: seq<Answer>)
    returns (r: Reply<Outcome>, last: State)
    ensures var origin := if from.Some? then Kernel.Resume(from.value, approval, openStepIds) else Kernel.Start(prompt);
            if r.Got? then Drive(maxTurns, origin, script) == Stop(last, r.value)
            else r.failure.Crashed? && !Drive(maxTurns, origin, script).pc.Done?
    ensures from.Some? && EndsAtOnce(from.value, approval).Some? ==>
              r == Got(Failed(EndsAtOnce(from.value, approval).value)) && last == from.value
  {
    if from.Some? && EndsAtOnce(from.value, approval).Some? {
      RejectedEndsAtOnce(maxTurns, from.value, approval, openStepIds, script);
    }
    var s := if from.Some? then from.value else Initial(prompt);
    ghost var origin :=
      if from.Some? then Kernel.Resume(from.value, approval, openStepIds) else Kernel.Start(prompt);
    var runtime := new Runtime(maxTurns, script, origin);
    var kernel := new NativeKernel(runtime, s);
    if from.Some? {
      r := kernel.Resume(approval, openStepIds);
    } else {
      r := kernel.Start(prompt);
    }
    last := kernel.Snapshot();
    runtime.TraceIsDrive(runtime.next);
    if r.Got? {
      EndedStays(maxTurns, origin, script, runtime.next);
    } else {
      assert script[..runtime.next] == script;
    }
  }
}
