/**
 What a kernel may run. On every script of answers, honest or not, a governed tool runs only under a request
 that was allowed, or for which the approval it waits for was given, or whose approval its checkpoint
 already records; and an ungoverned one only after it was found to be ungoverned.
 */
module GovernedCalls {
  import opened Wrappers
  import opened Kernel
  import opened NativeKernel

  /** A life: from the start of a run, or from a checkpoint and perhaps with an approval. */
  datatype Life = Life(maxTurns: nat, prompt: string, from: Option<State>, approval: Option<Approval>, openStepIds: Option<set<Id>>)

  function Origin(life: Life): Machine {
    if life.from.Some? then Kernel.Resume(life.from.value, life.approval, life.openStepIds) else Kernel.Start(life.prompt)
  }

  function At(life: Life, script: seq<Answer>): Machine {
    Drive(life.maxTurns, Origin(life), script)
  }

  /** The answer at `k` lets the request through: allowed, or it needs the very approval this life was given. */
  predicate ClearsAt(life: Life, script: seq<Answer>, k: nat, requestId: Id) {
    k < |script| && EffectOf(At(life, script[..k])) == AskDecision(requestId) &&
    (script[k] == Decided(Allowed) ||
     (script[k].Decided? && script[k].decision.ApprovalRequired? &&
      life.approval == Some(Approval(script[k].decision.approvalId, true))))
  }

  /** The checkpoint's call in flight is this request's, and its approval is on record there. */
  predicate OnRecord(life: Life, requestId: Id) {
    life.from.Some? && life.from.value.turn.Some? && life.from.value.turn.value.inFlight.Some? &&
    life.from.value.turn.value.inFlight.value.requestId == requestId &&
    life.from.value.turn.value.inFlight.value.approvalId.Some?
  }

  ghost predicate Cleared(life: Life, script: seq<Answer>, requestId: Id) {
    OnRecord(life, requestId) || exists k :: ClearsAt(life, script, k, requestId)
  }

  /** The call in flight before anything was answered in this life. */
  function Recorded(life: Life): Option<InFlight> {
    if life.from.Some? && life.from.value.turn.Some? then life.from.value.turn.value.inFlight else None
  }

  /** The call in progress needs to have been let through. */
  predicate Needs(m: Machine, requestId: Id) {
    m.pc.InCall? && m.pc.call.flight.requestId == requestId &&
    (m.pc.call.flight.approvalId.Some? || m.pc.callPhase == Starting(true) || m.pc.callPhase == Executing(true) ||
     m.pc.callPhase.Approving?)
  }

  /** The life's approval is all its resumption knows of. */
  predicate Resumes(life: Life, r: Option<Resumption>) {
    r.Some? && r.value.approvalId.Some? ==> life.approval == Some(Approval(r.value.approvalId.value, true))
  }

  /** Between calls: a call in flight is the recorded one, and none is once the loop has moved on. */
  predicate Between(life: Life, m: Machine) {
    m.state.turn.Some? ==>
      (m.pc.LoopHead? ==> m.state.turn.value.inFlight in {None, Recorded(life)}) &&
      (m.pc.SaveCall? || m.pc.SaveTurn? || m.pc.SaveStart? ==> m.state.turn.value.inFlight.None?)
  }

  /** Where the answers so far leave the call that is in progress. */
  ghost predicate Keeps(life: Life, script: seq<Answer>, m: Machine) {
    Resumes(life, m.resumption) && Between(life, m) && forall r :: Needs(m, r) ==> Cleared(life, script, r)
  }

  /** The answer lets the request asked about through. */
  predicate Lets(m: Machine, a: Answer, requestId: Id) {
    EffectOf(m) == AskDecision(requestId) && a.Decided? &&
    (a.decision.Allowed? || (a.decision.ApprovalRequired? && m.resumption.Some? &&
                             m.resumption.value.approvalId == Some(a.decision.approvalId)))
  }

  lemma CallStepNeeds(maxTurns: nat, m: Machine, a: Answer, requestId: Id)
    requires m.pc.InCall?
    ensures var next := Step(maxTurns, m, a);
            (Needs(next, requestId) ==> Needs(m, requestId) || Lets(m, a, requestId)) &&
            next.resumption in {None, m.resumption} && !next.pc.LoopHead? && !next.pc.SaveTurn? && !next.pc.SaveStart? &&
            (next.pc.SaveCall? && next.state.turn.Some? ==> next.state.turn.value.inFlight.None?)
  {}

  lemma OtherStepNeeds(life: Life, m: Machine, a: Answer, requestId: Id)
    requires !m.pc.InCall? && Between(life, m)
    ensures var next := Step(life.maxTurns, m, a);
            (Needs(next, requestId) ==> Recorded(life).Some? && Recorded(life).value.requestId == requestId &&
                                        Recorded(life).value.approvalId.Some?) &&
            next.resumption in {None, m.resumption} && Between(life, next)
  {}

  lemma ClearedStays(life: Life, script: seq<Answer>, a: Answer, requestId: Id)
    requires Cleared(life, script, requestId)
    ensures Cleared(life, script + [a], requestId)
  {
    if !OnRecord(life, requestId) {
      var k: nat :| ClearsAt(life, script, k, requestId);
      assert (script + [a])[..k] == script[..k];
      assert ClearsAt(life, script + [a], k, requestId);
    }
  }

  lemma LettingClears(life: Life, script: seq<Answer>, m: Machine, a: Answer, requestId: Id)
    requires At(life, script) == m && Resumes(life, m.resumption) && Lets(m, a, requestId)
    ensures Cleared(life, script + [a], requestId)
  {
    assert (script + [a])[..|script|] == script;
    assert ClearsAt(life, script + [a], |script|, requestId);
  }

  lemma StepKeeps(life: Life, script: seq<Answer>, m: Machine, a: Answer, next: Machine)
    requires At(life, script) == m && Keeps(life, script, m) && next == Step(life.maxTurns, m, a)
    ensures Keeps(life, script + [a], next)
  {
    forall r ensures Needs(next, r) ==> Cleared(life, script + [a], r) {
      NeedIsCleared(life, script, m, a, next, r);
    }
    if m.pc.InCall? { CallStepNeeds(life.maxTurns, m, a, 0); } else { OtherStepNeeds(life, m, a, 0); }
  }

  lemma NeedIsCleared(life: Life, script: seq<Answer>, m: Machine, a: Answer, next: Machine, r: Id)
    requires At(life, script) == m && Keeps(life, script, m) && next == Step(life.maxTurns, m, a)
    ensures Needs(next, r) ==> Cleared(life, script + [a], r)
  {
    if m.pc.InCall? {
      CallStepNeeds(life.maxTurns, m, a, r);
      if Needs(m, r) { ClearedStays(life, script, a, r); }
      else if Lets(m, a, r) { LettingClears(life, script, m, a, r); }
    } else {
      OtherStepNeeds(life, m, a, r);
    }
  }

  lemma AtOne(life: Life, script: seq<Answer>, a: Answer)
    ensures At(life, script + [a]) == Step(life.maxTurns, At(life, script), a)
  {
    assert (script + [a])[..|script|] == script;
  }

  lemma {:induction false} EveryScriptKeeps(life: Life, script: seq<Answer>)
    ensures Keeps(life, script, At(life, script))
  {
    if script != [] {
      var before, a := script[..|script| - 1], script[|script| - 1];
      assert script == before + [a];
      EveryScriptKeeps(life, before);
      StepKeeps(life, before, At(life, before), a, At(life, script));
    }
  }

  /** A governed tool runs only under a request that was let through. */
  lemma GovernedToolsAreCleared(life: Life, script: seq<Answer>, requestId: Id)
    requires EffectOf(At(life, script)).RunTool? && EffectOf(At(life, script)).governedBy == Some(requestId)
    ensures Cleared(life, script, requestId)
  {
    EveryScriptKeeps(life, script);
    assert Needs(At(life, script), requestId);
  }

  // ---- Tools that need no request ---------------------------------------------------------

  /** The answer at `k` said that the tool is not governed. */
  predicate FreeAt(life: Life, script: seq<Answer>, k: nat, use: Use) {
    k < |script| && EffectOf(At(life, script[..k])) == Inspect(use) && script[k] == Inspected(Ready(false))
  }

  ghost predicate Free(life: Life, script: seq<Answer>, use: Use) {
    exists k :: FreeAt(life, script, k, use)
  }

  /** The phases in which a call is known to be ungoverned. */
  predicate Ungoverned(phase: CallPhase) {
    phase == Requested(Ready(false)) || phase == Recording(false) || phase == Starting(false) || phase == Executing(false)
  }

  predicate KnownFree(m: Machine, use: Use) {
    m.pc.InCall? && Ungoverned(m.pc.callPhase) && m.pc.call.use == use
  }

  lemma StepFrees(maxTurns: nat, m: Machine, a: Answer, use: Use)
    requires KnownFree(Step(maxTurns, m, a), use)
    ensures KnownFree(m, use) || (EffectOf(m) == Inspect(use) && a == Inspected(Ready(false)))
  {}

  lemma FreeStays(life: Life, script: seq<Answer>, a: Answer, use: Use)
    requires Free(life, script, use)
    ensures Free(life, script + [a], use)
  {
    var k: nat :| FreeAt(life, script, k, use);
    assert (script + [a])[..k] == script[..k];
    assert FreeAt(life, script + [a], k, use);
  }

  lemma InspectionFrees(life: Life, script: seq<Answer>, use: Use)
    requires EffectOf(At(life, script)) == Inspect(use)
    ensures Free(life, script + [Inspected(Ready(false))], use)
  {
    var longer := script + [Inspected(Ready(false))];
    assert longer[..|script|] == script;
    assert FreeAt(life, longer, |script|, use);
  }

  lemma {:induction false} EveryScriptKnowsFree(life: Life, script: seq<Answer>, use: Use)
    requires KnownFree(At(life, script), use)
    ensures Free(life, script, use)
  {
    if script != [] {
      var before, a := script[..|script| - 1], script[|script| - 1];
      assert script == before + [a];
      StepFrees(life.maxTurns, At(life, before), a, use);
      if KnownFree(At(life, before), use) {
        EveryScriptKnowsFree(life, before, use);
        FreeStays(life, before, a, use);
      } else {
        InspectionFrees(life, before, use);
      }
    }
  }

  /** A tool runs without a request only after it was found to need none. */
  lemma UngovernedToolsAreFree(life: Life, script: seq<Answer>)
    requires EffectOf(At(life, script)).RunTool? && EffectOf(At(life, script)).governedBy.None?
    ensures Free(life, script, EffectOf(At(life, script)).use)
  {
    EveryScriptKnowsFree(life, script, EffectOf(At(life, script)).use);
  }

  // ---- How lives end ----------------------------------------------------------------------

  /** A call that needs an approval nobody has given pauses the run, with the approval on record. */
  lemma UnapprovedCallsPause(life: Life, script: seq<Answer>, approvalId: Id)
    requires EffectOf(At(life, script)).AskDecision? && life.approval != Some(Approval(approvalId, true))
    ensures var m, next := At(life, script), At(life, script + [Decided(ApprovalRequired(approvalId))]);
            m.pc.InCall? && next.pc == Done(Paused(approvalId, m.pc.call.flight.stepId)) &&
            next.state == m.state.(turn := next.state.turn) &&
            (m.state.turn.Some? ==>
               next.state.turn == Some(m.state.turn.value.(inFlight := Some(m.pc.call.flight.(approvalId := Some(approvalId))))))
  {
    EveryScriptKeeps(life, script);
    AtOne(life, script, Decided(ApprovalRequired(approvalId)));
  }

  /** The codes the platform reports an error under. */
  predicate ReportedAs(e: Error, code: string) {
    match e
    case RuntimeFailure(c, _) => code == c
    case ControlPlaneError(_) => code == "CONTROL_PLANE_REJECTED"
    case Unexpected => code == "RUNTIME_INTERNAL_ERROR"
  }

  /** An abort ends the run with its reason; an error in what must not fail ends it with the error, at once. */
  lemma AbortsAndErrorsEnd(life: Life, script: seq<Answer>, reason: string, e: Error)
    ensures EffectOf(At(life, script)) == PollSignal ==>
              At(life, script + [Signal(Some(reason))]) == Stop(At(life, script).state, Failed(reason))
    ensures var m, next := At(life, script), At(life, script + [Thrown(e)]);
            (EffectOf(m).Checkpoint? || EffectOf(m).AskDecision? ||
             (EffectOf(m).Emit? && EffectOf(m).event in {StepStarted, ToolRequested, ToolStarted, ToolFailed, StepFailed})) ==>
              next.state == m.state && next.pc.Done? && next.pc.outcome.Failed? && ReportedAs(e, next.pc.outcome.code)
  {
    AtOne(life, script, Signal(Some(reason)));
    AtOne(life, script, Thrown(e));
  }
}
