/**
 What a kernel can save on top of the checkpoint it last saved or loaded, and what every saved
 checkpoint looks like. Both are relations between checkpoints only, so they survive crashes and
 takeovers: `Tracks` is the bridge from a suspended kernel to the checkpoint under it.
 */
module Checkpoints {
  import opened Wrappers
  import opened Kernel

  // ---- One save after another -------------------------------------------------------------

  /** Model turn: the answered calls are closed and the model has asked for new ones. */
  ghost predicate AsksForTools(maxTurns: nat, base: State, s: State) {
    !CallsLeft(base) && base.turns < maxTurns &&
    s.messages != [] &&
    var content := s.messages[|s.messages| - 1].content;
    Uses(content) != [] && s == Respond(CloseTurn(base).(turns := base.turns + 1), content)
  }

  /** A fresh call is recorded before anything is asked about it. */
  ghost predicate BeginsCall(base: State, s: State) {
    CallsLeft(base) && base.turn.value.inFlight.None? &&
    s.turn.Some? && s.turn.value.inFlight.Some? && s.turn.value.inFlight.value.approvalId.None? &&
    s == SetFlight(base, s.turn.value.inFlight)
  }

  /** The recorded call is now known to wait for an approval. */
  ghost predicate NamesApproval(base: State, s: State) {
    CallsLeft(base) && base.turn.value.inFlight.Some? &&
    base.turn.value.inFlight.value.approvalId.None? &&
    s.turn.Some? && s.turn.value.inFlight.Some? && s.turn.value.inFlight.value.approvalId.Some? &&
    s == SetFlight(base, Some(base.turn.value.inFlight.value.(approvalId := s.turn.value.inFlight.value.approvalId)))
  }

  /** The call at the head of the turn is answered, under its own id. */
  ghost predicate AnswersCall(base: State, s: State) {
    CallsLeft(base) && s.turn.Some? && s.turn.value.results != [] &&
    var block := s.turn.value.results[|s.turn.value.results| - 1];
    block.ToolResult? && block.toolUseId == base.turn.value.toolUses[base.turn.value.index].id &&
    base.artifactIds <= s.artifactIds &&
    s == Push(base.(artifactIds := s.artifactIds), block)
  }

  ghost predicate Follows(maxTurns: nat, base: State, s: State) {
    AsksForTools(maxTurns, base, s) || BeginsCall(base, s) || NamesApproval(base, s) || AnswersCall(base, s)
  }

  // ---- A suspended kernel and the checkpoint under it -------------------------------------

  /** The call named by the kernel is the one at the head of the checkpoint's turn. */
  ghost predicate Heads(base: State, use: Use) {
    CallsLeft(base) && base.turn.value.toolUses[base.turn.value.index] == use
  }

  /** A call already recorded in `base`, or still unrecorded. */
  ghost predicate CallIn(base: State, c: Call) {
    Heads(base, c.use) && base.turn.value.inFlight == if c.resumed then Some(c.flight) else None
  }

  ghost predicate Recorded(base: State, c: Call) {
    Heads(base, c.use) && base.turn.value.inFlight == Some(c.flight)
  }

  /** Only artifacts a call produced may be ahead of the checkpoint. */
  ghost predicate Produced(base: State, s: State) {
    base.artifactIds <= s.artifactIds && s == base.(artifactIds := s.artifactIds)
  }

  ghost predicate InModelTurn(maxTurns: nat, base: State, s: State) {
    !CallsLeft(base) && base.turns < maxTurns && s == CloseTurn(base).(turns := base.turns + 1)
  }

  ghost predicate TracksCall(base: State, s: State, c: Call, phase: CallPhase) {
    match phase
    case Announcing => s == base && CallIn(base, c) && !c.resumed && c.flight.approvalId.None?
    case Looking => s == base && CallIn(base, c) && (!c.resumed ==> c.flight.approvalId.None?)
    case Lacking => s == base && CallIn(base, c)
    case Requested(i) => s == base && CallIn(base, c) && !c.resumed && c.flight.approvalId.None? && !i.Missing?
    case Recording(_) => BeginsCall(base, s) && Recorded(s, c) && c.flight.approvalId.None? && !c.resumed
    case Asking => s == base && Recorded(base, c) && c.flight.approvalId.None?
    case Approving => NamesApproval(base, s) && Recorded(s, c)
    case Starting(_) => s == base && Recorded(base, c)
    case Executing(_) => s == base && Recorded(base, c)
    case Completing(_) => Produced(base, s) && Recorded(base, c)
    case Ending(_) => Produced(base, s) && Recorded(base, c)
    case Catching(_) => Produced(base, s) && Recorded(base, c)
    case Failing(_, _) => Produced(base, s) && Heads(base, c.use)
    case Ended(_, _) => Produced(base, s) && Heads(base, c.use)
  }

  ghost predicate Tracks(maxTurns: nat, base: State, m: Machine) {
    var s := m.state;
    match m.pc
    case SaveStart => false
    case LoopHead => s == base
    case ModelIds => InModelTurn(maxTurns, base, s)
    case InModel(_, _) => InModelTurn(maxTurns, base, s)
    case SaveTurn => AsksForTools(maxTurns, base, s)
    case CallIds(use) => s == base && Heads(base, use) && base.turn.value.inFlight.None?
    case InCall(c, phase) => TracksCall(base, s, c, phase)
    case SaveCall => AnswersCall(base, s)
    case Done(outcome) => outcome.Paused? ==> NamesApproval(base, s)
  }

  predicate Saves(m: Machine) {
    EffectOf(m).Checkpoint?
  }

  lemma NextCallTracks(maxTurns: nat, s: State, resumption: Option<Resumption>)
    requires s.turn.Some?
    ensures Tracks(maxTurns, s, NextCall(maxTurns, s, resumption))
  {
    if CallsLeft(s) && s.turn.value.inFlight.Some? && Finished(s.turn.value.inFlight.value, resumption) {
      var use := s.turn.value.toolUses[s.turn.value.index];
      assert Push(s, UnknownOutcome(use)).turn.value.results == s.turn.value.results + [UnknownOutcome(use)];
    }
  }

  lemma AnsweredTracks(maxTurns: nat, base: State, s: State, use: Use, block: Block)
    requires Heads(base, use) && Produced(base, s)
    requires block.ToolResult? && block.toolUseId == use.id
    ensures Tracks(maxTurns, base, Answered(s, block))
  {
    assert Push(s, block).turn.value.results == base.turn.value.results + [block];
  }

  lemma ConcludedCallTracks(maxTurns: nat, base: State, m: Machine, a: Answer)
    requires m.pc.InCall? && Tracks(maxTurns, base, m) && Fits(EffectOf(m), a)
    requires a.Thrown? ==> Handled(m.pc)
    requires m.pc.callPhase.Lacking? || m.pc.callPhase.Ending? || m.pc.callPhase.Ended?
    ensures Tracks(maxTurns, base, CallStep(m, m.pc.call, m.pc.callPhase, a))
  {
    var c := m.pc.call;
    match m.pc.callPhase {
      case Lacking => AnsweredTracks(maxTurns, base, m.state, c.use, Unavailable(c.use));
      case Ending(text) => AnsweredTracks(maxTurns, base, m.state, c.use, Success(c.use, text));
      case Ended(code, message) => AnsweredTracks(maxTurns, base, m.state, c.use, FailureText(c.use, code, message));
    }
  }

  lemma CallTracks(maxTurns: nat, base: State, m: Machine, a: Answer)
    requires m.pc.InCall? && Tracks(maxTurns, base, m) && Fits(EffectOf(m), a)
    requires a.Thrown? ==> Handled(m.pc)
    ensures Saves(m) ==> Follows(maxTurns, base, m.state)
    ensures Tracks(maxTurns, if Saves(m) then m.state else base, CallStep(m, m.pc.call, m.pc.callPhase, a))
  {
    if m.pc.callPhase.Lacking? || m.pc.callPhase.Ending? || m.pc.callPhase.Ended? {
      ConcludedCallTracks(maxTurns, base, m, a);
    }
  }

  lemma ModelTracks(maxTurns: nat, base: State, m: Machine, a: Answer)
    requires m.pc.InModel? && Tracks(maxTurns, base, m) && Fits(EffectOf(m), a)
    requires a.Thrown? ==> Handled(m.pc)
    ensures Tracks(maxTurns, base, ModelStep(m.state, m.pc.stepId, m.pc.modelPhase, a))
  {
    if m.pc.modelPhase.Closing? {
      var content := m.pc.modelPhase.content;
      assert Respond(m.state, content).messages == m.state.messages + [Message(Assistant, content)];
    }
  }

  /** Whatever a kernel is answered, it stays on top of the last checkpoint it saved or loaded. */
  lemma StepTracks(maxTurns: nat, base: State, m: Machine, a: Answer)
    requires Tracks(maxTurns, base, m)
    ensures Saves(m) ==> Follows(maxTurns, base, m.state)
    ensures Saves(m) && a.Ack? ==> Tracks(maxTurns, m.state, Step(maxTurns, m, a))
    ensures Saves(m) && !a.Ack? ==> Step(maxTurns, m, a).pc.Done? && !Step(maxTurns, m, a).pc.outcome.Paused?
    ensures !Saves(m) ==> Tracks(maxTurns, base, Step(maxTurns, m, a))
  {
    var got := Understood(EffectOf(m), a);
    if got.Thrown? && !Handled(m.pc) {
      if Saves(m) && m.pc.InCall? { CallTracks(maxTurns, base, m, Ack); }
    } else {
      match m.pc {
        case LoopHead =>
          if base.turn.Some? { NextCallTracks(maxTurns, base, m.resumption); }
        case InModel(_, _) => ModelTracks(maxTurns, base, m, got);
        case InCall(_, _) => CallTracks(maxTurns, base, m, got);
        case SaveCall => NextCallTracks(maxTurns, m.state, None);
        case _ =>
      }
    }
  }

  lemma ResumeTracks(maxTurns: nat, base: State, approval: Option<Approval>, openStepIds: Option<set<Id>>)
    ensures Tracks(maxTurns, base, Resume(base, approval, openStepIds))
  {}

  // ---- Every saved checkpoint -------------------------------------------------------------

  /** Each tool use of a response is answered once, in order, under its own id. */
  ghost predicate Replies(content: seq<Block>, answers: seq<Block>) {
    var uses := Uses(content);
    |answers| == |uses| &&
    forall k | 0 <= k < |answers| :: answers[k].ToolResult? && answers[k].toolUseId == uses[k].id
  }

  ghost predicate WellFormed(maxTurns: nat, prompt: string, s: State) {
    if s.turn.None? then s == Initial(prompt)
    else
      var t := s.turn.value;
      1 <= s.turns <= maxTurns && |s.messages| == 2 * s.turns &&
      s.messages[0] == Message(User, [Text(prompt)]) &&
      (forall i | 0 <= i < |s.messages| :: s.messages[i].role == if i % 2 == 0 then User else Assistant) &&
      (forall i | 2 <= i < |s.messages| && i % 2 == 0 :: Replies(s.messages[i - 1].content, s.messages[i].content)) &&
      t.toolUses == Uses(s.messages[|s.messages| - 1].content) && t.toolUses != [] &&
      |t.results| == t.index <= |t.toolUses| &&
      (forall k | 0 <= k < t.index :: t.results[k].ToolResult? && t.results[k].toolUseId == t.toolUses[k].id) &&
      (t.inFlight.Some? ==> t.index < |t.toolUses|)
  }

  lemma FollowsKeepsWellFormed(maxTurns: nat, prompt: string, base: State, s: State)
    requires WellFormed(maxTurns, prompt, base) && Follows(maxTurns, base, s)
    ensures WellFormed(maxTurns, prompt, s)
  {
    if AsksForTools(maxTurns, base, s) {
      var content := s.messages[|s.messages| - 1].content;
      var closed := CloseTurn(base);
      assert s.messages == closed.messages + [Message(Assistant, content)];
      if base.turn.Some? {
        var n := |base.messages|;
        assert closed.messages == base.messages + [Message(User, base.turn.value.results)];
        assert Replies(closed.messages[n - 1].content, closed.messages[n].content);
      }
    }
  }

  // ---- Positions --------------------------------------------------------------------------

  /** A tool-call position of the run: the model turn and the index of the tool use in it. */
  datatype Position = Position(turn: nat, index: nat)

  function At(s: State): Position {
    Position(s.turns, if s.turn.Some? then s.turn.value.index else 0)
  }

  ghost predicate AtOrAfter(p: Position, q: Position) {
    p.turn < q.turn || (p.turn == q.turn && p.index <= q.index)
  }

  /** A save stays at its position or moves on, and never changes the request of a recorded call. */
  lemma FollowsMovesOn(maxTurns: nat, base: State, s: State)
    requires Follows(maxTurns, base, s) && base.turn.Some?
    ensures s.turn.Some? && AtOrAfter(At(base), At(s))
    ensures At(s) == At(base) && base.turn.value.inFlight.Some? ==>
              s.turn.value.inFlight.Some? &&
              s.turn.value.inFlight.value.(approvalId := None) == base.turn.value.inFlight.value.(approvalId := None)
    ensures At(s) == At(base) ==> s.turn.value.inFlight.Some?
  {}
}
