/**
 One run, any number of hosts. A life is one host executing the run: it starts it or loads its
 latest checkpoint, and may crash at any await. Saves travel as messages that may be late,
 repeated or lost, their acknowledgements too. The durable store takes a save only under the version
 after its last; deleting is the control plane's business and does nothing here.
 `Run` folds any sequence of acts, so a fact about every `Run` is a fact about every history.
 */
module RunProtocol {
  import opened Wrappers
  import opened Kernel
  import opened Checkpoints

  datatype Saved = Saved(state: State, author: nat)
  datatype Life = Life(version: nat, machine: Machine)
  datatype Save = Save(author: nat, version: nat, state: State)

  /** A request sent to the control plane for the call at a position. */
  datatype Ask = Ask(position: Position, requestId: Id)

  datatype World = World(
    history: seq<Saved>,
    lives: seq<Option<Life>>,
    transit: set<Save>,
    asked: set<Ask>,
    drawn: set<Id>,
    open: set<Id>,
    ended: set<Id>)

  datatype Act =
    | Submit
    | Continue(approval: Option<Approval>, openStepIds: Option<set<Id>>)
    | Answer(life: nat, answer: Kernel.Answer)
    | EventLands(life: nat)
    | CloseStep(stepId: Id)
    | SendExecution(life: nat)
    | SendSave(life: nat)
    | Deliver(save: Save)
    | Acknowledge(life: nat)
    | RefuseSave(life: nat, error: Error)
    | Crash(life: nat)

  const Empty := World([], [], {}, {}, {}, {}, {})

  predicate Alive(w: World, l: nat) {
    l < |w.lives| && w.lives[l].Some?
  }

  /** The state a life is trying to save: at a checkpoint, or when the host records a pause. */
  predicate WantsSave(m: Machine) {
    Saves(m) || (m.pc.Done? && m.pc.outcome.Paused?)
  }

  function Put(w: World, l: nat, life: Option<Life>): World
    requires l < |w.lives|
  {
    w.(lives := w.lives[l := life])
  }

  /** The control plane's steps: started, then ended once. */
  function Land(w: World, e: Effect): World {
    match e
    case Emit(StepStarted, id) => if id in w.ended then w else w.(open := w.open + {id})
    case Emit(StepCompleted, id) => w.(open := w.open - {id}, ended := w.ended + {id})
    case Emit(StepFailed, id) => w.(open := w.open - {id}, ended := w.ended + {id})
    case _ => w
  }

  /** Identifiers are never drawn twice. */
  predicate Drawable(w: World, a: Kernel.Answer) {
    a.Ids? ==>
      a.stepId !in w.drawn && a.toolCallId !in w.drawn && a.requestId !in w.drawn &&
      a.stepId != a.toolCallId && a.stepId != a.requestId && a.toolCallId != a.requestId
  }

  function Drawing(w: World, a: Kernel.Answer): World {
    if a.Ids? then w.(drawn := w.drawn + {a.stepId, a.toolCallId, a.requestId}) else w
  }

  /** A decision is asked for when it is awaited; the answer may come later or never. */
  function Asking(w: World, m: Machine): World {
    if m.pc.InCall? && m.pc.callPhase.Asking?
    then w.(asked := w.asked + {Ask(At(m.state), m.pc.call.flight.requestId)})
    else w
  }

  predicate ExecutingGoverned(m: Machine) {
    m.pc.InCall? && m.pc.callPhase.Executing? && m.pc.callPhase.governed
  }

  function Apply(maxTurns: nat, prompt: string, w: World, act: Act): World {
    match act
    case Submit => w.(lives := w.lives + [Some(Life(0, Start(prompt)))])
    case Continue(approval, openStepIds) =>
      if w.history == [] then w
      else
        var latest := w.history[|w.history| - 1].state;
        w.(lives := w.lives + [Some(Life(|w.history|, Resume(latest, approval, openStepIds)))])
    case Answer(l, a) =>
      if !Alive(w, l) || WantsSave(w.lives[l].value.machine) || !Drawable(w, a) then w
      else
        var life := w.lives[l].value;
        var landed := if a.Ack? then Land(w, EffectOf(life.machine)) else w;
        var next := Step(maxTurns, life.machine, a);
        Put(Asking(Drawing(landed, a), next), l, Some(life.(machine := next)))
    case EventLands(l) =>
      if Alive(w, l) then Land(w, EffectOf(w.lives[l].value.machine)) else w
    // A host that takes over reports steps left open as failed.
    case CloseStep(id) => Land(w, Emit(StepFailed, id))
    case SendExecution(l) =>
      if Alive(w, l) && ExecutingGoverned(w.lives[l].value.machine) then
        var m := w.lives[l].value.machine;
        w.(asked := w.asked + {Ask(At(m.state), m.pc.call.flight.requestId)})
      else w
    case SendSave(l) =>
      if Alive(w, l) && WantsSave(w.lives[l].value.machine) then
        w.(transit := w.transit + {Save(l, w.lives[l].value.version + 1, w.lives[l].value.machine.state)})
      else w
    case Deliver(save) =>
      if save in w.transit && save.version == |w.history| + 1
      then w.(history := w.history + [Saved(save.state, save.author)])
      else w
    case Acknowledge(l) =>
      if !Alive(w, l) || !WantsSave(w.lives[l].value.machine) then w
      else
        var life := w.lives[l].value;
        if life.version < |w.history| && w.history[life.version] == Saved(life.machine.state, l)
        then
          if life.machine.pc.Done? then Put(w, l, None)
          else
            var next := Step(maxTurns, life.machine, Ack);
            Put(Asking(w, next), l, Some(Life(life.version + 1, next)))
        else w
    case RefuseSave(l, error) =>
      if !Alive(w, l) || !WantsSave(w.lives[l].value.machine) then w
      else Put(w, l, Some(w.lives[l].value.(machine := Step(maxTurns, w.lives[l].value.machine, Thrown(error)))))
    case Crash(l) => if l < |w.lives| then Put(w, l, None) else w
  }

  function Run(maxTurns: nat, prompt: string, acts: seq<Act>): World {
    if acts == [] then Empty
    else Apply(maxTurns, prompt, Run(maxTurns, prompt, acts[..|acts| - 1]), acts[|acts| - 1])
  }

  // ---- What every history keeps -----------------------------------------------------------

  /** A life that never saved: it has only its task prompt. */
  ghost predicate AtStart(prompt: string, m: Machine) {
    m.state == Initial(prompt) && (m.pc.SaveStart? || (m.pc.Done? && !m.pc.outcome.Paused?))
  }

  ghost predicate Chained(maxTurns: nat, prompt: string, history: seq<Saved>) {
    (history != [] ==> history[0].state == Initial(prompt)) &&
    forall k | 1 <= k < |history| :: Follows(maxTurns, history[k - 1].state, history[k].state)
  }

  ghost predicate OnTop(maxTurns: nat, prompt: string, history: seq<Saved>, life: Life) {
    life.version <= |history| &&
    if life.version == 0 then AtStart(prompt, life.machine)
    else Tracks(maxTurns, history[life.version - 1].state, life.machine)
  }

  ghost predicate Extends(maxTurns: nat, prompt: string, history: seq<Saved>, save: Save) {
    1 <= save.version <= |history| + 1 &&
    if save.version == 1 then save.state == Initial(prompt)
    else Follows(maxTurns, history[save.version - 2].state, save.state)
  }

  ghost predicate RecordedAt(history: seq<Saved>, ask: Ask, k: nat) {
    k < |history| && history[k].state.turn.Some? && At(history[k].state) == ask.position &&
    history[k].state.turn.value.inFlight.Some? &&
    history[k].state.turn.value.inFlight.value.requestId == ask.requestId
  }

  ghost predicate Durable(history: seq<Saved>, ask: Ask) {
    exists k: nat :: RecordedAt(history, ask, k)
  }

  ghost predicate Inv(maxTurns: nat, prompt: string, w: World) {
    Chained(maxTurns, prompt, w.history) &&
    (forall l | 0 <= l < |w.lives| && w.lives[l].Some? :: OnTop(maxTurns, prompt, w.history, w.lives[l].value)) &&
    (forall save | save in w.transit :: Extends(maxTurns, prompt, w.history, save)) &&
    (forall ask | ask in w.asked :: Durable(w.history, ask))
  }

  /** A call is asked about only from a position its checkpoint records. */
  lemma AskIsDurable(maxTurns: nat, prompt: string, history: seq<Saved>, life: Life)
    requires OnTop(maxTurns, prompt, history, life)
    requires life.machine.pc.InCall?
    requires life.machine.pc.callPhase.Asking? || life.machine.pc.callPhase.Executing?
    ensures Durable(history, Ask(At(life.machine.state), life.machine.pc.call.flight.requestId))
  {
    assert RecordedAt(history, Ask(At(life.machine.state), life.machine.pc.call.flight.requestId), life.version - 1);
  }

  lemma InstallKeeps(maxTurns: nat, prompt: string, w: World, l: nat, life: Life)
    requires Inv(maxTurns, prompt, w) && OnTop(maxTurns, prompt, w.history, life) && l < |w.lives|
    ensures Inv(maxTurns, prompt, Put(Asking(w, life.machine), l, Some(life)))
  {
    if life.machine.pc.InCall? && life.machine.pc.callPhase.Asking? {
      AskIsDurable(maxTurns, prompt, w.history, life);
    }
  }

  lemma StepStaysOnTop(maxTurns: nat, prompt: string, history: seq<Saved>, life: Life, a: Kernel.Answer)
    requires OnTop(maxTurns, prompt, history, life)
    requires !a.Ack? || !Saves(life.machine)
    ensures OnTop(maxTurns, prompt, history, life.(machine := Step(maxTurns, life.machine, a)))
  {
    if life.version > 0 { StepTracks(maxTurns, history[life.version - 1].state, life.machine, a); }
  }

  lemma AnswerKeeps(maxTurns: nat, prompt: string, w: World, l: nat, a: Kernel.Answer)
    requires Inv(maxTurns, prompt, w)
    ensures Inv(maxTurns, prompt, Apply(maxTurns, prompt, w, Answer(l, a)))
  {
    if Alive(w, l) && !WantsSave(w.lives[l].value.machine) && Drawable(w, a) {
      var life := w.lives[l].value;
      StepStaysOnTop(maxTurns, prompt, w.history, life, a);
      var landed := Drawing(if a.Ack? then Land(w, EffectOf(life.machine)) else w, a);
      assert Inv(maxTurns, prompt, landed);
      InstallKeeps(maxTurns, prompt, landed, l, life.(machine := Step(maxTurns, life.machine, a)));
    }
  }

  lemma SendKeeps(maxTurns: nat, prompt: string, w: World, l: nat)
    requires Inv(maxTurns, prompt, w) && Alive(w, l) && WantsSave(w.lives[l].value.machine)
    ensures Extends(maxTurns, prompt, w.history,
                    Save(l, w.lives[l].value.version + 1, w.lives[l].value.machine.state))
  {
    var life := w.lives[l].value;
    if life.version > 0 { StepTracks(maxTurns, w.history[life.version - 1].state, life.machine, Ack); }
  }

  lemma AcknowledgeKeeps(maxTurns: nat, prompt: string, w: World, l: nat)
    requires Inv(maxTurns, prompt, w)
    ensures Inv(maxTurns, prompt, Apply(maxTurns, prompt, w, Acknowledge(l)))
  {
    if Alive(w, l) && WantsSave(w.lives[l].value.machine) {
      var life := w.lives[l].value;
      if life.version < |w.history| && w.history[life.version] == Saved(life.machine.state, l) && Saves(life.machine) {
        if life.version > 0 { StepTracks(maxTurns, w.history[life.version - 1].state, life.machine, Ack); }
        InstallKeeps(maxTurns, prompt, w, l, Life(life.version + 1, Step(maxTurns, life.machine, Ack)));
      }
    }
  }

  lemma DeliverKeeps(maxTurns: nat, prompt: string, w: World, save: Save)
    requires Inv(maxTurns, prompt, w) && save in w.transit && save.version == |w.history| + 1
    ensures Inv(maxTurns, prompt, w.(history := w.history + [Saved(save.state, save.author)]))
  {
    var longer := w.history + [Saved(save.state, save.author)];
    forall ask | ask in w.asked
      ensures Durable(longer, ask)
    {
      var k: nat :| RecordedAt(w.history, ask, k);
      assert RecordedAt(longer, ask, k);
    }
  }

  lemma ApplyKeeps(maxTurns: nat, prompt: string, w: World, act: Act)
    requires Inv(maxTurns, prompt, w)
    ensures Inv(maxTurns, prompt, Apply(maxTurns, prompt, w, act))
  {
    match act {
      case Answer(l, a) => AnswerKeeps(maxTurns, prompt, w, l, a);
      case Continue(approval, openStepIds) =>
        if w.history != [] { ResumeTracks(maxTurns, w.history[|w.history| - 1].state, approval, openStepIds); }
      case SendExecution(l) =>
        if Alive(w, l) && ExecutingGoverned(w.lives[l].value.machine) {
          AskIsDurable(maxTurns, prompt, w.history, w.lives[l].value);
        }
      case Deliver(save) =>
        if save in w.transit && save.version == |w.history| + 1 { DeliverKeeps(maxTurns, prompt, w, save); }
      case SendSave(l) =>
        if Alive(w, l) && WantsSave(w.lives[l].value.machine) { SendKeeps(maxTurns, prompt, w, l); }
      case Acknowledge(l) => AcknowledgeKeeps(maxTurns, prompt, w, l);
      case RefuseSave(l, error) =>
        if Alive(w, l) && WantsSave(w.lives[l].value.machine) {
          StepStaysOnTop(maxTurns, prompt, w.history, w.lives[l].value, Thrown(error));
        }
      case _ =>
    }
  }

  lemma {:induction false} EveryRunKeeps(maxTurns: nat, prompt: string, acts: seq<Act>)
    ensures Inv(maxTurns, prompt, Run(maxTurns, prompt, acts))
  {
    if acts != [] {
      EveryRunKeeps(maxTurns, prompt, acts[..|acts| - 1]);
      ApplyKeeps(maxTurns, prompt, Run(maxTurns, prompt, acts[..|acts| - 1]), acts[|acts| - 1]);
    }
  }

  // ---- The theorems -----------------------------------------------------------------------

  /** Along the history positions only move on, and a recorded call keeps its request. */
  lemma {:induction false} RecordedCallsAgree(maxTurns: nat, prompt: string, history: seq<Saved>, i: nat, j: nat)
    requires Chained(maxTurns, prompt, history) && i <= j < |history| && history[i].state.turn.Some?
    ensures history[j].state.turn.Some? && AtOrAfter(At(history[i].state), At(history[j].state))
    ensures At(history[i].state) == At(history[j].state) && history[i].state.turn.value.inFlight.Some? ==>
              history[j].state.turn.value.inFlight.Some? &&
              history[j].state.turn.value.inFlight.value.requestId == history[i].state.turn.value.inFlight.value.requestId
    decreases j
  {
    if i < j {
      RecordedCallsAgree(maxTurns, prompt, history, i, j - 1);
      FollowsMovesOn(maxTurns, history[j - 1].state, history[j].state);
    }
  }

  /**
   With any number of hosts, any interleaving, any crashes and any lost or late message, at most
   one request id is ever sent for a tool-call position.
   */
  lemma OneRequestPerPosition(maxTurns: nat, prompt: string, acts: seq<Act>, a: Ask, b: Ask)
    requires a in Run(maxTurns, prompt, acts).asked && b in Run(maxTurns, prompt, acts).asked
    requires a.position == b.position
    ensures a.requestId == b.requestId
  {
    EveryRunKeeps(maxTurns, prompt, acts);
    var history := Run(maxTurns, prompt, acts).history;
    var i: nat :| RecordedAt(history, a, i);
    var j: nat :| RecordedAt(history, b, j);
    if i <= j {
      RecordedCallsAgree(maxTurns, prompt, history, i, j);
    } else {
      RecordedCallsAgree(maxTurns, prompt, history, j, i);
    }
  }

  /** Nothing is asked before the call is durably recorded under that very request. */
  lemma AskedIsRecorded(maxTurns: nat, prompt: string, acts: seq<Act>, ask: Ask)
    requires ask in Run(maxTurns, prompt, acts).asked
    ensures Durable(Run(maxTurns, prompt, acts).history, ask)
  {
    EveryRunKeeps(maxTurns, prompt, acts);
  }

  lemma {:induction false} ChainIsWellFormed(maxTurns: nat, prompt: string, history: seq<Saved>, k: nat)
    requires Chained(maxTurns, prompt, history) && k < |history|
    ensures WellFormed(maxTurns, prompt, history[k].state)
  {
    if k > 0 {
      ChainIsWellFormed(maxTurns, prompt, history, k - 1);
      FollowsKeepsWellFormed(maxTurns, prompt, history[k - 1].state, history[k].state);
    }
  }

  /** Every checkpoint ever saved, by any life, is well formed. */
  lemma EverySaveIsWellFormed(maxTurns: nat, prompt: string, acts: seq<Act>, k: nat)
    requires k < |Run(maxTurns, prompt, acts).history|
    ensures WellFormed(maxTurns, prompt, Run(maxTurns, prompt, acts).history[k].state)
  {
    EveryRunKeeps(maxTurns, prompt, acts);
    ChainIsWellFormed(maxTurns, prompt, Run(maxTurns, prompt, acts).history, k);
  }

  /** A version is saved once, by one life, for good. */
  lemma {:induction false} SavedVersionsStand(maxTurns: nat, prompt: string, acts: seq<Act>, n: nat)
    requires n <= |acts|
    ensures Run(maxTurns, prompt, acts[..n]).history <= Run(maxTurns, prompt, acts).history
    decreases |acts|
  {
    if n < |acts| {
      var before := acts[..|acts| - 1];
      assert acts[..n] == before[..n];
      SavedVersionsStand(maxTurns, prompt, before, n);
    } else {
      assert acts[..n] == acts;
    }
  }
}
