/**
 The host's side of a checkpoint: up to four attempts at the durable store, each of which may be
 late, unanswered or refused while other hosts work on the same run. Whatever happens, what the
 host does is a history of `RunProtocol`, so the protocol's theorems speak about real hosts.
 */
module RuntimeHost {
  import opened Wrappers
  import opened Kernel
  import opened RunProtocol

  /** What becomes of one attempt: answered, its answer lost, never arrived, or rejected for good. */
  datatype Fate = Answered | ReplyLost | RequestLost | Rejected

  /** One attempt, and what the rest of the world did before it arrived. */
  datatype Weather = Weather(others: seq<Act>, fate: Fate)

  datatype Ending = Kept | LeaseLost | Unavailable | Secret

  /** The error the kernel is thrown; a kept checkpoint throws none. */
  function ErrorOf(e: Ending): Error
    requires !e.Kept?
  {
    match e
    case LeaseLost => RuntimeFailure("RUNTIME_LEASE_LOST", "The run was taken over.")
    case Unavailable => RuntimeFailure("RUNTIME_CHECKPOINT_UNAVAILABLE", "The run state could not be saved.")
    case Secret => RuntimeFailure("RUNTIME_CHECKPOINT_SECRET", "The run state contains a credential and was not saved.")
  }

  const LAST_ATTEMPT := 3

  // ---- Longer histories -------------------------------------------------------------------

  function RunFrom(maxTurns: nat, prompt: string, w: World, acts: seq<Act>): World {
    if acts == [] then w
    else Apply(maxTurns, prompt, RunFrom(maxTurns, prompt, w, acts[..|acts| - 1]), acts[|acts| - 1])
  }

  lemma {:induction false} RunFromContinues(maxTurns: nat, prompt: string, w: World, a: seq<Act>, b: seq<Act>)
    ensures RunFrom(maxTurns, prompt, w, a + b) == RunFrom(maxTurns, prompt, RunFrom(maxTurns, prompt, w, a), b)
  {
    if b == [] {
      assert a + b == a;
    } else {
      RunFromContinues(maxTurns, prompt, w, a, b[..|b| - 1]);
      assert (a + b)[..|a + b| - 1] == a + b[..|b| - 1];
    }
  }

  lemma {:induction false} RunContinues(maxTurns: nat, prompt: string, before: seq<Act>, acts: seq<Act>)
    ensures RunFrom(maxTurns, prompt, Run(maxTurns, prompt, before), acts) == Run(maxTurns, prompt, before + acts)
  {
    if acts == [] {
      assert before + acts == before;
    } else {
      RunContinues(maxTurns, prompt, before, acts[..|acts| - 1]);
      assert (before + acts)[..|before + acts| - 1] == before + acts[..|acts| - 1];
    }
  }

  /** An act of some other life, or of the network. */
  predicate Elsewhere(l: nat, act: Act) {
    act.Submit? || act.Continue? || act.Deliver? || act.CloseStep? || act.life != l
  }

  ghost predicate AllElsewhere(l: nat, weather: nat -> Weather) {
    forall i: nat :: forall a | a in weather(i).others :: Elsewhere(l, a)
  }

  lemma {:induction false} ElsewhereLeaves(maxTurns: nat, prompt: string, w: World, l: nat, acts: seq<Act>)
    requires l < |w.lives| && forall a | a in acts :: Elsewhere(l, a)
    ensures var after := RunFrom(maxTurns, prompt, w, acts);
            l < |after.lives| && after.lives[l] == w.lives[l] && w.history <= after.history
  {
    if acts != [] {
      ElsewhereLeaves(maxTurns, prompt, w, l, acts[..|acts| - 1]);
      OneActElsewhere(maxTurns, prompt, RunFrom(maxTurns, prompt, w, acts[..|acts| - 1]), l, acts[|acts| - 1]);
    }
  }

  lemma OneActElsewhere(maxTurns: nat, prompt: string, w: World, l: nat, act: Act)
    requires l < |w.lives| && Elsewhere(l, act)
    ensures var after := Apply(maxTurns, prompt, w, act);
            l < |after.lives| && after.lives[l] == w.lives[l] && w.history <= after.history
  {}

  // ---- One checkpoint, as a function ------------------------------------------------------

  predicate Saving(w: World, l: nat) {
    Alive(w, l) && WantsSave(w.lives[l].value.machine)
  }

  function NextSave(w: World, l: nat): Save
    requires Alive(w, l)
  {
    Save(l, w.lives[l].value.version + 1, w.lives[l].value.machine.state)
  }

  /** The request arrives: stored if it is exactly the next version, else a conflict. */
  function Arrived(maxTurns: nat, prompt: string, w: World, l: nat): World
    requires Alive(w, l)
  {
    Apply(maxTurns, prompt, Apply(maxTurns, prompt, w, SendSave(l)), Deliver(NextSave(w, l)))
  }

  predicate IsNext(w: World, l: nat)
    requires Alive(w, l)
  {
    w.lives[l].value.version == |w.history|
  }

  function Refuse(maxTurns: nat, prompt: string, w: World, l: nat, e: Ending): World
    requires !e.Kept?
  {
    Apply(maxTurns, prompt, w, RefuseSave(l, ErrorOf(e)))
  }

  /** One attempt that finds the world at `w`: how it leaves it, and the ending if it is the last. */
  function Try(maxTurns: nat, prompt: string, w: World, l: nat, fate: Fate, last: bool): (World, Option<Ending>)
    requires Alive(w, l)
  {
    var arrived := if fate.Answered? || fate.ReplyLost? then Arrived(maxTurns, prompt, w, l)
                   else Apply(maxTurns, prompt, w, SendSave(l));
    if fate.Answered? && IsNext(w, l) then (Apply(maxTurns, prompt, arrived, Acknowledge(l)), Some(Kept))
    else if fate.Answered? then (Refuse(maxTurns, prompt, arrived, l, LeaseLost), Some(LeaseLost))
    else if fate.Rejected? || last then (Refuse(maxTurns, prompt, arrived, l, Unavailable), Some(Unavailable))
    else (arrived, None)
  }

  /** The host's attempts from the given one on, and how they end. */
  function Attempts(maxTurns: nat, prompt: string, w: World, l: nat, weather: nat -> Weather, attempt: nat): (World, Ending)
    decreases LAST_ATTEMPT + 1 - attempt
  {
    var there := RunFrom(maxTurns, prompt, w, weather(attempt).others);
    if !Saving(there, l) then (there, Unavailable)
    else
      var (next, ending) := Try(maxTurns, prompt, there, l, weather(attempt).fate, attempt >= LAST_ATTEMPT);
      if ending.Some? then (next, ending.value) else Attempts(maxTurns, prompt, next, l, weather, attempt + 1)
  }

  lemma ArrivalLeaves(maxTurns: nat, prompt: string, w: World, l: nat)
    requires Saving(w, l)
    ensures var arrived := Arrived(maxTurns, prompt, w, l);
            arrived.lives == w.lives &&
            arrived.history == if IsNext(w, l) then w.history + [Saved(w.lives[l].value.machine.state, l)] else w.history
  {}

  /** What the acts of one attempt are. */
  function Sent(w: World, l: nat, fate: Fate): seq<Act>
    requires Alive(w, l)
  {
    if fate.Answered? || fate.ReplyLost? then [SendSave(l), Deliver(NextSave(w, l))] else [SendSave(l)]
  }

  function Heard(w: World, l: nat, fate: Fate, last: bool): seq<Act>
    requires Alive(w, l)
  {
    if fate.Answered? && IsNext(w, l) then [Acknowledge(l)]
    else if fate.Answered? then [RefuseSave(l, ErrorOf(LeaseLost))]
    else if fate.Rejected? || last then [RefuseSave(l, ErrorOf(Unavailable))]
    else []
  }

  lemma OneAct(maxTurns: nat, prompt: string, w: World, act: Act)
    ensures RunFrom(maxTurns, prompt, w, [act]) == Apply(maxTurns, prompt, w, act)
  {
    assert [act][..0] == [];
  }

  lemma SentActs(maxTurns: nat, prompt: string, w: World, l: nat, fate: Fate)
    requires Alive(w, l)
    ensures RunFrom(maxTurns, prompt, w, Sent(w, l, fate)) ==
            if fate.Answered? || fate.ReplyLost? then Arrived(maxTurns, prompt, w, l)
            else Apply(maxTurns, prompt, w, SendSave(l))
  {
    OneAct(maxTurns, prompt, w, SendSave(l));
    assert Sent(w, l, fate)[..1] == [SendSave(l)];
  }

  lemma TryIsActs(maxTurns: nat, prompt: string, w: World, l: nat, fate: Fate, last: bool)
    requires Alive(w, l)
    ensures Try(maxTurns, prompt, w, l, fate, last).0 ==
            RunFrom(maxTurns, prompt, w, Sent(w, l, fate) + Heard(w, l, fate, last))
  {
    SentActs(maxTurns, prompt, w, l, fate);
    var sent, heard := Sent(w, l, fate), Heard(w, l, fate, last);
    RunFromContinues(maxTurns, prompt, w, sent, heard);
    if heard != [] { OneAct(maxTurns, prompt, RunFrom(maxTurns, prompt, w, sent), heard[0]); }
  }

  /** What the host does is a history of the protocol. */
  lemma {:induction false} AttemptsAreActs(maxTurns: nat, prompt: string, w: World, l: nat, weather: nat -> Weather, attempt: nat)
    returns (acts: seq<Act>)
    ensures Attempts(maxTurns, prompt, w, l, weather, attempt).0 == RunFrom(maxTurns, prompt, w, acts)
    decreases LAST_ATTEMPT + 1 - attempt
  {
    acts := weather(attempt).others;
    var there := RunFrom(maxTurns, prompt, w, acts);
    if Saving(there, l) {
      var fate, last := weather(attempt).fate, attempt >= LAST_ATTEMPT;
      var tried := Sent(there, l, fate) + Heard(there, l, fate, last);
      TryIsActs(maxTurns, prompt, there, l, fate, last);
      RunFromContinues(maxTurns, prompt, w, acts, tried);
      acts := acts + tried;
      if Try(maxTurns, prompt, there, l, fate, last).1.None? {
        var more := AttemptsAreActs(maxTurns, prompt, RunFrom(maxTurns, prompt, w, acts), l, weather, attempt + 1);
        RunFromContinues(maxTurns, prompt, w, acts, more);
        acts := acts + more;
      }
    }
  }

  /** A run on a host stays a run of the protocol, whatever happens to its checkpoints. */
  lemma HostsFollowTheProtocol(maxTurns: nat, prompt: string, before: seq<Act>, l: nat, weather: nat -> Weather)
    ensures exists acts ::
              Attempts(maxTurns, prompt, Run(maxTurns, prompt, before), l, weather, 0).0 == Run(maxTurns, prompt, acts)
  {
    var acts := AttemptsAreActs(maxTurns, prompt, Run(maxTurns, prompt, before), l, weather, 0);
    RunContinues(maxTurns, prompt, before, acts);
  }

  /**
   From `w` to `after` under an ending: a kept checkpoint is durable under exactly the next version
   and by this life; a lease is lost only when that version is taken; every other ending leaves the
   life on the version it had, ended by the error.
   */
  ghost predicate EndsTruly(maxTurns: nat, life: Life, l: nat, after: World, ending: Ending) {
    l < |after.lives| &&
    match ending
    case Kept =>
      life.version < |after.history| && after.history[life.version] == Saved(life.machine.state, l) &&
      after.lives[l] == if life.machine.pc.Done? then None
                        else Some(Life(life.version + 1, Step(maxTurns, life.machine, Ack)))
    case _ =>
      (ending.LeaseLost? ==> |after.history| != life.version) &&
      after.lives[l] == Some(life.(machine := Step(maxTurns, life.machine, Thrown(ErrorOf(ending)))))
  }

  lemma TryEndsTruly(maxTurns: nat, prompt: string, w: World, l: nat, fate: Fate, last: bool)
    requires Saving(w, l)
    ensures var (next, ending) := Try(maxTurns, prompt, w, l, fate, last);
            w.history <= next.history &&
            if ending.Some? then EndsTruly(maxTurns, w.lives[l].value, l, next, ending.value) else next.lives == w.lives
    ensures Try(maxTurns, prompt, w, l, fate, last).1.None? ==> !last
  {
    ArrivalLeaves(maxTurns, prompt, w, l);
  }

  lemma {:induction false} EndingsAreTrue(maxTurns: nat, prompt: string, w: World, l: nat, weather: nat -> Weather, attempt: nat)
    requires Saving(w, l) && AllElsewhere(l, weather)
    ensures var (after, ending) := Attempts(maxTurns, prompt, w, l, weather, attempt);
            w.history <= after.history && EndsTruly(maxTurns, w.lives[l].value, l, after, ending)
    decreases LAST_ATTEMPT + 1 - attempt
  {
    ElsewhereLeaves(maxTurns, prompt, w, l, weather(attempt).others);
    var there := RunFrom(maxTurns, prompt, w, weather(attempt).others);
    TryEndsTruly(maxTurns, prompt, there, l, weather(attempt).fate, attempt >= LAST_ATTEMPT);
    var (next, ending) := Try(maxTurns, prompt, there, l, weather(attempt).fate, attempt >= LAST_ATTEMPT);
    if ending.None? { EndingsAreTrue(maxTurns, prompt, next, l, weather, attempt + 1); }
  }

  /**
   For instance: a save whose answer is lost is not retried into a second version: the retry conflicts with the
   save itself, and the host stops although its state is durable. The run goes on from there.
   */
  lemma LostReplyStopsTheHost(maxTurns: nat, prompt: string, w: World, l: nat, weather: nat -> Weather)
    requires Saving(w, l) && IsNext(w, l)
    requires weather(0) == Weather([], ReplyLost) && weather(1) == Weather([], Answered)
    ensures var (after, ending) := Attempts(maxTurns, prompt, w, l, weather, 0);
            ending.LeaseLost? && after.history == w.history + [Saved(w.lives[l].value.machine.state, l)]
  {
    var arrived := Arrived(maxTurns, prompt, w, l);
    ArrivalLeaves(maxTurns, prompt, w, l);
    ArrivalLeaves(maxTurns, prompt, arrived, l);
    assert Try(maxTurns, prompt, w, l, ReplyLost, false) == (arrived, None);
    assert Try(maxTurns, prompt, arrived, l, Answered, false).1 == Some(LeaseLost);
    assert Attempts(maxTurns, prompt, arrived, l, weather, 1).1.LeaseLost?;
  }

  /** A life whose checkpoint is not kept has failed, and says which way; a paused one was over already. */
  lemma UnkeptLivesFail(maxTurns: nat, prompt: string, w: World, l: nat, weather: nat -> Weather)
    requires Saving(w, l) && AllElsewhere(l, weather) && !Attempts(maxTurns, prompt, w, l, weather, 0).1.Kept?
    ensures var (after, ending) := Attempts(maxTurns, prompt, w, l, weather, 0);
            Alive(after, l) && after.lives[l].value.version == w.lives[l].value.version &&
            if w.lives[l].value.machine.pc.Done? then after.lives[l] == w.lives[l]
            else after.lives[l].value.machine.state == w.lives[l].value.machine.state &&
                 after.lives[l].value.machine.pc == Done(Failed(match ending
                                                                case LeaseLost => "RUNTIME_LEASE_LOST"
                                                                case Secret => "RUNTIME_CHECKPOINT_SECRET"
                                                                case _ => "RUNTIME_CHECKPOINT_UNAVAILABLE"))
  {
    EndingsAreTrue(maxTurns, prompt, w, l, weather, 0);
  }

  // ---- Given up although durable ----------------------------------------------------------

  /** The state the life wanted saved is the next version after its own, saved by itself. */
  predicate Durable(w: World, l: nat, life: Life) {
    life.version < |w.history| && w.history[life.version] == Saved(life.machine.state, l)
  }

  predicate Lands(w: World, save: Save) {
    save in w.transit && save.version == |w.history| + 1
  }

  /** While others act, an earlier request of the life, given up for lost, arrives as the next version. */
  ghost predicate ArrivesLate(maxTurns: nat, prompt: string, w: World, acts: seq<Act>, save: Save) {
    exists i :: 0 <= i < |acts| && acts[i] == Deliver(save) && Lands(RunFrom(maxTurns, prompt, w, acts[..i]), save)
  }

  /** Some attempt's request arrives as the next version, at once or late, and the host does not hear of it. */
  ghost predicate Unheard(maxTurns: nat, prompt: string, w: World, l: nat, weather: nat -> Weather, attempt: nat)
    requires Alive(w, l)
    decreases LAST_ATTEMPT + 1 - attempt
  {
    var there, fate := RunFrom(maxTurns, prompt, w, weather(attempt).others), weather(attempt).fate;
    ArrivesLate(maxTurns, prompt, w, weather(attempt).others, NextSave(w, l)) ||
    (Saving(there, l) &&
     ((fate.ReplyLost? && IsNext(there, l)) ||
      (!fate.Answered? && !fate.Rejected? && attempt < LAST_ATTEMPT &&
       var next := Try(maxTurns, prompt, there, l, fate, false).0;
       Alive(next, l) && Unheard(maxTurns, prompt, next, l, weather, attempt + 1))))
  }

  lemma {:induction false} OthersMakeItDurable(maxTurns: nat, prompt: string, w: World, l: nat, acts: seq<Act>)
    requires Alive(w, l) && !Durable(w, l, w.lives[l].value) && forall a | a in acts :: Elsewhere(l, a)
    ensures Durable(RunFrom(maxTurns, prompt, w, acts), l, w.lives[l].value) <==>
            ArrivesLate(maxTurns, prompt, w, acts, NextSave(w, l))
  {
    if acts != [] {
      var before, act, save := acts[..|acts| - 1], acts[|acts| - 1], NextSave(w, l);
      var there := RunFrom(maxTurns, prompt, w, before);
      OthersMakeItDurable(maxTurns, prompt, w, l, before);
      LateBefore(maxTurns, prompt, w, acts, save);
      ActMakesItDurable(maxTurns, prompt, there, l, w.lives[l].value, act);
    }
  }

  lemma LateBefore(maxTurns: nat, prompt: string, w: World, acts: seq<Act>, save: Save)
    requires acts != []
    ensures var before, act := acts[..|acts| - 1], acts[|acts| - 1];
            ArrivesLate(maxTurns, prompt, w, acts, save) <==>
            ArrivesLate(maxTurns, prompt, w, before, save) ||
            (act == Deliver(save) && Lands(RunFrom(maxTurns, prompt, w, before), save))
  {
    var before := acts[..|acts| - 1];
    forall i | 0 <= i < |before| ensures before[..i] == acts[..i] {}
    if i :| 0 <= i < |before| && before[i] == Deliver(save) && Lands(RunFrom(maxTurns, prompt, w, before[..i]), save) {
      assert acts[i] == Deliver(save) && before[..i] == acts[..i];
    }
  }

  lemma ActMakesItDurable(maxTurns: nat, prompt: string, w: World, l: nat, life: Life, act: Act)
    ensures Durable(Apply(maxTurns, prompt, w, act), l, life) <==>
            Durable(w, l, life) || (act == Deliver(Save(l, life.version + 1, life.machine.state)) && Lands(w, act.save))
  {}

  /** Once it is durable no attempt is answered with success: the version is taken, by the host's own save. */
  lemma {:induction false} DurableIsNotKept(maxTurns: nat, prompt: string, w: World, l: nat, weather: nat -> Weather, attempt: nat)
    requires Saving(w, l) && AllElsewhere(l, weather)
    requires Durable(RunFrom(maxTurns, prompt, w, weather(attempt).others), l, w.lives[l].value)
    ensures var (after, ending) := Attempts(maxTurns, prompt, w, l, weather, attempt);
            !ending.Kept? && Durable(after, l, w.lives[l].value)
    decreases LAST_ATTEMPT + 1 - attempt
  {
    ElsewhereLeaves(maxTurns, prompt, w, l, weather(attempt).others);
    var there := RunFrom(maxTurns, prompt, w, weather(attempt).others);
    var fate, last := weather(attempt).fate, attempt >= LAST_ATTEMPT;
    TryEndsTruly(maxTurns, prompt, there, l, fate, last);
    ArrivalLeaves(maxTurns, prompt, there, l);
    var (next, ending) := Try(maxTurns, prompt, there, l, fate, last);
    if ending.None? {
      ElsewhereLeaves(maxTurns, prompt, next, l, weather(attempt + 1).others);
      DurableIsNotKept(maxTurns, prompt, next, l, weather, attempt + 1);
    }
  }

  /**
   A host gives a run up although the very state it was saving is durable, as its own, exactly if some
   request of its arrived as the next version and the answer did not reach it. Nothing else does it.
   */
  lemma {:induction false} GivenUpThoughDurable(maxTurns: nat, prompt: string, w: World, l: nat, weather: nat -> Weather, attempt: nat)
    requires Saving(w, l) && AllElsewhere(l, weather) && !Durable(w, l, w.lives[l].value)
    ensures var (after, ending) := Attempts(maxTurns, prompt, w, l, weather, attempt);
            !ending.Kept? && Durable(after, l, w.lives[l].value) <==> Unheard(maxTurns, prompt, w, l, weather, attempt)
    decreases LAST_ATTEMPT + 1 - attempt
  {
    var life, there := w.lives[l].value, RunFrom(maxTurns, prompt, w, weather(attempt).others);
    ElsewhereLeaves(maxTurns, prompt, w, l, weather(attempt).others);
    OthersMakeItDurable(maxTurns, prompt, w, l, weather(attempt).others);
    if Durable(there, l, life) {
      DurableIsNotKept(maxTurns, prompt, w, l, weather, attempt);
    } else {
      var fate, last := weather(attempt).fate, attempt >= LAST_ATTEMPT;
      TryMakesItDurable(maxTurns, prompt, there, l, fate, last);
      var (next, ending) := Try(maxTurns, prompt, there, l, fate, last);
      if ending.None? {
        TryEndsTruly(maxTurns, prompt, there, l, fate, last);
        assert Try(maxTurns, prompt, there, l, fate, false) == (next, None);
        if Durable(next, l, life) {
          ElsewhereLeaves(maxTurns, prompt, next, l, weather(attempt + 1).others);
          DurableIsNotKept(maxTurns, prompt, next, l, weather, attempt + 1);
        } else {
          GivenUpThoughDurable(maxTurns, prompt, next, l, weather, attempt + 1);
        }
      }
    }
  }

  lemma TryMakesItDurable(maxTurns: nat, prompt: string, w: World, l: nat, fate: Fate, last: bool)
    requires Saving(w, l) && !Durable(w, l, w.lives[l].value)
    ensures var (next, ending) := Try(maxTurns, prompt, w, l, fate, last);
            ending != Some(Kept) ==>
              (Durable(next, l, w.lives[l].value) <==> fate.ReplyLost? && IsNext(w, l)) &&
              (ending.None? <==> !fate.Answered? && !fate.Rejected? && !last)
  {
    ArrivalLeaves(maxTurns, prompt, w, l);
  }

  /** The first attempt that hears something, if one does. */
  function Decisive(weather: nat -> Weather, attempt: nat): Option<Fate>
    decreases LAST_ATTEMPT + 1 - attempt
  {
    var fate := weather(attempt).fate;
    if fate.Answered? || fate.Rejected? then Some(fate)
    else if attempt >= LAST_ATTEMPT then None
    else Decisive(weather, attempt + 1)
  }

  /** There are four attempts. */
  lemma FourAttempts(weather: nat -> Weather)
    ensures Decisive(weather, 0).None? <==>
            forall n: nat | n < 4 :: weather(n).fate.ReplyLost? || weather(n).fate.RequestLost?
    ensures forall n: nat | n < 4 && weather(n).fate.Answered? &&
              (forall k: nat | k < n :: weather(k).fate.ReplyLost? || weather(k).fate.RequestLost?) :: Decisive(weather, 0) == Some(Answered)
  {
    assert Decisive(weather, 3) == Decisive(weather, 3) && Decisive(weather, 2) == Decisive(weather, 2);
  }

  lemma TryDecides(maxTurns: nat, prompt: string, w: World, l: nat, fate: Fate, last: bool)
    requires Alive(w, l)
    ensures Try(maxTurns, prompt, w, l, fate, last).1 ==
            if fate.Answered? then Some(if IsNext(w, l) then Kept else LeaseLost)
            else if fate.Rejected? || last then Some(Unavailable) else None
  {}

  /** The first answer decides: a checkpoint is kept or the lease lost by it; without one it is unavailable. */
  lemma {:induction false} FirstAnswerDecides(maxTurns: nat, prompt: string, w: World, l: nat, weather: nat -> Weather, attempt: nat)
    requires Saving(w, l) && AllElsewhere(l, weather)
    ensures var ending := Attempts(maxTurns, prompt, w, l, weather, attempt).1;
            (ending.Kept? || ending.LeaseLost? <==> Decisive(weather, attempt) == Some(Answered)) &&
            (ending.Unavailable? <==> Decisive(weather, attempt) != Some(Answered))
    decreases LAST_ATTEMPT + 1 - attempt
  {
    ElsewhereLeaves(maxTurns, prompt, w, l, weather(attempt).others);
    var there, fate := RunFrom(maxTurns, prompt, w, weather(attempt).others), weather(attempt).fate;
    TryDecides(maxTurns, prompt, there, l, fate, attempt >= LAST_ATTEMPT);
    TryEndsTruly(maxTurns, prompt, there, l, fate, attempt >= LAST_ATTEMPT);
    if !fate.Answered? && !fate.Rejected? && attempt < LAST_ATTEMPT {
      FirstAnswerDecides(maxTurns, prompt, Try(maxTurns, prompt, there, l, fate, false).0, l, weather, attempt + 1);
    }
  }

  // ---- The host ---------------------------------------------------------------------------

  predicate Contains(body: string, secret: string) {
    secret <= body || (body != "" && Contains(body[1..], secret))
  }

  /** The control plane, and with it everything that happens to the run. */
  class ControlPlane {
    const maxTurns: nat
    const prompt: string
    var world: World

    constructor (maxTurns: nat, prompt: string)
      ensures this.maxTurns == maxTurns && this.prompt == prompt && world == Empty
    {
      this.maxTurns := maxTurns;
      this.prompt := prompt;
      world := Empty;
    }

    method Elsewhere(acts: seq<Act>)
      modifies this
      ensures world == RunFrom(maxTurns, prompt, old(world), acts)
    {
      var i := 0;
      while i < |acts|
        invariant 0 <= i <= |acts|
        invariant world == RunFrom(maxTurns, prompt, old(world), acts[..i])
      {
        world := Apply(maxTurns, prompt, world, acts[i]);
        i := i + 1;
        assert acts[..i][..i - 1] == acts[..i - 1];
      }
      assert acts[..|acts|] == acts;
    }

    /** Accepts exactly the next version; nothing saved is ever changed. */
    method SaveCheckpoint(author: nat, version: nat, state: State) returns (accepted: bool)
      requires Saving(world, author) && NextSave(world, author) == Save(author, version, state)
      modifies this
      ensures accepted <==> version == |old(world).history| + 1
      ensures world == Arrived(maxTurns, prompt, old(world), author)
    {
      world := world.(transit := world.transit + {Save(author, version, state)});
      accepted := version == |world.history| + 1;
      if accepted {
        world := world.(history := world.history + [Saved(state, author)]);
      }
    }
  }

  /** One run on one host: its life, the version it stands on and the credentials it resolved. */
  class RunFrame {
    const life: nat
    const controlPlane: ControlPlane
    var checkpointVersion: nat
    var secrets: set<string>
    var aborted: bool

    ghost predicate Valid()
      reads this, controlPlane
    {
      Alive(controlPlane.world, life) && controlPlane.world.lives[life].value.version == checkpointVersion
    }

    constructor (controlPlane: ControlPlane, life: nat, version: nat)
      requires Alive(controlPlane.world, life) && controlPlane.world.lives[life].value.version == version
      ensures Valid() && this.controlPlane == controlPlane && this.life == life
      ensures checkpointVersion == version && secrets == {} && !aborted
    {
      this.controlPlane := controlPlane;
      this.life := life;
      checkpointVersion := version;
      secrets := {};
      aborted := false;
    }

    /** The run's next checkpoint: refused if its body holds a credential, else attempted. */
    method Checkpoint(state: State, body: string, weather: nat -> Weather) returns (ending: Ending)
      requires Valid() && Saving(controlPlane.world, life) && AllElsewhere(life, weather)
      requires controlPlane.world.lives[life].value.machine.state == state
      modifies this, controlPlane
      ensures ending.Secret? <==> exists secret :: secret in old(secrets) && Contains(body, secret)
      ensures (controlPlane.world, ending) ==
              if ending.Secret?
              then (Refuse(controlPlane.maxTurns, controlPlane.prompt, old(controlPlane.world), life, Secret), Secret)
              else Attempts(controlPlane.maxTurns, controlPlane.prompt, old(controlPlane.world), life, weather, 0)
      ensures checkpointVersion == old(checkpointVersion) + (if ending.Kept? then 1 else 0)
      ensures aborted == (old(aborted) || ending.LeaseLost?)
      ensures secrets == old(secrets)
    {
      var cp := controlPlane;
      if exists secret | secret in secrets :: Contains(body, secret) {
        cp.world := Apply(cp.maxTurns, cp.prompt, cp.world, RefuseSave(life, ErrorOf(Secret)));
        return Secret;
      }
      ending := SaveNext(state, weather);
    }

    /** Up to four attempts at the next version. */
    method SaveNext(state: State, weather: nat -> Weather) returns (ending: Ending)
      requires Valid() && Saving(controlPlane.world, life) && AllElsewhere(life, weather)
      requires controlPlane.world.lives[life].value.machine.state == state
      modifies this`checkpointVersion, this`aborted, controlPlane
      ensures (controlPlane.world, ending) ==
              Attempts(controlPlane.maxTurns, controlPlane.prompt, old(controlPlane.world), life, weather, 0)
      ensures !ending.Secret?
      ensures checkpointVersion == old(checkpointVersion) + (if ending.Kept? then 1 else 0)
      ensures aborted == (old(aborted) || ending.LeaseLost?)
    {
      var cp := controlPlane;
      var version := checkpointVersion + 1;
      var attempt := 0;
      while true
        invariant 0 <= attempt <= LAST_ATTEMPT && version == checkpointVersion + 1
        invariant checkpointVersion == old(checkpointVersion) && aborted == old(aborted)
        invariant Valid() && Saving(cp.world, life) && cp.world.lives[life].value.machine.state == state
        invariant Attempts(cp.maxTurns, cp.prompt, cp.world, life, weather, attempt) ==
                  Attempts(cp.maxTurns, cp.prompt, old(controlPlane.world), life, weather, 0)
        decreases LAST_ATTEMPT - attempt
      {
        var ended := Attempt(state, version, weather(attempt), attempt >= LAST_ATTEMPT);
        if ended.Some? {
          return ended.value;
        }
        attempt := attempt + 1;
      }
    }

    method Attempt(state: State, version: nat, x: Weather, last: bool) returns (ending: Option<Ending>)
      requires Valid() && Saving(controlPlane.world, life) && forall a | a in x.others :: Elsewhere(life, a)
      requires NextSave(controlPlane.world, life) == Save(life, version, state)
      modifies this`checkpointVersion, this`aborted, controlPlane
      ensures var there := RunFrom(controlPlane.maxTurns, controlPlane.prompt, old(controlPlane.world), x.others);
              Saving(there, life) &&
              (controlPlane.world, ending) == Try(controlPlane.maxTurns, controlPlane.prompt, there, life, x.fate, last)
      ensures checkpointVersion == old(checkpointVersion) + (if ending == Some(Kept) then 1 else 0)
      ensures aborted == (old(aborted) || ending == Some(LeaseLost))
      ensures ending.None? ==> !last && Saving(controlPlane.world, life)
      ensures ending.None? ==> controlPlane.world.lives[life] == old(controlPlane.world).lives[life]
    {
      var cp, fate := controlPlane, x.fate;
      ElsewhereLeaves(cp.maxTurns, cp.prompt, cp.world, life, x.others);
      cp.Elsewhere(x.others);
      TryEndsTruly(cp.maxTurns, cp.prompt, cp.world, life, fate, last);
      ArrivalLeaves(cp.maxTurns, cp.prompt, cp.world, life);
      if fate.Answered? || fate.ReplyLost? {
        var accepted := cp.SaveCheckpoint(life, version, state);
        if fate.Answered? && accepted {
          checkpointVersion := version;
          cp.world := Apply(cp.maxTurns, cp.prompt, cp.world, Acknowledge(life));
          return Some(Kept);
        }
        if fate.Answered? {
          aborted := true;
          cp.world := Refuse(cp.maxTurns, cp.prompt, cp.world, life, LeaseLost);
          return Some(LeaseLost);
        }
      } else {
        cp.world := Apply(cp.maxTurns, cp.prompt, cp.world, SendSave(life));
      }
      if fate.Rejected? || last {
        cp.world := Refuse(cp.maxTurns, cp.prompt, cp.world, life, Unavailable);
        return Some(Unavailable);
      }
      return None;
    }
  }
}
