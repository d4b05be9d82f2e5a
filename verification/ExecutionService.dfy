/**
 The execution service as objects: the state store's tables, the in-memory busy set, one method per
 operation with its clean-up, and the recovery loops. Uninterrupted, `Execute` and `Recover` are histories
 of `ExecutionRuntime`, so what is proved of every history is proved of them; recovery ends in serving.
 */
module ExecutionService {
  import opened Wrappers
  import Model = ExecutionRuntime
  import opened ExecutionRuntime

  class StateStore {
    var grants: map<Id, GrantRow>
    var workspaces: map<Scope, Workspace>
    var pending: map<Id, Pending>

    function Tables(): Db
      reads this
    {
      Db(grants, workspaces, pending)
    }

    constructor (db: Db)
      ensures Tables() == db
    {
      grants, workspaces, pending := db.grants, db.workspaces, db.pending;
    }

    /** Claims the grant, or says how far it is; a claim is never given twice. */
    method ClaimGrant(g: Id) returns (before: Option<GrantRow>)
      modifies this`grants
      ensures before == if g in old(grants) then Some(old(grants)[g]) else None
      ensures grants == if g in old(grants) then old(grants) else old(grants)[g := Claimed(None)]
    {
      if g in grants { return Some(grants[g]); }
      grants := grants[g := Claimed(None)];
      return None;
    }

    method BindGrant(g: Id, requestId: Id, workspace: Id)
      modifies this`grants
      ensures Tables() == Model.BindGrant(old(Tables()), g, requestId, workspace)
    {
      if g in grants && grants[g].Claimed? { grants := grants[g := Claimed(Some(Binding(requestId, workspace)))]; }
    }

    method CompleteGrant(g: Id, response: Response)
      modifies this`grants
      ensures Tables() == Model.CompleteGrant(old(Tables()), g, response)
    {
      if g in grants && grants[g].Claimed? { grants := grants[g := Done(response)]; }
    }

    method ReleaseGrant(g: Id)
      modifies this`grants
      ensures Tables() == Model.ReleaseGrant(old(Tables()), g)
    {
      if g in grants && grants[g].Claimed? { grants := grants - {g}; }
    }

    method SetWorkspaceState(id: Id, state: WorkspaceState)
      modifies this`workspaces
      ensures Tables() == Model.SetState(old(Tables()), id, state)
    {
      var left := workspaces.Keys;
      ghost var before := Tables();
      while left != {}
        invariant left <= workspaces.Keys == before.workspaces.Keys
        invariant forall s | s in workspaces ::
          workspaces[s] == if s in left then before.workspaces[s] else Model.SetState(before, id, state).workspaces[s]
      {
        var s :| s in left;
        if workspaces[s].id == id { workspaces := workspaces[s := workspaces[s].(state := state)]; }
        left := left - {s};
      }
      assert workspaces == Model.SetState(before, id, state).workspaces;
    }

    method RecordPendingCredential(g: Id, row: Pending)
      modifies this`pending
      ensures Tables() == Model.RecordPending(old(Tables()), g, row)
    {
      if g !in pending { pending := pending[g := row]; }
    }

    method ClearPendingCredential(g: Id)
      modifies this`pending
      ensures Tables() == Model.ClearPending(old(Tables()), g)
    {
      pending := pending - {g};
    }
  }

  /** What the outside world does to one operation. */
  datatype Weather = Weather(
    freshId: Id, credentials: bool, contained: bool, lands: bool, redemption: Redemption, code: Option<string>,
    recreates: bool)

  datatype Answer = Answered(response: Response) | Refused(code: string) | Threw

  function AnswerOf(result: Option<Response>): Answer {
    if result.Some? then Answered(result.value) else Threw
  }

  function Play(w: World, acts: seq<Act>): World {
    if acts == [] then w else Apply(Play(w, acts[..|acts| - 1]), acts[|acts| - 1])
  }

  lemma PlayOne(w: World, acts: seq<Act>, act: Act)
    ensures Play(w, acts + [act]) == Apply(Play(w, acts), act)
  {
    assert (acts + [act])[..|acts|] == acts;
  }

  lemma {:induction false} PlayJoins(w: World, a: seq<Act>, b: seq<Act>)
    ensures Play(w, a + b) == Play(Play(w, a), b)
  {
    if b == [] {
      assert a + b == a;
    } else {
      PlayJoins(w, a, b[..|b| - 1]);
      assert (a + b)[..|a + b| - 1] == a + b[..|b| - 1];
    }
  }

  /** Played on from a history, it is a history. */
  lemma {:induction false} PlayedIsAHistory(before: seq<Act>, acts: seq<Act>)
    ensures Play(After(before), acts) == After(before + acts)
  {
    if acts == [] {
      assert before + acts == before;
    } else {
      PlayedIsAHistory(before, acts[..|acts| - 1]);
      assert (before + acts)[..|before + acts| - 1] == before + acts[..|acts| - 1];
    }
  }

  /** The scope's workspace was lost: marked so, or registered and its directory gone. */
  predicate LostIn(db: Db, directories: set<Id>, scope: Scope) {
    scope in db.workspaces && (db.workspaces[scope].state.Lost? || db.workspaces[scope].id !in directories)
  }

  function WorkspaceOf(db: Db, scope: Scope, freshId: Id): Id {
    if scope in db.workspaces then db.workspaces[scope].id else freshId
  }

  /** The provider is reached: the workspace is there, and so is the credential if the grant names one. */
  predicate Reaches(db: Db, directories: set<Id>, grant: Grant, x: Weather) {
    !LostIn(db, directories, grant.scope) &&
    (grant.lease.Some? ==> grant.checkout && x.credentials && x.contained && x.redemption.Granted?)
  }

  /** How the operation of a grant used for the first time is answered, in a workspace that is not lost. */
  predicate WorkAnswers(grant: Grant, ws: Id, x: Weather, answer: Answer) {
    if grant.lease.Some? && !grant.checkout then
      answer == Answered(Response(grant.requestId, ws, "CREDENTIAL_OPERATION_FORBIDDEN"))
    else if grant.lease.Some? && !x.credentials then
      answer == Answered(Response(grant.requestId, ws, "CREDENTIALS_UNAVAILABLE"))
    else if grant.lease.Some? && x.contained && x.redemption.RefusedBy? then
      answer == Answered(Response(grant.requestId, ws, "CREDENTIAL_REFUSED"))
    else if grant.lease.Some? && !(x.contained && x.redemption.Granted?) then answer == Threw
    else answer == if x.code.Some? then Answered(Response(grant.requestId, ws, x.code.value)) else Threw
  }

  /** The workspaces of these ids are ready again; the others are as they were. */
  function Reset(workspaces: map<Scope, Workspace>, ids: set<Id>): map<Scope, Workspace> {
    map s | s in workspaces :: if workspaces[s].id in ids then workspaces[s].(state := Ready) else workspaces[s]
  }

  /** How an operation leaves its scope's workspace: given up, or ready again once work on it was begun. */
  predicate LeavesWorkspace(db: Db, directories: set<Id>, grant: Grant, x: Weather, after: map<Scope, Workspace>) {
    var ws := WorkspaceOf(db, grant.scope, x.freshId);
    grant.scope in after && after[grant.scope].id == ws &&
    if LostIn(db, directories, grant.scope) then after[grant.scope].state.Lost?
    else if grant.lease.Some? && !(grant.checkout && x.credentials)
    then after[grant.scope].state == (if grant.scope in db.workspaces then db.workspaces[grant.scope].state else Ready)
    else after[grant.scope].state.Ready?
  }

  datatype Entry = Usable(workspace: Id) | Gone(response: Response)

  class Service {
    const state: StateStore
    var busy: set<Scope>
    var directories: set<Id>
    var known: set<Id>
    var runs: seq<ProviderRun>
    var redeemed: set<Id>
    var released: set<Id>
    var answers: set<(Id, Response)>
    /** Where the operations in progress are; in the program that is their place in the code. */
    ghost var ops: map<Id, Op>

    ghost function World(): World
      reads this, state
    {
      Model.World(state.Tables(), Serving, ops, busy, directories, known, runs, redeemed, released, answers)
    }

    constructor (state: StateStore, w: World)
      requires w.db == state.Tables() && w.ops == map[] && w.busy == {}
      ensures this.state == state && World() == w.(mode := Serving)
    {
      this.state := state;
      busy, directories, known, runs := {}, w.directories, w.known, w.runs;
      redeemed, released, answers := w.redeemed, w.released, w.answers;
      ops := map[];
    }

    /** The provider ran once more, for this grant and in this workspace, if it did at all. */
    predicate RanIf(before: seq<ProviderRun>, ran: bool, g: Id, ws: Id)
      reads this
    {
      if ran then |runs| == |before| + 1 && runs[..|before|] == before &&
                  runs[|before|].grantId == g && runs[|before|].workspace == ws
      else runs == before
    }

    /** The grant is used once, its operation runs, and its response is kept; the scope is free again. */
    method Execute(o: Id, grant: Grant, x: Weather) returns (answer: Answer, ghost acts: seq<Act>)
      requires o !in ops && x.freshId !in known
      modifies this, state
      ensures World() == Play(old(World()), acts)
      ensures old(grant.scope in busy) ==> answer == Refused("WORKSPACE_BUSY")
      ensures old(grant.scope !in busy && grant.grantId in state.grants) ==>
                answer == match old(state.grants[grant.grantId])
                          case Done(response) => Answered(response)
                          case Claimed(_) => Refused("GRANT_IN_USE")
      ensures answer.Answered? ==> grant.grantId in state.grants && state.grants[grant.grantId] == Done(answer.response)
      ensures answer.Threw? ==> grant.grantId in state.grants && state.grants[grant.grantId].Claimed?
      ensures busy == old(busy) && ops == old(ops)
      ensures old(grant.scope !in busy && grant.grantId !in state.grants) ==>
                var db, ws := old(state.Tables()), WorkspaceOf(old(state.Tables()), grant.scope, x.freshId);
                (if LostIn(db, old(directories), grant.scope)
                 then answer == Answered(Response(grant.requestId, ws, "WORKSPACE_LOST")) else WorkAnswers(grant, ws, x, answer)) &&
                RanIf(old(runs), Reaches(db, old(directories), grant, x), grant.grantId, ws) &&
                LeavesWorkspace(db, old(directories), grant, x, state.workspaces)
    {
      acts := [Admit(o, grant)];
      PlayOne(World(), [], Admit(o, grant));
      var settled := Claim(o, grant);
      if settled.Some? { return settled.value, acts; }
      ghost var more;
      answer, more := RunClaimed(o, grant, x);
      PlayJoins(old(World()), acts, more);
      acts := acts + more;
    }

    /** Busy first, then the grant: with nothing in between, so a refused request uses nothing up. */
    method Claim(o: Id, grant: Grant) returns (settled: Option<Answer>)
      requires o !in ops
      modifies this`busy, this`ops, this`answers, state`grants
      ensures World() == Apply(old(World()), Admit(o, grant))
      ensures settled.None? ==> Holds(o, grant, Admitted) && grant.scope !in old(busy) && grant.grantId !in old(state.grants)
      ensures settled.None? ==> busy == old(busy) + {grant.scope} && ops == old(ops)[o := Op(grant, Admitted)]
      ensures settled.Some? ==> busy == old(busy) && ops == old(ops) && state.grants == old(state.grants)
      ensures settled.None? <==> old(grant.scope !in busy && grant.grantId !in state.grants)
      ensures old(grant.scope in busy) ==> settled == Some(Refused("WORKSPACE_BUSY"))
      ensures old(grant.scope !in busy && grant.grantId in state.grants) ==>
                settled == Some(match old(state.grants[grant.grantId])
                                case Done(response) => Answered(response)
                                case Claimed(_) => Refused("GRANT_IN_USE"))
    {
      if grant.scope in busy { return Some(Refused("WORKSPACE_BUSY")); }
      var claim := state.ClaimGrant(grant.grantId);
      if claim.Some? {
        if claim.value.Claimed? { return Some(Refused("GRANT_IN_USE")); }
        answers := answers + {(grant.grantId, claim.value.response)};
        return Some(Answered(claim.value.response));
      }
      busy := busy + {grant.scope};
      ops := ops[o := Op(grant, Admitted)];
      return None;
    }

    /** The claimed grant's operation; its scope is freed however it ends. */
    method RunClaimed(o: Id, grant: Grant, x: Weather) returns (answer: Answer, ghost acts: seq<Act>)
      requires Holds(o, grant, Admitted) && x.freshId !in known
      modifies this, state
      ensures World() == Play(old(World()), acts) && !answer.Refused?
      ensures answer.Answered? ==> grant.grantId in state.grants && state.grants[grant.grantId] == Done(answer.response)
      ensures answer.Threw? ==> grant.grantId in state.grants && state.grants[grant.grantId].Claimed?
      ensures var db, ws := old(state.Tables()), WorkspaceOf(old(state.Tables()), grant.scope, x.freshId);
              (if LostIn(db, old(directories), grant.scope)
               then answer == Answered(Response(grant.requestId, ws, "WORKSPACE_LOST")) else WorkAnswers(grant, ws, x, answer)) &&
              RanIf(old(runs), Reaches(db, old(directories), grant, x), grant.grantId, ws) &&
              LeavesWorkspace(db, old(directories), grant, x, state.workspaces)
      ensures busy == old(busy) - {grant.scope} && ops == old(ops) - {o}
    {
      var result;
      result, acts := Run(o, grant, x);
      answer := Answering(o, grant, result);
      PlayOne(old(World()), acts, Complete(o));
      acts := acts + [Complete(o)];
    }

    method Answering(o: Id, grant: Grant, result: Option<Response>) returns (answer: Answer)
      requires Holds(o, grant, Finishing(result))
      modifies this`busy, this`ops, this`answers, state`grants
      ensures World() == Apply(old(World()), Complete(o))
      ensures answer == if result.Some? then Answered(result.value) else Threw
      ensures result.Some? ==> grant.grantId in state.grants && state.grants[grant.grantId] == Done(result.value)
      ensures result.None? ==> state.grants == old(state.grants)
      ensures busy == old(busy) - {grant.scope} && ops == old(ops) - {o}
    {
      if result.Some? {
        state.CompleteGrant(grant.grantId, result.value);
        answers := answers + {(grant.grantId, result.value)};
      }
      busy := busy - {grant.scope};
      ops := ops - {o};
      return if result.Some? then Answered(result.value) else Threw;
    }

    ghost predicate Holds(o: Id, grant: Grant, phase: Phase)
      reads this, state
    {
      o in ops && ops[o] == Op(grant, phase) &&
      grant.grantId in state.grants && state.grants[grant.grantId].Claimed?
    }

    method Run(o: Id, grant: Grant, x: Weather) returns (result: Option<Response>, ghost acts: seq<Act>)
      requires Holds(o, grant, Admitted) && x.freshId !in known
      modifies this`directories, this`known, this`runs, this`redeemed, this`released, this`ops, state
      ensures World() == Play(old(World()), acts) && Holds(o, grant, Finishing(result))
      ensures ops == old(ops)[o := Op(grant, Finishing(result))]
      ensures var db, ws := old(state.Tables()), WorkspaceOf(old(state.Tables()), grant.scope, x.freshId);
              (if LostIn(db, old(directories), grant.scope)
               then AnswerOf(result) == Answered(Response(grant.requestId, ws, "WORKSPACE_LOST")) else WorkAnswers(grant, ws, x, AnswerOf(result))) &&
              RanIf(old(runs), Reaches(db, old(directories), grant, x), grant.grantId, ws) &&
              LeavesWorkspace(db, old(directories), grant, x, state.workspaces)
    {
      ghost var w := World();
      var entry;
      entry, acts := Open(o, grant, x.freshId);
      if entry.Gone? { return Some(entry.response), acts; }
      ghost var more;
      result, more := RunOpened(o, grant, entry.workspace, x);
      PlayJoins(w, acts, more);
      acts := acts + more;
    }

    /** In its workspace: refused if its credential cannot be had, else bound and worked on. */
    method RunOpened(o: Id, grant: Grant, ws: Id, x: Weather) returns (result: Option<Response>, ghost acts: seq<Act>)
      requires Holds(o, grant, Opened(ws))
      modifies this`directories, this`runs, this`redeemed, this`released, this`ops, state
      ensures World() == Play(old(World()), acts) && Holds(o, grant, Finishing(result))
      ensures ops == old(ops)[o := Op(grant, Finishing(result))]
      ensures WorkAnswers(grant, ws, x, AnswerOf(result))
      ensures RanIf(old(runs), grant.lease.Some? ==> grant.checkout && x.credentials && x.contained && x.redemption.Granted?,
                    grant.grantId, ws)
      ensures state.workspaces == if grant.lease.Some? && !(grant.checkout && x.credentials) then old(state.workspaces)
                                  else Reset(old(state.workspaces), {ws})
    {
      ghost var w := World();
      PlayOne(w, [], Bind(o, x.credentials));
      acts := [Bind(o, x.credentials)];
      if grant.lease.Some? && (!grant.checkout || !x.credentials) {
        result := Some(Response(grant.requestId, ws,
                                if grant.checkout then "CREDENTIALS_UNAVAILABLE" else "CREDENTIAL_OPERATION_FORBIDDEN"));
        ops := ops[o := Op(grant, Finishing(result))];
        return;
      }
      state.BindGrant(grant.grantId, grant.requestId, ws);
      ops := ops[o := Op(grant, Bound(ws))];
      assert World() == Play(w, acts);
      ghost var more;
      result, more := Work(o, grant, ws, x);
      PlayJoins(w, acts, more);
      acts := acts + more;
    }

    /** The scope's workspace: refused if it was lost, created if there never was one. */
    method Open(o: Id, grant: Grant, freshId: Id) returns (entry: Entry, ghost acts: seq<Act>)
      requires Holds(o, grant, Admitted) && freshId !in known
      modifies this`directories, this`known, this`ops, state`workspaces
      ensures World() == Play(old(World()), acts)
      ensures Holds(o, grant, if entry.Usable? then Opened(entry.workspace) else Finishing(Some(entry.response)))
      ensures var ws := WorkspaceOf(old(state.Tables()), grant.scope, freshId);
              entry == if LostIn(old(state.Tables()), old(directories), grant.scope)
                       then Gone(Response(grant.requestId, ws, "WORKSPACE_LOST")) else Usable(ws)
      ensures var db, ws := old(state.Tables()), WorkspaceOf(old(state.Tables()), grant.scope, freshId);
              grant.scope in state.workspaces &&
              state.workspaces[grant.scope] ==
                if LostIn(db, old(directories), grant.scope) then Workspace(ws, Lost)
                else if grant.scope in db.workspaces then db.workspaces[grant.scope] else Workspace(ws, Ready)
      ensures ops == old(ops)[o := ops[o]]
    {
      acts := [OpenWorkspace(o, freshId)];
      PlayOne(World(), [], OpenWorkspace(o, freshId));
      if grant.scope in state.workspaces {
        var ws := state.workspaces[grant.scope];
        if ws.state == Lost || ws.id !in directories {
          // The workspace may have held work: it is given up, not made anew.
          state.SetWorkspaceState(ws.id, Lost);
          entry := Gone(Response(grant.requestId, ws.id, LOST));
          ops := ops[o := Op(grant, Finishing(Some(entry.response)))];
        } else {
          entry := Usable(ws.id);
          ops := ops[o := Op(grant, Opened(ws.id))];
        }
        return;
      }
      state.workspaces := state.workspaces[grant.scope := Workspace(freshId, Ready)];
      known := known + {freshId};
      ops := ops[o := Op(grant, Registered(freshId))];
      assert World() == Play(old(World()), acts);
      directories := directories + {freshId};
      ops := ops[o := Op(grant, Opened(freshId))];
      PlayOne(old(World()), acts, MakeDirectory(o));
      acts := acts + [MakeDirectory(o)];
      entry := Usable(freshId);
    }

    /** The bound operation and its clean-up, which runs whatever happened. */
    method Work(o: Id, grant: Grant, ws: Id, x: Weather) returns (result: Option<Response>, ghost acts: seq<Act>)
      requires Holds(o, grant, Bound(ws)) && (grant.lease.Some? ==> grant.checkout && x.credentials)
      modifies this`runs, this`directories, this`redeemed, this`released, this`ops, state`workspaces, state`pending
      ensures World() == Play(old(World()), acts) && Holds(o, grant, Finishing(result))
      ensures ops == old(ops)[o := Op(grant, Finishing(result))]
      ensures WorkAnswers(grant, ws, x, AnswerOf(result))
      ensures RanIf(old(runs), grant.lease.Some? ==> x.contained && x.redemption.Granted?, grant.grantId, ws)
      ensures state.workspaces == Reset(old(state.workspaces), {ws})
    {
      ghost var w := World();
      MarkInUse(o, grant, ws);
      PlayOne(w, [], Mark(o));
      ghost var first, second, third := [Mark(o)], [], [];
      result, second := Try(o, grant, ws, x);
      PlayJoins(w, first, second);
      third := Finally(o, grant, ws, result);
      PlayJoins(w, first + second, third);
      acts := first + second + third;
    }

    method MarkInUse(o: Id, grant: Grant, ws: Id)
      requires Holds(o, grant, Bound(ws))
      modifies this`ops, state`workspaces
      ensures World() == Apply(old(World()), Mark(o)) && Holds(o, grant, Marked(ws))
      ensures ops == old(ops)[o := Op(grant, Marked(ws))]
      ensures Reset(state.workspaces, {ws}) == Reset(old(state.workspaces), {ws})
    {
      UsedThenReset(state.Tables(), ws);
      state.SetWorkspaceState(ws, InUse);
      ops := ops[o := Op(grant, Marked(ws))];
    }

    method Try(o: Id, grant: Grant, ws: Id, x: Weather) returns (result: Option<Response>, ghost acts: seq<Act>)
      requires Holds(o, grant, Marked(ws)) && (grant.lease.Some? ==> grant.checkout && x.credentials)
      modifies this`runs, this`directories, this`redeemed, this`ops, state`pending
      ensures World() == Play(old(World()), acts) && Holds(o, grant, Unwinding(ws, result))
      ensures ops == old(ops)[o := Op(grant, Unwinding(ws, result))]
      ensures WorkAnswers(grant, ws, x, AnswerOf(result))
      ensures RanIf(old(runs), grant.lease.Some? ==> x.contained && x.redemption.Granted?, grant.grantId, ws)
    {
      ghost var w := World();
      acts := [];
      if grant.lease.Some? {
        var usable;
        usable, result, acts := Authenticate(o, grant, ws, x);
        if !usable { return; }
      }
      ghost var more;
      result, more := RunProvider(o, grant, ws, x);
      PlayJoins(w, acts, more);
      acts := acts + more;
    }

    method RunProvider(o: Id, grant: Grant, ws: Id, x: Weather)
      returns (result: Option<Response>, ghost acts: seq<Act>)
      requires exists phase :: Holds(o, grant, phase) && MayExecute(Op(grant, phase)) && phase.workspace == ws
      modifies this`runs, this`directories, this`ops
      ensures World() == Play(old(World()), acts) && Holds(o, grant, Unwinding(ws, result))
      ensures ops == old(ops)[o := Op(grant, Unwinding(ws, result))]
      ensures AnswerOf(result) == if x.code.Some? then Answered(Response(grant.requestId, ws, x.code.value)) else Threw
      ensures RanIf(old(runs), true, grant.grantId, ws)
    {
      ghost var w := World();
      runs := runs + [ProviderRun(grant.grantId, ws, ws in directories)];
      ops := ops[o := Op(grant, Executing(ws))];
      PlayOne(w, [], Model.Execute(o));
      acts := [Model.Execute(o)];
      assert World() == Play(w, acts);
      if x.recreates { directories := directories + {ws}; }
      result := if x.code.Some? then Some(Response(grant.requestId, ws, x.code.value)) else None;
      ops := ops[o := Op(grant, Unwinding(ws, result))];
      PlayOne(w, acts, Conclude(o, x.code, x.recreates));
      acts := acts + [Conclude(o, x.code, x.recreates)];
    }

    /** Records the lease, then redeems it; in between only the recovery would know of it. */
    method Authenticate(o: Id, grant: Grant, ws: Id, x: Weather)
      returns (usable: bool, result: Option<Response>, ghost acts: seq<Act>)
      requires Holds(o, grant, Marked(ws)) && grant.lease.Some?
      modifies this`redeemed, this`ops, state`pending
      ensures World() == Play(old(World()), acts)
      ensures Holds(o, grant, if usable then Redeemed(ws) else Unwinding(ws, result))
      ensures ops == old(ops)[o := ops[o]]
      ensures usable <==> x.contained && x.redemption.Granted?
      ensures !usable ==> AnswerOf(result) == if x.contained && x.redemption.RefusedBy?
                                              then Answered(Response(grant.requestId, ws, "CREDENTIAL_REFUSED")) else Threw
    {
      ghost var w := World();
      PlayOne(w, [], Record(o, x.contained));
      acts := [Record(o, x.contained)];
      usable, result := false, None;
      if !x.contained {
        ops := ops[o := Op(grant, Unwinding(ws, None))];
        return;
      }
      state.RecordPendingCredential(grant.grantId, Pending(grant.lease.value, grant.requestId, ws));
      ops := ops[o := Op(grant, Recorded(ws))];
      assert World() == Play(w, acts);
      ghost var more;
      usable, result, more := RedeemLease(o, grant, ws, x);
      PlayJoins(w, acts, more);
      acts := acts + more;
    }

    method RedeemLease(o: Id, grant: Grant, ws: Id, x: Weather)
      returns (usable: bool, result: Option<Response>, ghost acts: seq<Act>)
      requires Holds(o, grant, Recorded(ws))
      modifies this`redeemed, this`ops
      ensures World() == Play(old(World()), acts)
      ensures Holds(o, grant, if usable then Redeemed(ws) else Unwinding(ws, result))
      ensures ops == old(ops)[o := ops[o]]
      ensures usable <==> x.redemption.Granted?
      ensures !usable ==> AnswerOf(result) == if x.redemption.RefusedBy?
                                              then Answered(Response(grant.requestId, ws, "CREDENTIAL_REFUSED")) else Threw
    {
      PlayOne(World(), [], Redeem(o, x.lands, x.redemption));
      acts := [Redeem(o, x.lands, x.redemption)];
      usable, result := x.redemption.Granted?, None;
      if x.redemption.RefusedBy? { result := Some(Response(grant.requestId, ws, REFUSED)); }
      if x.redemption.Granted? || (x.redemption.Failed? && x.lands) { redeemed := redeemed + {grant.grantId}; }
      ops := ops[o := Op(grant, if usable then Redeemed(ws) else Unwinding(ws, result))];
    }

    method Release(o: Id, grant: Grant, ws: Id, result: Option<Response>) returns (ghost acts: seq<Act>)
      requires Holds(o, grant, Unwinding(ws, result)) && grant.lease.Some?
      modifies this`released, this`ops, state`pending
      ensures World() == Play(old(World()), acts) && Holds(o, grant, Cleared(ws, result))
      ensures ops == old(ops)[o := Op(grant, Cleared(ws, result))]
    {
      ghost var w := World();
      released := released + {grant.grantId};
      ops := ops[o := Op(grant, LeaseEnded(ws, result))];
      PlayOne(w, [], EndLease(o));
      acts := [EndLease(o)];
      assert World() == Play(w, acts);
      state.ClearPendingCredential(grant.grantId);
      ops := ops[o := Op(grant, Cleared(ws, result))];
      PlayOne(w, acts, Clear(o));
      acts := acts + [Clear(o)];
    }

    method Finally(o: Id, grant: Grant, ws: Id, result: Option<Response>) returns (ghost acts: seq<Act>)
      requires Holds(o, grant, Unwinding(ws, result))
      modifies this`released, this`ops, state`workspaces, state`pending
      ensures World() == Play(old(World()), acts) && Holds(o, grant, Finishing(result))
      ensures ops == old(ops)[o := Op(grant, Finishing(result))]
      ensures state.workspaces == Reset(old(state.workspaces), {ws})
    {
      ghost var w := World();
      acts := [];
      if grant.lease.Some? { acts := Release(o, grant, ws, result); }
      state.SetWorkspaceState(ws, Ready);
      ops := ops[o := Op(grant, Finishing(result))];
      PlayOne(w, acts, Settle(o));
      acts := acts + [Settle(o)];
    }
  }

  // ---- Recovery ---------------------------------------------------------------------------

  /** What a restart makes of the claims: bound or credentialed ones failed, untouched ones forgotten. */
  function Closed(db: Db, g: Id): Option<GrantRow>
    requires g in db.grants
  {
    match db.grants[g]
    case Done(_) => Some(db.grants[g])
    case Claimed(binding) =>
      if g in db.pending then Some(Done(Interrupted(db.pending[g].requestId, db.pending[g].workspace)))
      else if binding.Some? then Some(Done(Interrupted(binding.value.requestId, binding.value.workspace)))
      else None
  }

  function Recovered(db: Db): map<Id, GrantRow> {
    map g | g in db.grants && Closed(db, g).Some? :: Closed(db, g).value
  }

  function BoundClaims(m: map<Id, GrantRow>): set<Id> {
    set g | g in m && m[g].Claimed? && m[g].binding.Some?
  }

  /** The claims that fail besides the credentialed ones. */
  function Failing(db: Db): set<Id> {
    set g | g in db.grants && g !in db.pending && db.grants[g].Claimed? && db.grants[g].binding.Some?
  }

  /**
   Every checkout left open is discarded and its lease ended, then every other claim is closed. A process
   that was down at `w` has then played a history, and serves.
   */
  method Recover(state: StateStore, ghost w: World) returns (closed: nat, ghost acts: seq<Act>)
    requires w.mode.Down? && w.db == state.Tables()
    modifies state
    ensures Play(w, acts) == w.(db := state.Tables(), mode := Serving, released := w.released + old(state.pending).Keys)
    ensures state.pending == map[] && state.grants == Recovered(old(state.Tables()))
    ensures forall g | g in state.grants :: state.grants[g].Done?
    ensures state.workspaces == Reset(old(state.workspaces), Freed(old(state.grants), Failing(old(state.Tables()))))
    ensures closed == |old(state.pending)| + |Failing(old(state.Tables()))|
  {
    ghost var before := state.Tables();
    closed, acts := DiscardCheckouts(state, w);
    DiscardingFrees(before, state.Tables());
    var bound;
    ghost var more;
    bound, more := CloseClaims(state, before, Play(w, acts));
    PlayJoins(w, acts, more);
    acts := acts + more;
    closed := closed + bound;
  }

  /** What is left of the claims once the leases of the recorded checkouts have ended. */
  ghost predicate Discarded(before: Db, now: Db) {
    now.pending == map[] && now.grants.Keys == before.grants.Keys &&
    forall g | g in now.grants :: now.grants[g] ==
      if g in before.pending && before.grants[g].Claimed?
      then Done(Interrupted(before.pending[g].requestId, before.pending[g].workspace)) else before.grants[g]
  }

  method DiscardCheckouts(state: StateStore, ghost w: World) returns (closed: nat, ghost acts: seq<Act>)
    requires w.mode.Down? && w.db == state.Tables()
    modifies state`grants, state`pending
    ensures Play(w, acts) == w.(db := state.Tables(), mode := ClosingClaims, released := w.released + old(state.pending).Keys)
    ensures Discarded(old(state.Tables()), state.Tables()) && closed == |old(state.pending)|
  {
    PlayOne(w, [], Restart);
    acts := [Restart];
    ghost var more;
    closed, more := EndLeases(state, Play(w, acts));
    PlayJoins(w, acts, more);
    acts := acts + more;
    PlayOne(w, acts, LeasesEnded);
    acts := acts + [LeasesEnded];
  }

  method EndLeases(state: StateStore, ghost w: World) returns (closed: nat, ghost acts: seq<Act>)
    requires w.mode == EndingLeases(None, false) && w.db == state.Tables()
    modifies state`grants, state`pending
    ensures Play(w, acts) == w.(db := state.Tables(), released := w.released + old(state.pending).Keys)
    ensures Discarded(old(state.Tables()), state.Tables()) && closed == |old(state.pending)|
  {
    ghost var before := state.Tables();
    var left := state.pending.Keys;
    closed := |left|;
    acts := [];
    assert before.pending.Keys - left == {};
    while left != {}
      invariant LeasesLeft(before, left, state.Tables())
      invariant Play(w, acts) == Ending(w, before, left, state.Tables())
    {
      var g :| g in left;
      OneLeaseEnded(w, before, left, state.Tables(), g);
      ghost var more := EndLease(state, g, Play(w, acts));
      PlayJoins(w, acts, more);
      acts := acts + more;
      left := left - {g};
    }
    AllLeasesEnded(before, state.Tables());
  }

  function Ending(w: World, before: Db, left: set<Id>, db: Db): World {
    w.(db := db, released := w.released + (before.pending.Keys - left))
  }

  /** The leases still to be ended; the grants of the others are closed. */
  ghost predicate LeasesLeft(before: Db, left: set<Id>, now: Db) {
    left <= before.pending.Keys && now.pending.Keys == left && now.grants.Keys == before.grants.Keys &&
    (forall g | g in left :: now.pending[g] == before.pending[g]) &&
    forall g | g in now.grants :: now.grants[g] ==
      if g in before.pending && g !in left && before.grants[g].Claimed?
      then Done(Interrupted(before.pending[g].requestId, before.pending[g].workspace)) else before.grants[g]
  }

  lemma OneLeaseEnded(w: World, before: Db, left: set<Id>, now: Db, g: Id)
    requires LeasesLeft(before, left, now) && g in left
    ensures var row := now.pending[g];
            var next := ClearPending(CompleteGrant(now, g, Interrupted(row.requestId, row.workspace)), g);
            LeasesLeft(before, left - {g}, next) &&
            Ending(w, before, left, now).(db := next, released := Ending(w, before, left, now).released + {g}) ==
            Ending(w, before, left - {g}, next)
  {
    assert before.pending.Keys - (left - {g}) == before.pending.Keys - left + {g};
  }

  lemma AllLeasesEnded(before: Db, now: Db)
    requires LeasesLeft(before, {}, now)
    ensures Discarded(before, now) && |before.pending.Keys| == |before.pending|
    ensures before.pending.Keys - {} == before.pending.Keys
  {
    assert now.pending == map[];
  }

  /** The lease is released first, and forgotten only once its grant is closed. */
  method EndLease(state: StateStore, g: Id, ghost w: World) returns (ghost acts: seq<Act>)
    requires g in state.pending && w.mode == EndingLeases(None, false) && w.db == state.Tables()
    modifies state`grants, state`pending
    ensures Play(w, acts) == w.(db := state.Tables(), released := w.released + {g})
    ensures var row := old(state.pending)[g];
            state.Tables() == ClearPending(CompleteGrant(old(state.Tables()), g, Interrupted(row.requestId, row.workspace)), g)
  {
    acts := [RecoverLease(g)];
    PlayOne(w, [], RecoverLease(g));
    var row := state.pending[g];
    state.CompleteGrant(g, Interrupted(row.requestId, row.workspace));
    PlayOne(w, acts, RecoverCheckout(g));
    acts := acts + [RecoverCheckout(g)];
    state.ClearPendingCredential(g);
    PlayOne(w, acts, ForgetCheckout(g));
    acts := acts + [ForgetCheckout(g)];
  }

  function Cell(m: map<Id, GrantRow>, g: Id): Option<GrantRow> {
    if g in m then Some(m[g]) else None
  }

  /** The claims of the tables as they were, of which the leases have been ended. */
  method CloseClaims(state: StateStore, ghost before: Db, ghost w: World) returns (closed: nat, ghost acts: seq<Act>)
    requires w.mode.ClosingClaims? && w.db == state.Tables() && Discarded(before, w.db)
    modifies state`grants, state`workspaces
    ensures Play(w, acts) == w.(db := state.Tables(), mode := Serving)
    ensures state.pending == map[] && state.grants == Recovered(before)
    ensures forall g | g in state.grants :: state.grants[g].Done?
    ensures state.workspaces == Reset(old(state.workspaces), Freed(old(state.grants), Failing(before)))
    ensures closed == |Failing(before)|
  {
    ghost var start := state.grants;
    closed, acts := CloseOpen(state, w);
    AllClosed(before, start, state.grants);
    assert BoundClaims(start) == Failing(before);
    PlayOne(w, acts, Serve);
    acts := acts + [Serve];
  }

  /** The workspaces that claims were bound to. */
  function Freed(m: map<Id, GrantRow>, claims: set<Id>): set<Id> {
    set g | g in claims && g in m && m[g].Claimed? && m[g].binding.Some? :: m[g].binding.value.workspace
  }

  lemma DiscardingFrees(before: Db, now: Db)
    requires Discarded(before, now)
    ensures Freed(now.grants, Failing(before)) == Freed(before.grants, Failing(before))
  {}

  lemma UsedThenReset(db: Db, ws: Id)
    ensures Reset(SetState(db, ws, InUse).workspaces, {ws}) == Reset(db.workspaces, {ws})
  {}

  lemma ResetTwice(workspaces: map<Scope, Workspace>, a: set<Id>, b: set<Id>)
    ensures Reset(Reset(workspaces, a), b) == Reset(workspaces, a + b)
  {}

  lemma ResetNone(workspaces: map<Scope, Workspace>)
    ensures Reset(workspaces, {}) == workspaces
  {}

  lemma FreedOneMore(m: map<Id, GrantRow>, bound: set<Id>, left: set<Id>, g: Id)
    requires g in left && g in m && m[g].Claimed? && (g in bound <==> m[g].binding.Some?)
    ensures Freed(m, bound - (left - {g})) ==
            Freed(m, bound - left) + if m[g].binding.Some? then {m[g].binding.value.workspace} else {}
  {}

  /** Every claim in the table, one by one. */
  method CloseOpen(state: StateStore, ghost w: World) returns (closed: nat, ghost acts: seq<Act>)
    requires w.mode.ClosingClaims? && w.db == state.Tables()
    modifies state`grants, state`workspaces
    ensures Play(w, acts) == w.(db := state.Tables())
    ensures forall g :: Cell(state.grants, g) == AfterClosing(old(state.grants), g)
    ensures closed == |BoundClaims(old(state.grants))|
    ensures state.workspaces == Reset(old(state.workspaces), Freed(old(state.grants), BoundClaims(old(state.grants))))
  {
    ghost var places := state.workspaces;
    ResetNone(places);
    ghost var start := state.grants;
    var open := set g | g in state.grants && state.grants[g].Claimed?;
    ghost var bound := BoundClaims(start);
    var left := open;
    closed, acts := 0, [];
    assert bound - left == {} && Freed(start, {}) == {};
    while left != {}
      invariant state.workspaces == Reset(places, Freed(start, bound - left))
      invariant left <= open && closed == |bound - left|
      invariant ClosedBut(start, left, state.grants)
      invariant Play(w, acts) == w.(db := state.Tables())
    {
      var g :| g in left;
      ghost var was := state.grants;
      assert Cell(was, g) == Cell(start, g);
      var one := CloseOne(state, g, Play(w, acts));
      PlayOne(w, acts, RecoverClaim(g));
      acts := acts + [RecoverClaim(g)];
      OneMoreClosed(start, left, was, g, state.grants);
      CountOneMore(bound, left, g);
      FreedOneMore(start, bound, left, g);
      ResetTwice(places, Freed(start, bound - left), if one then {start[g].binding.value.workspace} else {});
      ResetNone(Reset(places, Freed(start, bound - left)));
      if one { closed := closed + 1; }
      left := left - {g};
    }
    assert bound - left == bound;
  }

  lemma CountOneMore(bound: set<Id>, left: set<Id>, one: Id)
    requires one in left
    ensures |bound - (left - {one})| == |bound - left| + if one in bound then 1 else 0
  {
    assert bound - (left - {one}) == bound - left + if one in bound then {one} else {};
  }

  ghost predicate ClosedBut(start: map<Id, GrantRow>, left: set<Id>, grants: map<Id, GrantRow>) {
    forall g :: Cell(grants, g) == if g in left then Cell(start, g) else AfterClosing(start, g)
  }

  lemma OneMoreClosed(start: map<Id, GrantRow>, left: set<Id>, was: map<Id, GrantRow>, one: Id, grants: map<Id, GrantRow>)
    requires one in left && ClosedBut(start, left, was)
    requires forall g | g != one :: Cell(grants, g) == Cell(was, g)
    requires Cell(grants, one) == AfterClosing(was, one)
    ensures ClosedBut(start, left - {one}, grants)
  {
    assert Cell(was, one) == Cell(start, one);
  }

  function AfterClosing(m: map<Id, GrantRow>, g: Id): Option<GrantRow> {
    if g !in m || m[g].Done? then Cell(m, g)
    else
      match m[g].binding
      case None => None
      case Some(b) => Some(Done(Interrupted(b.requestId, b.workspace)))
  }

  lemma AllClosed(before: Db, start: map<Id, GrantRow>, grants: map<Id, GrantRow>)
    requires start.Keys == before.grants.Keys
    requires forall g | g in start :: start[g] ==
               if g in before.pending && before.grants[g].Claimed?
               then Done(Interrupted(before.pending[g].requestId, before.pending[g].workspace)) else before.grants[g]
    requires forall g :: Cell(grants, g) == AfterClosing(start, g)
    ensures grants == Recovered(before) && forall g | g in grants :: grants[g].Done?
  {
    forall g ensures Cell(grants, g) == Cell(Recovered(before), g) {
      if g in before.grants { assert Cell(start, g) == Some(start[g]); }
    }
    SameCells(grants, Recovered(before));
  }

  /** Closes one claim, as `AfterClosing` says; `failed` if it had been bound. */
  method CloseOne(state: StateStore, g: Id, ghost w: World) returns (failed: bool)
    requires w.mode.ClosingClaims? && w.db == state.Tables()
    requires g in state.grants && state.grants[g].Claimed?
    modifies state`grants, state`workspaces
    ensures Apply(w, RecoverClaim(g)) == w.(db := state.Tables())
    ensures failed <==> old(state.grants)[g].binding.Some?
    ensures state.workspaces == if failed then Reset(old(state.workspaces), {old(state.grants)[g].binding.value.workspace})
                                else old(state.workspaces)
    ensures forall k | k != g :: Cell(state.grants, k) == Cell(old(state.grants), k)
    ensures Cell(state.grants, g) == AfterClosing(old(state.grants), g)
  {
    var binding := state.grants[g].binding;
    if binding.None? {
      state.ReleaseGrant(g);
      return false;
    }
    state.CompleteGrant(g, Interrupted(binding.value.requestId, binding.value.workspace));
    state.SetWorkspaceState(binding.value.workspace, Ready);
    return true;
  }

  lemma SameCells(a: map<Id, GrantRow>, b: map<Id, GrantRow>)
    requires forall g :: Cell(a, g) == Cell(b, g)
    ensures a == b
  {
    forall g ensures g in a <==> g in b { assert Cell(a, g) == Cell(b, g); }
    forall g | g in a ensures a[g] == b[g] { assert Cell(a, g) == Cell(b, g); }
  }
}
