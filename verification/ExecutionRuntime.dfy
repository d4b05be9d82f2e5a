/**
 The execution runtime: a grant is claimed once, one operation works on a workspace at a time, and
 after a crash every loose end is closed before anything is served. An operation is a sequence of
 small steps, any of which may be the last before the process dies; directories may vanish at any
 moment. The durable tables survive, the live operations and the busy set do not.
 */
module ExecutionRuntime {
  import opened Wrappers

  type Id = nat

  datatype Scope = Scope(organization: Id, employee: Id, agent: Id, thread: Id)

  /** A verified grant: what may be done, for whom, and with which credential lease. */
  datatype Grant = Grant(grantId: Id, requestId: Id, scope: Scope, checkout: bool, lease: Option<Id>)

  datatype Response = Response(requestId: Id, workspace: Id, code: string)

  datatype Binding = Binding(requestId: Id, workspace: Id)
  datatype GrantRow = Claimed(binding: Option<Binding>) | Done(response: Response)

  datatype WorkspaceState = Ready | InUse | Lost
  datatype Workspace = Workspace(id: Id, state: WorkspaceState)

  datatype Pending = Pending(lease: Id, requestId: Id, workspace: Id)

  /** The three tables. */
  datatype Db = Db(grants: map<Id, GrantRow>, workspaces: map<Scope, Workspace>, pending: map<Id, Pending>)

  const LOST := "WORKSPACE_LOST"
  const INTERRUPTED := "OPERATION_INTERRUPTED"
  const REFUSED := "CREDENTIAL_REFUSED"

  // ---- The tables' operations -------------------------------------------------------------

  function BindGrant(db: Db, g: Id, requestId: Id, workspace: Id): Db {
    if g in db.grants && db.grants[g].Claimed?
    then db.(grants := db.grants[g := Claimed(Some(Binding(requestId, workspace)))]) else db
  }

  function CompleteGrant(db: Db, g: Id, response: Response): Db {
    if g in db.grants && db.grants[g].Claimed? then db.(grants := db.grants[g := Done(response)]) else db
  }

  function ReleaseGrant(db: Db, g: Id): Db {
    if g in db.grants && db.grants[g].Claimed? then db.(grants := db.grants - {g}) else db
  }

  function SetState(db: Db, id: Id, state: WorkspaceState): Db {
    db.(workspaces := map s | s in db.workspaces ::
          if db.workspaces[s].id == id then db.workspaces[s].(state := state) else db.workspaces[s])
  }

  function RecordPending(db: Db, g: Id, pending: Pending): Db {
    if g in db.pending then db else db.(pending := db.pending[g := pending])
  }

  function ClearPending(db: Db, g: Id): Db {
    db.(pending := db.pending - {g})
  }

  function Interrupted(requestId: Id, workspace: Id): Response {
    Response(requestId, workspace, INTERRUPTED)
  }

  /** Closes a claim at restart: with a failure if it was bound, else it is forgotten. */
  function CloseClaim(db: Db, g: Id): Db {
    if g !in db.grants || !db.grants[g].Claimed? then db
    else
      match db.grants[g].binding
      case None => ReleaseGrant(db, g)
      case Some(b) => SetState(CompleteGrant(db, g, Interrupted(b.requestId, b.workspace)), b.workspace, Ready)
  }

  // ---- Operations and the process ---------------------------------------------------------

  /** How far an operation is; each step may be the last before a crash. */
  datatype Phase =
    | Admitted
    | Registered(workspace: Id)
    | Opened(workspace: Id)
    | Bound(workspace: Id)
    | Marked(workspace: Id)
    | Recorded(workspace: Id)
    | Redeemed(workspace: Id)
    | Executing(workspace: Id)
    | Unwinding(workspace: Id, result: Option<Response>)
    | LeaseEnded(workspace: Id, result: Option<Response>)
    | Cleared(workspace: Id, result: Option<Response>)
    | Finishing(result: Option<Response>)

  datatype Op = Op(grant: Grant, phase: Phase)

  /** Before serving, a restarted process first ends the interrupted checkouts, then closes the other claims. */
  datatype Mode = Down | EndingLeases(current: Option<Id>, closed: bool) | ClosingClaims | Serving

  datatype ProviderRun = ProviderRun(grantId: Id, workspace: Id, present: bool)

  datatype World = World(
    db: Db, mode: Mode, ops: map<Id, Op>, busy: set<Scope>,
    directories: set<Id>, known: set<Id>,
    runs: seq<ProviderRun>, redeemed: set<Id>, released: set<Id>, answers: set<(Id, Response)>)

  datatype Act =
    | Admit(op: Id, grant: Grant)
    | OpenWorkspace(op: Id, freshId: Id)
    | MakeDirectory(op: Id)
    | Bind(op: Id, credentials: bool)
    | Mark(op: Id)
    | Record(op: Id, contained: bool)
    | Redeem(op: Id, lands: bool, answer: Redemption)
    | Execute(op: Id)
    | Conclude(op: Id, code: Option<string>, recreates: bool)
    | EndLease(op: Id)
    | Clear(op: Id)
    | Settle(op: Id)
    | Complete(op: Id)
    | Vanish(directory: Id)
    | Crash
    | Restart
    | RecoverLease(grantId: Id)
    | RecoverCheckout(grantId: Id)
    | ForgetCheckout(grantId: Id)
    | LeasesEnded
    | RecoverClaim(grantId: Id)
    | Serve

  datatype Redemption = Granted | RefusedBy(code: string) | Failed

  const Empty := World(Db(map[], map[], map[]), Down, map[], {}, {}, {}, [], {}, {}, {})

  function At(w: World, o: Id, phase: Phase): World
    requires o in w.ops
  {
    w.(ops := w.ops[o := w.ops[o].(phase := phase)])
  }

  predicate In(w: World, o: Id) {
    w.mode.Serving? && o in w.ops
  }

  /** Busy is checked, and the grant claimed, in one go; nothing else runs in between. */
  function Admitting(w: World, o: Id, grant: Grant): World {
    if !w.mode.Serving? || o in w.ops || grant.scope in w.busy then w
    else if grant.grantId in w.db.grants then
      match w.db.grants[grant.grantId]
      case Done(response) => w.(answers := w.answers + {(grant.grantId, response)})
      case Claimed(_) => w
    else
      w.(db := w.db.(grants := w.db.grants[grant.grantId := Claimed(None)]),
         busy := w.busy + {grant.scope}, ops := w.ops[o := Op(grant, Admitted)])
  }

  function Opening(w: World, o: Id, freshId: Id): World
    requires o in w.ops && w.ops[o].phase.Admitted?
  {
    var g := w.ops[o].grant;
    if g.scope in w.db.workspaces then
      var ws := w.db.workspaces[g.scope];
      if ws.state.Lost? || ws.id !in w.directories
      then At(w.(db := SetState(w.db, ws.id, Lost)), o, Finishing(Some(Response(g.requestId, ws.id, LOST))))
      else At(w, o, Opened(ws.id))
    else if freshId in w.known then w
    else
      At(w.(db := w.db.(workspaces := w.db.workspaces[g.scope := Workspace(freshId, Ready)]), known := w.known + {freshId}),
         o, Registered(freshId))
  }

  function Tying(w: World, o: Id, credentials: bool): World
    requires o in w.ops && w.ops[o].phase.Opened?
  {
    var g, ws := w.ops[o].grant, w.ops[o].phase.workspace;
    if g.lease.Some? && (!g.checkout || !credentials) then
      At(w, o, Finishing(Some(Response(g.requestId, ws,
                if g.checkout then "CREDENTIALS_UNAVAILABLE" else "CREDENTIAL_OPERATION_FORBIDDEN"))))
    else At(w.(db := BindGrant(w.db, g.grantId, g.requestId, ws)), o, Bound(ws))
  }

  function Recording(w: World, o: Id, contained: bool): World
    requires o in w.ops && w.ops[o].phase.Marked?
  {
    var g, ws := w.ops[o].grant, w.ops[o].phase.workspace;
    if g.lease.None? then w
    else if !contained then At(w, o, Unwinding(ws, None))
    else At(w.(db := RecordPending(w.db, g.grantId, Pending(g.lease.value, g.requestId, ws))), o, Recorded(ws))
  }

  /** The redemption may have landed even when its answer is lost. */
  function Redeeming(w: World, o: Id, lands: bool, answer: Redemption): World
    requires o in w.ops && w.ops[o].phase.Recorded?
  {
    var g, ws := w.ops[o].grant, w.ops[o].phase.workspace;
    match answer
    case Granted => At(w.(redeemed := w.redeemed + {g.grantId}), o, Redeemed(ws))
    case RefusedBy(_) => At(w, o, Unwinding(ws, Some(Response(g.requestId, ws, REFUSED))))
    case Failed => At(if lands then w.(redeemed := w.redeemed + {g.grantId}) else w, o, Unwinding(ws, None))
  }

  predicate MayExecute(op: Op) {
    op.phase.Redeemed? || (op.phase.Marked? && op.grant.lease.None?)
  }

  function Starting(w: World, o: Id): World
    requires o in w.ops && MayExecute(w.ops[o])
  {
    var g, ws := w.ops[o].grant, w.ops[o].phase.workspace;
    At(w.(runs := w.runs + [ProviderRun(g.grantId, ws, ws in w.directories)]), o, Executing(ws))
  }

  /** The provider is done; it may have made its workspace's directory anew. */
  function Concluding(w: World, o: Id, code: Option<string>, recreates: bool): World
    requires o in w.ops && w.ops[o].phase.Executing?
  {
    var g, ws := w.ops[o].grant, w.ops[o].phase.workspace;
    At(if recreates then w.(directories := w.directories + {ws}) else w, o,
       Unwinding(ws, if code.Some? then Some(Response(g.requestId, ws, code.value)) else None))
  }

  function Completing(w: World, o: Id): World
    requires o in w.ops && w.ops[o].phase.Finishing?
  {
    var g, result := w.ops[o].grant, w.ops[o].phase.result;
    var over := w.(ops := w.ops - {o}, busy := w.busy - {g.scope});
    if result.None? then over
    else over.(db := CompleteGrant(w.db, g.grantId, result.value),
               answers := w.answers + {(g.grantId, result.value)})
  }

  function OpStep(w: World, act: Act): World {
    match act
    case OpenWorkspace(o, freshId) => if In(w, o) && w.ops[o].phase.Admitted? then Opening(w, o, freshId) else w
    case MakeDirectory(o) =>
      if In(w, o) && w.ops[o].phase.Registered?
      then At(w.(directories := w.directories + {w.ops[o].phase.workspace}), o, Opened(w.ops[o].phase.workspace)) else w
    case Bind(o, credentials) => if In(w, o) && w.ops[o].phase.Opened? then Tying(w, o, credentials) else w
    case Mark(o) =>
      if In(w, o) && w.ops[o].phase.Bound?
      then At(w.(db := SetState(w.db, w.ops[o].phase.workspace, InUse)), o, Marked(w.ops[o].phase.workspace)) else w
    case Record(o, contained) => if In(w, o) && w.ops[o].phase.Marked? then Recording(w, o, contained) else w
    case Redeem(o, lands, answer) => if In(w, o) && w.ops[o].phase.Recorded? then Redeeming(w, o, lands, answer) else w
    case Execute(o) => if In(w, o) && MayExecute(w.ops[o]) then Starting(w, o) else w
    case Conclude(o, code, recreates) =>
      if In(w, o) && w.ops[o].phase.Executing? then Concluding(w, o, code, recreates) else w
    case EndLease(o) =>
      if In(w, o) && w.ops[o].phase.Unwinding? && w.ops[o].grant.lease.Some?
      then At(w.(released := w.released + {w.ops[o].grant.grantId}), o,
              LeaseEnded(w.ops[o].phase.workspace, w.ops[o].phase.result)) else w
    case Clear(o) =>
      if In(w, o) && w.ops[o].phase.LeaseEnded?
      then At(w.(db := ClearPending(w.db, w.ops[o].grant.grantId)), o,
              Cleared(w.ops[o].phase.workspace, w.ops[o].phase.result)) else w
    case Settle(o) =>
      if In(w, o) && (w.ops[o].phase.Cleared? || (w.ops[o].phase.Unwinding? && w.ops[o].grant.lease.None?))
      then At(w.(db := SetState(w.db, w.ops[o].phase.workspace, Ready)), o, Finishing(w.ops[o].phase.result)) else w
    case Complete(o) => if In(w, o) && w.ops[o].phase.Finishing? then Completing(w, o) else w
    case _ => w
  }

  function Recovering(w: World, act: Act): World {
    match act
    case Restart => if w.mode.Down? then w.(mode := EndingLeases(None, false)) else w
    case RecoverLease(g) =>
      if w.mode == EndingLeases(None, false) && g in w.db.pending
      then w.(mode := EndingLeases(Some(g), false), released := w.released + {g}) else w
    case RecoverCheckout(g) =>
      if w.mode == EndingLeases(Some(g), false) && g in w.db.pending then
        var p := w.db.pending[g];
        w.(db := CompleteGrant(w.db, g, Interrupted(p.requestId, p.workspace)), mode := EndingLeases(Some(g), true))
      else w
    case ForgetCheckout(g) =>
      if w.mode == EndingLeases(Some(g), true)
      then w.(db := ClearPending(w.db, g), mode := EndingLeases(None, false)) else w
    case LeasesEnded => if w.mode == EndingLeases(None, false) && w.db.pending == map[] then w.(mode := ClosingClaims) else w
    case RecoverClaim(g) => if w.mode.ClosingClaims? then w.(db := CloseClaim(w.db, g)) else w
    case Serve =>
      if w.mode.ClosingClaims? && (forall g | g in w.db.grants :: w.db.grants[g].Done?) then w.(mode := Serving) else w
    case _ => w
  }

  function Apply(w: World, act: Act): World {
    match act
    case Admit(o, grant) => Admitting(w, o, grant)
    case Vanish(directory) => w.(directories := w.directories - {directory})
    case Crash => w.(mode := Down, ops := map[], busy := {})
    case Restart => Recovering(w, act)
    case RecoverLease(_) => Recovering(w, act)
    case RecoverCheckout(_) => Recovering(w, act)
    case ForgetCheckout(_) => Recovering(w, act)
    case LeasesEnded => Recovering(w, act)
    case RecoverClaim(_) => Recovering(w, act)
    case Serve => Recovering(w, act)
    case _ => OpStep(w, act)
  }

  function After(acts: seq<Act>): World {
    if acts == [] then Empty else Apply(After(acts[..|acts| - 1]), acts[|acts| - 1])
  }
}
