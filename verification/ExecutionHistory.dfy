/**
 The execution runtime over every history of requests, lost answers, vanished directories, crashes
 and restarts.
 */
module ExecutionHistory {
  import opened Wrappers
  import opened ExecutionRuntime

  // ---- What every history keeps -----------------------------------------------------------

  function Ran(runs: seq<ProviderRun>): set<Id> {
    set i | 0 <= i < |runs| :: runs[i].grantId
  }

  /** Nothing has been done under the claim yet. */
  predicate Unbound(p: Phase) {
    p.Admitted? || p.Registered? || p.Opened?
  }

  predicate BeforeRun(p: Phase) {
    Unbound(p) || p.Bound? || p.Marked? || p.Recorded? || p.Redeemed?
  }

  predicate Works(p: Phase) {
    !p.Admitted? && !p.Finishing?
  }

  ghost predicate OpAt(w: World, o: Id) {
    o in w.ops ==>
      var g, p := w.ops[o].grant, w.ops[o].phase;
      g.scope in w.busy && g.grantId in w.db.grants && w.db.grants[g.grantId].Claimed? &&
      (Works(p) ==> g.scope in w.db.workspaces && w.db.workspaces[g.scope].id == p.workspace) &&
      (Unbound(p) ==> w.db.grants[g.grantId].binding.None?) &&
      (Works(p) && !Unbound(p) ==> w.db.grants[g.grantId].binding == Some(Binding(g.requestId, p.workspace))) &&
      (w.db.grants[g.grantId].binding.None? || BeforeRun(p) ==> g.grantId !in Ran(w.runs)) &&
      (p.Recorded? || p.Redeemed? ==> g.grantId in w.db.pending) &&
      (p.LeaseEnded? ==> g.grantId in w.released)
  }

  /** Two live operations share neither workspace scope nor grant. */
  ghost predicate Apart(w: World, o: Id, p: Id) {
    o in w.ops && p in w.ops && o != p ==>
      w.ops[o].grant.scope != w.ops[p].grant.scope && w.ops[o].grant.grantId != w.ops[p].grant.grantId
  }

  /** A scope is busy only for an operation that is there to free it. */
  ghost predicate Held(w: World, s: Scope) {
    s in w.busy ==> exists o :: o in w.ops && w.ops[o].grant.scope == s
  }

  ghost predicate Ops(w: World) {
    (!w.mode.Serving? ==> w.ops == map[] && w.busy == {}) &&
    (forall o :: OpAt(w, o)) && (forall o, p :: Apart(w, o, p)) && (forall s :: Held(w, s))
  }

  /** Each scope has one workspace, each workspace one scope. */
  ghost predicate Workspaces(w: World) {
    (forall s | s in w.db.workspaces :: w.db.workspaces[s].id in w.known) &&
    (forall s, t | s in w.db.workspaces && t in w.db.workspaces && w.db.workspaces[s].id == w.db.workspaces[t].id :: s == t)
  }

  ghost predicate Runs(w: World) {
    (forall g | g in Ran(w.runs) :: g in w.db.grants && (w.db.grants[g].Claimed? ==> w.db.grants[g].binding.Some?)) &&
    (forall i, j | 0 <= i < j < |w.runs| :: w.runs[i].grantId != w.runs[j].grantId)
  }

  ghost predicate Leases(w: World) {
    (forall g | g in w.redeemed && g !in w.released :: g in w.db.pending) &&
    (w.mode.EndingLeases? && w.mode.current.Some? ==> w.mode.current.value in w.released) &&
    (w.mode.ClosingClaims? ==> w.db.pending == map[])
  }

  ghost predicate Answers(w: World) {
    forall a | a in w.answers :: a.0 in w.db.grants && w.db.grants[a.0] == Done(a.1)
  }

  ghost predicate Sound(w: World) {
    Ops(w) && Workspaces(w) && Runs(w) && Leases(w) && Answers(w)
  }

  /** A step of one operation: only its own grant, lease, run and workspace rows may differ. */
  ghost predicate StepOf(w: World, x: World, o: Id) {
    w.mode.Serving? && x.mode.Serving? && o in w.ops && o in x.ops && x.busy == w.busy &&
    x.ops == w.ops[o := x.ops[o]] && x.ops[o].grant == w.ops[o].grant &&
    var g := w.ops[o].grant.grantId;
    (forall k | k != g :: (k in w.db.grants <==> k in x.db.grants) && (k in w.db.grants ==> x.db.grants[k] == w.db.grants[k])) &&
    (forall k | k != g :: (k in w.db.pending ==> k in x.db.pending) && (k in w.released ==> k in x.released)) &&
    (forall k | k != g :: k in Ran(x.runs) ==> k in Ran(w.runs)) && SameIds(w.db, x.db)
  }

  ghost predicate SameIds(a: Db, b: Db) {
    forall s | s in a.workspaces :: s in b.workspaces && b.workspaces[s].id == a.workspaces[s].id
  }

  lemma OtherStands(w: World, x: World, o: Id, p: Id)
    requires StepOf(w, x, o) && p != o && OpAt(w, p) && Apart(w, o, p)
    ensures OpAt(x, p)
  {}

  lemma StepKeepsOps(w: World, x: World, o: Id)
    requires Ops(w) && StepOf(w, x, o) && OpAt(x, o)
    ensures Ops(x)
  {
    forall p ensures OpAt(x, p) {
      if p != o {
        assert OpAt(w, p) && Apart(w, o, p);
        OtherStands(w, x, o, p);
      }
    }
    forall p, q ensures Apart(x, p, q) { assert Apart(w, p, q); }
    SameOpsHold(w, x);
  }

  lemma SameOpsHold(w: World, x: World)
    requires forall s :: Held(w, s)
    requires x.busy == w.busy && forall o | o in w.ops :: o in x.ops && x.ops[o].grant == w.ops[o].grant
    ensures forall s :: Held(x, s)
  {
    forall s ensures Held(x, s) {
      assert Held(w, s);
      if s in w.busy {
        var o :| o in w.ops && w.ops[o].grant.scope == s;
        assert x.ops[o].grant.scope == s;
      }
    }
  }

  lemma StatesKeepIds(db: Db, id: Id, state: WorkspaceState)
    ensures SameIds(db, SetState(db, id, state)) && SetState(db, id, state).workspaces.Keys == db.workspaces.Keys
    ensures SetState(db, id, state) == db.(workspaces := SetState(db, id, state).workspaces)
  {}

  lemma SameIdsKeepWorkspaces(w: World, x: World)
    requires Workspaces(w) && SameIds(w.db, x.db) && x.db.workspaces.Keys == w.db.workspaces.Keys && x.known == w.known
    ensures Workspaces(x)
  {}

  lemma OpeningKeeps(w: World, o: Id, freshId: Id)
    requires Sound(w) && In(w, o) && w.ops[o].phase.Admitted?
    ensures Sound(Opening(w, o, freshId))
  {
    var x := Opening(w, o, freshId);
    assert OpAt(w, o);
    var g := w.ops[o].grant;
    if g.scope in w.db.workspaces {
      StatesKeepIds(w.db, w.db.workspaces[g.scope].id, Lost);
      SameIdsKeepWorkspaces(w, x);
    }
    if x != w { StepKeepsOps(w, x, o); }
  }

  lemma TyingKeeps(w: World, o: Id, credentials: bool)
    requires Sound(w) && In(w, o) && w.ops[o].phase.Opened?
    ensures Sound(Tying(w, o, credentials))
  {
    assert OpAt(w, o);
    StepKeepsOps(w, Tying(w, o, credentials), o);
  }

  lemma RecordingKeeps(w: World, o: Id, contained: bool)
    requires Sound(w) && In(w, o) && w.ops[o].phase.Marked?
    ensures Sound(Recording(w, o, contained))
  {
    assert OpAt(w, o);
    if w.ops[o].grant.lease.Some? { StepKeepsOps(w, Recording(w, o, contained), o); }
  }

  lemma RedeemingKeeps(w: World, o: Id, lands: bool, answer: Redemption)
    requires Sound(w) && In(w, o) && w.ops[o].phase.Recorded?
    ensures Sound(Redeeming(w, o, lands, answer))
  {
    assert OpAt(w, o);
    StepKeepsOps(w, Redeeming(w, o, lands, answer), o);
  }

  lemma RanGrows(runs: seq<ProviderRun>, r: ProviderRun)
    ensures Ran(runs + [r]) == Ran(runs) + {r.grantId}
  {
    assert (runs + [r])[|runs|] == r;
    forall g | g in Ran(runs) ensures g in Ran(runs + [r]) {
      var i :| 0 <= i < |runs| && runs[i].grantId == g;
      assert (runs + [r])[i].grantId == g;
    }
  }

  lemma RanAt(runs: seq<ProviderRun>, i: nat)
    requires i < |runs|
    ensures runs[i].grantId in Ran(runs)
  {}

  lemma StartingKeeps(w: World, o: Id)
    requires Sound(w) && In(w, o) && MayExecute(w.ops[o])
    ensures Sound(Starting(w, o))
  {
    var x := Starting(w, o);
    assert OpAt(w, o);
    RanGrows(w.runs, x.runs[|w.runs|]);
    forall i | 0 <= i < |w.runs| ensures w.runs[i].grantId != w.ops[o].grant.grantId { RanAt(w.runs, i); }
    StepKeepsOps(w, x, o);
  }

  lemma CompletingKeeps(w: World, o: Id)
    requires Sound(w) && In(w, o) && w.ops[o].phase.Finishing?
    ensures Sound(Completing(w, o))
  {
    var x := Completing(w, o);
    assert OpAt(w, o);
    forall p ensures OpAt(x, p) { assert OpAt(w, p) && Apart(w, o, p); }
    forall p, q ensures Apart(x, p, q) { assert Apart(w, p, q); }
    forall s ensures Held(x, s) {
      assert Held(w, s);
      if s in x.busy {
        var p :| p in w.ops && w.ops[p].grant.scope == s;
        assert p in x.ops && x.ops[p].grant.scope == s;
      }
    }
  }

  lemma AdvanceKeeps(w: World, o: Id, db: Db, phase: Phase)
    requires Sound(w) && In(w, o) && db.grants == w.db.grants && db.pending == w.db.pending
    requires SameIds(w.db, db) && db.workspaces.Keys == w.db.workspaces.Keys
    requires OpAt(At(w.(db := db), o, phase), o)
    ensures Sound(At(w.(db := db), o, phase))
  {
    SameIdsKeepWorkspaces(w, At(w.(db := db), o, phase));
    StepKeepsOps(w, At(w.(db := db), o, phase), o);
  }

  lemma MakingKeeps(w: World, o: Id)
    requires Sound(w)
    ensures Sound(OpStep(w, MakeDirectory(o)))
  {
    assert OpAt(w, o);
    if In(w, o) && w.ops[o].phase.Registered? { StepKeepsOps(w, OpStep(w, MakeDirectory(o)), o); }
  }

  lemma MarkingKeeps(w: World, o: Id)
    requires Sound(w)
    ensures Sound(OpStep(w, Mark(o)))
  {
    if In(w, o) && w.ops[o].phase.Bound? {
      assert OpAt(w, o);
      var ws := w.ops[o].phase.workspace;
      StatesKeepIds(w.db, ws, InUse);
      AdvanceKeeps(w, o, SetState(w.db, ws, InUse), Marked(ws));
    }
  }

  lemma ConcludingKeeps(w: World, o: Id, code: Option<string>, recreates: bool)
    requires Sound(w)
    ensures Sound(OpStep(w, Conclude(o, code, recreates)))
  {
    assert OpAt(w, o);
    if In(w, o) && w.ops[o].phase.Executing? { StepKeepsOps(w, OpStep(w, Conclude(o, code, recreates)), o); }
  }

  lemma EndingKeeps(w: World, o: Id)
    requires Sound(w)
    ensures Sound(OpStep(w, EndLease(o)))
  {
    assert OpAt(w, o);
    if In(w, o) && w.ops[o].phase.Unwinding? && w.ops[o].grant.lease.Some? {
      StepKeepsOps(w, OpStep(w, EndLease(o)), o);
    }
  }

  lemma ClearingKeeps(w: World, o: Id)
    requires Sound(w)
    ensures Sound(OpStep(w, Clear(o)))
  {
    assert OpAt(w, o);
    if In(w, o) && w.ops[o].phase.LeaseEnded? { StepKeepsOps(w, OpStep(w, Clear(o)), o); }
  }

  lemma SettlingKeeps(w: World, o: Id)
    requires Sound(w)
    ensures Sound(OpStep(w, Settle(o)))
  {
    if In(w, o) && (w.ops[o].phase.Cleared? || (w.ops[o].phase.Unwinding? && w.ops[o].grant.lease.None?)) {
      assert OpAt(w, o);
      var ws := w.ops[o].phase.workspace;
      StatesKeepIds(w.db, ws, Ready);
      AdvanceKeeps(w, o, SetState(w.db, ws, Ready), Finishing(w.ops[o].phase.result));
    }
  }

  lemma OpStepKeeps(w: World, act: Act)
    requires Sound(w)
    ensures Sound(OpStep(w, act))
  {
    match act {
      case OpenWorkspace(o, freshId) => if In(w, o) && w.ops[o].phase.Admitted? { OpeningKeeps(w, o, freshId); }
      case Bind(o, credentials) => if In(w, o) && w.ops[o].phase.Opened? { TyingKeeps(w, o, credentials); }
      case Record(o, contained) => if In(w, o) && w.ops[o].phase.Marked? { RecordingKeeps(w, o, contained); }
      case Redeem(o, lands, answer) => if In(w, o) && w.ops[o].phase.Recorded? { RedeemingKeeps(w, o, lands, answer); }
      case Execute(o) => if In(w, o) && MayExecute(w.ops[o]) { StartingKeeps(w, o); }
      case Complete(o) => if In(w, o) && w.ops[o].phase.Finishing? { CompletingKeeps(w, o); }
      case MakeDirectory(o) => MakingKeeps(w, o);
      case Mark(o) => MarkingKeeps(w, o);
      case Conclude(o, code, recreates) => ConcludingKeeps(w, o, code, recreates);
      case EndLease(o) => EndingKeeps(w, o);
      case Clear(o) => ClearingKeeps(w, o);
      case Settle(o) => SettlingKeeps(w, o);
      case _ =>
    }
  }

  lemma AdmittingKeeps(w: World, o: Id, grant: Grant)
    requires Sound(w)
    ensures Sound(Admitting(w, o, grant))
  {
    var x := Admitting(w, o, grant);
    if x.ops != w.ops {
      forall p ensures OpAt(x, p) { assert OpAt(w, p); }
      forall p, q ensures Apart(x, p, q) { assert Apart(w, p, q) && OpAt(w, p) && OpAt(w, q); }
      forall s ensures Held(x, s) {
        assert Held(w, s);
        if s == grant.scope {
          assert x.ops[o].grant.scope == s;
        } else if s in w.busy {
          var p :| p in w.ops && w.ops[p].grant.scope == s;
          assert x.ops[p].grant.scope == s;
        }
      }
    } else {
      OpsFrame(w, x);
    }
  }

  /** What no operation stands on may change freely. */
  lemma OpsFrame(w: World, x: World)
    requires Ops(w) && x.ops == w.ops && x.busy == w.busy && (x.mode.Serving? <==> w.mode.Serving?)
    requires x.db == w.db && x.runs == w.runs && x.released == w.released
    ensures Ops(x)
  {
    forall p ensures OpAt(x, p) { assert OpAt(w, p); }
    forall p, q ensures Apart(x, p, q) { assert Apart(w, p, q); }
    SameOpsHold(w, x);
  }

  lemma RecoveringKeeps(w: World, act: Act)
    requires Sound(w) && !w.mode.Serving?
    ensures Sound(Recovering(w, act))
  {
    if act.RecoverClaim? && w.mode.ClosingClaims? {
      ClosingKeeps(w, act.grantId);
    }
  }

  lemma ClosingKeeps(w: World, g: Id)
    requires Sound(w) && w.mode.ClosingClaims?
    ensures Sound(w.(db := CloseClaim(w.db, g)))
  {
    var x := w.(db := CloseClaim(w.db, g));
    if g in w.db.grants && w.db.grants[g].Claimed? && w.db.grants[g].binding.Some? {
      var b := w.db.grants[g].binding.value;
      StatesKeepIds(CompleteGrant(w.db, g, Interrupted(b.requestId, b.workspace)), b.workspace, Ready);
      SameIdsKeepWorkspaces(w, x);
    }
  }

  lemma OtherActsKeep(w: World, act: Act)
    requires Sound(w) && !act.Admit? && !act.Vanish? && !act.Crash?
    ensures Sound(Apply(w, act))
  {
    if w.mode.Serving? { OpStepKeeps(w, act); } else { RecoveringKeeps(w, act); }
    assert Apply(w, act) == if w.mode.Serving? then OpStep(w, act) else Recovering(w, act);
  }

  lemma ApplyKeeps(w: World, act: Act)
    requires Sound(w)
    ensures Sound(Apply(w, act))
  {
    match act {
      case Admit(o, grant) => AdmittingKeeps(w, o, grant);
      case Vanish(directory) => OpsFrame(w, w.(directories := w.directories - {directory}));
      case Crash => CrashKeeps(w);
      case _ => OtherActsKeep(w, act);
    }
  }

  lemma CrashKeeps(w: World)
    requires Sound(w)
    ensures Sound(w.(mode := Down, ops := map[], busy := {}))
  {}

  lemma {:induction false} EveryHistoryIsSound(acts: seq<Act>)
    ensures Sound(After(acts))
  {
    if acts != [] {
      EveryHistoryIsSound(acts[..|acts| - 1]);
      ApplyKeeps(After(acts[..|acts| - 1]), acts[|acts| - 1]);
    }
  }

  // ---- The theorems -----------------------------------------------------------------------

  /** The provider runs at most once per grant, over every crash, restart and replay. */
  lemma OneProviderRunPerGrant(acts: seq<Act>, i: nat, j: nat)
    requires i < |After(acts).runs| && j < |After(acts).runs|
    requires After(acts).runs[i].grantId == After(acts).runs[j].grantId
    ensures i == j
  {
    EveryHistoryIsSound(acts);
  }

  /** At most one operation is in progress per (organization, employee, agent, thread), and it alone holds the scope. */
  lemma OneOperationPerScope(acts: seq<Act>, o: Id, p: Id)
    requires o in After(acts).ops && p in After(acts).ops
    ensures After(acts).ops[o].grant.scope == After(acts).ops[p].grant.scope <==> o == p
    ensures forall s :: s in After(acts).busy <==> exists q :: q in After(acts).ops && After(acts).ops[q].grant.scope == s
  {
    EveryHistoryIsSound(acts);
    var w := After(acts);
    assert Apart(w, o, p);
    forall s ensures s in w.busy <==> exists q :: q in w.ops && w.ops[q].grant.scope == s {
      assert Held(w, s);
      if q :| q in w.ops && w.ops[q].grant.scope == s { assert OpAt(w, q); }
    }
  }

  /** A lease that was redeemed is on record until its release was attempted. */
  lemma RedeemedLeasesArePending(acts: seq<Act>, g: Id)
    requires g in After(acts).redeemed && g !in After(acts).released
    ensures g in After(acts).db.pending
  {
    EveryHistoryIsSound(acts);
  }

  /** A restarted process serves nothing before every claim is closed and every lease ended. */
  lemma RecoveryLeavesNothingOpen(acts: seq<Act>)
    requires !After(acts).mode.Serving? && Apply(After(acts), Serve).mode.Serving?
    ensures var w := Apply(After(acts), Serve);
            w.db.pending == map[] && w.ops == map[] && w.busy == {} &&
            forall g | g in w.db.grants :: w.db.grants[g].Done?
  {
    EveryHistoryIsSound(acts);
  }

  ghost predicate Lasts(w: World, x: World) {
    (forall g | g in w.db.grants && w.db.grants[g].Done? :: g in x.db.grants && x.db.grants[g] == w.db.grants[g]) &&
    SameIds(w.db, x.db) && w.runs <= x.runs && w.answers <= x.answers && w.known <= x.known
  }

  lemma OpeningLasts(w: World, o: Id, freshId: Id)
    requires In(w, o) && w.ops[o].phase.Admitted?
    ensures Lasts(w, Opening(w, o, freshId))
  {}

  lemma CompletingLasts(w: World, o: Id)
    requires In(w, o) && w.ops[o].phase.Finishing?
    ensures Lasts(w, Completing(w, o))
  {}

  lemma TyingLasts(w: World, o: Id, credentials: bool)
    requires In(w, o) && w.ops[o].phase.Opened?
    ensures Lasts(w, Tying(w, o, credentials))
  {}

  lemma StatesLast(w: World, act: Act)
    requires act.Mark? || act.Settle?
    ensures Lasts(w, OpStep(w, act))
  {}

  lemma OpStepLasts(w: World, act: Act)
    ensures Lasts(w, OpStep(w, act))
  {
    match act {
      case OpenWorkspace(o, freshId) => if In(w, o) && w.ops[o].phase.Admitted? { OpeningLasts(w, o, freshId); }
      case Complete(o) => if In(w, o) && w.ops[o].phase.Finishing? { CompletingLasts(w, o); }
      case Mark(o) => StatesLast(w, act);
      case Settle(o) => StatesLast(w, act);
      case Bind(o, credentials) => if In(w, o) && w.ops[o].phase.Opened? { TyingLasts(w, o, credentials); }
      case _ =>
    }
  }

  lemma RecoveryLasts(w: World, act: Act)
    ensures Lasts(w, Recovering(w, act))
  {
    if act.RecoverClaim? && w.mode.ClosingClaims? && act.grantId in w.db.grants && w.db.grants[act.grantId].Claimed? {
      var b := w.db.grants[act.grantId].binding;
      if b.Some? {
        StatesKeepIds(CompleteGrant(w.db, act.grantId, Interrupted(b.value.requestId, b.value.workspace)), b.value.workspace, Ready);
      }
    }
  }

  lemma {:induction false} HistoryLasts(acts: seq<Act>, n: nat)
    requires n <= |acts|
    ensures Lasts(After(acts[..n]), After(acts))
    decreases |acts|
  {
    if n == |acts| {
      assert acts[..n] == acts;
    } else {
      var before := acts[..|acts| - 1];
      assert acts[..n] == before[..n];
      HistoryLasts(before, n);
      EveryHistoryIsSound(before);
      OpStepLasts(After(before), acts[|acts| - 1]);
      RecoveryLasts(After(before), acts[|acts| - 1]);
    }
  }

  /** A recorded response never changes, and is what everybody was ever answered under that grant. */
  lemma DoneIsForGood(acts: seq<Act>, n: nat, g: Id, answer: Response)
    requires n <= |acts| && (g, answer) in After(acts[..n]).answers
    ensures g in After(acts).db.grants && After(acts).db.grants[g] == Done(answer)
  {
    HistoryLasts(acts, n);
    EveryHistoryIsSound(acts);
    assert (g, answer) in After(acts).answers;
  }

  /** A scope's workspace is its workspace for ever, and nobody else's. */
  lemma WorkspacesAreForEver(acts: seq<Act>, n: nat, s: Scope, t: Scope)
    requires n <= |acts| && s in After(acts[..n]).db.workspaces && t in After(acts).db.workspaces
    ensures s in After(acts).db.workspaces &&
            After(acts).db.workspaces[s].id == After(acts[..n]).db.workspaces[s].id &&
            (After(acts).db.workspaces[t].id == After(acts).db.workspaces[s].id ==> t == s)
  {
    HistoryLasts(acts, n);
    EveryHistoryIsSound(acts);
  }

  lemma StepRunsItsOwn(w: World, act: Act)
    ensures forall g | g in Ran(OpStep(w, act).runs) ::
              g in Ran(w.runs) || exists o :: o in w.ops && w.ops[o].grant.grantId == g
  {
    if act.Execute? && In(w, act.op) && MayExecute(w.ops[act.op]) {
      RanGrows(w.runs, OpStep(w, act).runs[|w.runs|]);
    } else {
      assert OpStep(w, act).runs == w.runs;
    }
  }

  lemma StepKeepsItsGrant(w: World, act: Act)
    ensures forall o | o in OpStep(w, act).ops :: o in w.ops && OpStep(w, act).ops[o].grant == w.ops[o].grant
  {}

  /** A step runs and holds only grants that were admitted before it, or by it. */
  lemma NewWorkWasAdmitted(w: World, act: Act)
    ensures forall o | o in Apply(w, act).ops ::
              (o in w.ops && Apply(w, act).ops[o].grant == w.ops[o].grant) ||
              (act.Admit? && Apply(w, act).ops[o].grant == act.grant)
    ensures forall g | g in Ran(Apply(w, act).runs) ::
              g in Ran(w.runs) || exists o :: o in w.ops && w.ops[o].grant.grantId == g
  {
    StepRunsItsOwn(w, act);
    StepKeepsItsGrant(w, act);
    if Apply(w, act) != OpStep(w, act) {
      assert Apply(w, act).runs == w.runs;
    }
  }

  // ---- Lost workspaces --------------------------------------------------------------------

  /** The operation has passed its own check of the workspace, or is creating it, and has yet to run. */
  predicate Inside(op: Op, id: Id) {
    Works(op.phase) && BeforeRun(op.phase) && op.phase.workspace == id
  }

  /** Or its provider is running in the workspace, and may make the directory anew. */
  predicate Near(op: Op, id: Id) {
    Inside(op, id) || (op.phase.Executing? && op.phase.workspace == id)
  }

  ghost predicate Gone(w: World, id: Id) {
    (exists s :: s in w.db.workspaces && w.db.workspaces[s].id == id) && id in w.known && KeptOut(w, id)
  }

  ghost predicate RunsIn(w: World, x: World, id: Id) {
    forall i | |w.runs| <= i < |x.runs| :: x.runs[i].workspace != id
  }

  lemma StillRegistered(w: World, x: World, id: Id)
    requires Gone(w, id) && SameIds(w.db, x.db)
    ensures exists s :: s in x.db.workspaces && x.db.workspaces[s].id == id
  {
    var s :| s in w.db.workspaces && w.db.workspaces[s].id == id;
    assert x.db.workspaces[s].id == id;
  }

  ghost predicate KeptOut(w: World, id: Id) {
    id !in w.directories && forall o | o in w.ops :: !Near(w.ops[o], id)
  }

  lemma OpeningStaysOut(w: World, o: Id, freshId: Id, id: Id)
    requires Sound(w) && Gone(w, id) && In(w, o) && w.ops[o].phase.Admitted?
    ensures KeptOut(Opening(w, o, freshId), id)
  {}

  /** Only an operation at work in the workspace makes its directory. */
  lemma DirectoriesAreMade(w: World, act: Act, id: Id)
    requires id !in w.directories && id in Apply(w, act).directories
    ensures (act.MakeDirectory? || act.Conclude?) && In(w, act.op) && Works(w.ops[act.op].phase) &&
            w.ops[act.op].phase.workspace == id && (w.ops[act.op].phase.Registered? || w.ops[act.op].phase.Executing?)
  {}

  lemma NearWasNear(w: World, act: Act, p: Id, id: Id)
    requires p in Apply(w, act).ops && Near(Apply(w, act).ops[p], id)
    ensures p in w.ops && (Near(w.ops[p], id) || (act.OpenWorkspace? && act.op == p && In(w, p) && w.ops[p].phase.Admitted?))
  {}

  lemma RunBegins(w: World, act: Act)
    ensures Apply(w, act).runs == w.runs ||
            (act.Execute? && In(w, act.op) && MayExecute(w.ops[act.op]) && Apply(w, act) == Starting(w, act.op))
  {}

  lemma GoneStaysGone(w: World, act: Act, id: Id)
    requires Sound(w) && Gone(w, id)
    ensures Gone(Apply(w, act), id) && RunsIn(w, Apply(w, act), id)
  {
    var x := Apply(w, act);
    OpStepLasts(w, act);
    RecoveryLasts(w, act);
    StillRegistered(w, x, id);
    RunBegins(w, act);
    if id in x.directories { DirectoriesAreMade(w, act, id); }
    forall o | o in x.ops ensures !Near(x.ops[o], id) {
      if Near(x.ops[o], id) {
        NearWasNear(w, act, o, id);
        OpeningStaysOut(w, o, act.freshId, id);
      }
    }
  }

  lemma RunsAppend(w: World, act: Act)
    ensures w.runs <= Apply(w, act).runs
  {
    OpStepLasts(w, act);
    RecoveryLasts(w, act);
  }

  lemma RunsInJoins(w: World, x: World, y: World, id: Id)
    requires w.runs <= x.runs <= y.runs && RunsIn(w, x, id) && RunsIn(x, y, id)
    ensures w.runs <= y.runs && RunsIn(w, y, id)
  {
    forall i | |w.runs| <= i < |y.runs| ensures y.runs[i].workspace != id {
      if i < |x.runs| { assert x.runs[i] == y.runs[i]; }
    }
  }

  /**
   Once a registered workspace's directory is gone, and no operation is past its own check of it or has
   its provider in it, no step recreates it and no provider runs in it again, whatever the state column says.
   */
  lemma {:induction false} LostWorkspacesStayLost(acts: seq<Act>, n: nat, id: Id)
    requires n <= |acts| && Gone(After(acts[..n]), id)
    ensures Gone(After(acts), id) && After(acts[..n]).runs <= After(acts).runs && RunsIn(After(acts[..n]), After(acts), id)
    decreases |acts|
  {
    if n == |acts| {
      assert acts[..n] == acts;
    } else {
      var before := acts[..|acts| - 1];
      assert acts[..n] == before[..n];
      LostWorkspacesStayLost(before, n, id);
      EveryHistoryIsSound(before);
      GoneStaysGone(After(before), acts[|acts| - 1], id);
      RunsAppend(After(before), acts[|acts| - 1]);
      RunsInJoins(After(acts[..n]), After(before), After(acts), id);
    }
  }

  /** From then on every operation that comes to it is told the workspace is lost. */
  lemma LostIsReported(acts: seq<Act>, n: nat, id: Id, o: Id, freshId: Id)
    requires n <= |acts| && Gone(After(acts[..n]), id)
    requires var w := After(acts);
             In(w, o) && w.ops[o].phase.Admitted? && w.ops[o].grant.scope in w.db.workspaces &&
             w.db.workspaces[w.ops[o].grant.scope].id == id
    ensures var w, x := After(acts), Apply(After(acts), OpenWorkspace(o, freshId));
            x.ops[o].phase == Finishing(Some(Response(w.ops[o].grant.requestId, id, LOST))) &&
            x.db.workspaces[w.ops[o].grant.scope] == Workspace(id, Lost) && x.directories == w.directories
  {
    LostWorkspacesStayLost(acts, n, id);
  }

  // ---- Where responses come from ----------------------------------------------------------

  /** The provider of the grant's operation concluded so, in the grant's workspace. */
  ghost predicate ConcludedAt(acts: seq<Act>, k: nat, g: Id, r: Response) {
    k < |acts| && acts[k].Conclude? && acts[k].code == Some(r.code) &&
    var w := After(acts[..k]);
    In(w, acts[k].op) && w.ops[acts[k].op].grant.grantId == g && w.ops[acts[k].op].grant.requestId == r.requestId &&
    w.ops[acts[k].op].phase == Executing(r.workspace)
  }

  ghost predicate Concluded(acts: seq<Act>, g: Id, r: Response) {
    exists k :: ConcludedAt(acts, k, g, r)
  }

  /** A loss, a refusal or an interruption, which no provider said. */
  predicate Own(code: string) {
    code in {LOST, INTERRUPTED, REFUSED, "CREDENTIALS_UNAVAILABLE", "CREDENTIAL_OPERATION_FORBIDDEN"}
  }

  ghost predicate Explained(acts: seq<Act>, g: Id, r: Response) {
    Own(r.code) || Concluded(acts, g, r)
  }

  function ResultOf(p: Phase): Option<Response> {
    match p
    case Unwinding(_, result) => result
    case LeaseEnded(_, result) => result
    case Cleared(_, result) => result
    case Finishing(result) => result
    case _ => None
  }

  ghost predicate ResultsExplained(acts: seq<Act>) {
    var w := After(acts);
    (forall o | o in w.ops :: ResultOf(w.ops[o].phase).Some? ==>
       Explained(acts, w.ops[o].grant.grantId, ResultOf(w.ops[o].phase).value)) &&
    forall g | g in w.db.grants :: w.db.grants[g].Done? ==> Explained(acts, g, w.db.grants[g].response)
  }

  lemma ExplainedStays(acts: seq<Act>, act: Act, g: Id, r: Response)
    requires Explained(acts, g, r)
    ensures Explained(acts + [act], g, r)
  {
    if !Own(r.code) {
      var k: nat :| ConcludedAt(acts, k, g, r);
      assert (acts + [act])[..k] == acts[..k];
      assert ConcludedAt(acts + [act], k, g, r);
    }
  }

  /** A step gives an operation a result only of its own, or by concluding; it completes with what it had. */
  lemma StepExplains(w: World, act: Act, o: Id)
    requires o in Apply(w, act).ops && ResultOf(Apply(w, act).ops[o].phase).Some?
    ensures var r := ResultOf(Apply(w, act).ops[o].phase).value;
            Own(r.code) ||
            (o in w.ops && w.ops[o].grant == Apply(w, act).ops[o].grant &&
             (ResultOf(w.ops[o].phase) == Some(r) ||
              (act.Conclude? && act.op == o && In(w, o) && act.code == Some(r.code) &&
               w.ops[o].phase == Executing(r.workspace) && w.ops[o].grant.requestId == r.requestId)))
  {}

  lemma CompletionExplains(w: World, act: Act, g: Id)
    requires g in Apply(w, act).db.grants && Apply(w, act).db.grants[g].Done?
    ensures var r := Apply(w, act).db.grants[g].response;
            Own(r.code) || (g in w.db.grants && w.db.grants[g] == Done(r)) ||
            exists o :: o in w.ops && w.ops[o].grant.grantId == g && ResultOf(w.ops[o].phase) == Some(r)
  {}

  lemma {:induction false} EveryResultIsExplained(acts: seq<Act>)
    ensures ResultsExplained(acts)
  {
    if acts != [] {
      var before, act := acts[..|acts| - 1], acts[|acts| - 1];
      var w, x := After(before), After(acts);
      EveryResultIsExplained(before);
      assert acts == before + [act];
      forall o | o in x.ops && ResultOf(x.ops[o].phase).Some?
        ensures Explained(acts, x.ops[o].grant.grantId, ResultOf(x.ops[o].phase).value)
      {
        var r := ResultOf(x.ops[o].phase).value;
        StepExplains(w, act, o);
        if !Own(r.code) {
          if ResultOf(w.ops[o].phase) == Some(r) { ExplainedStays(before, act, w.ops[o].grant.grantId, r); }
          else { assert ConcludedAt(acts, |before|, w.ops[o].grant.grantId, r); }
        }
      }
      forall g | g in x.db.grants && x.db.grants[g].Done? ensures Explained(acts, g, x.db.grants[g].response) {
        var r := x.db.grants[g].response;
        CompletionExplains(w, act, g);
        if !Own(r.code) { ExplainedStays(before, act, g, r); }
      }
    }
  }

  /**
   A recorded response is what the provider of that grant concluded with, for its request and workspace, if
   it is not a loss, a refusal or an interruption.
   */
  lemma ResponsesWereConcluded(acts: seq<Act>, g: Id)
    requires g in After(acts).db.grants && After(acts).db.grants[g].Done?
    ensures Own(After(acts).db.grants[g].response.code) || Concluded(acts, g, After(acts).db.grants[g].response)
  {
    EveryResultIsExplained(acts);
  }

  // ---- Directories that vanish underneath an operation ------------------------------------

  /** The operation under the grant is past its check of a directory that exists, or did, and has yet to run. */
  predicate Checked(op: Op, g: Id, id: Id) {
    op.grant.grantId == g && Inside(op, id) && !op.phase.Registered?
  }

  ghost predicate Underway(w: World, g: Id, id: Id) {
    exists o :: o in w.ops && Checked(w.ops[o], g, id)
  }

  ghost predicate VanishedAt(acts: seq<Act>, k: nat, g: Id, id: Id) {
    k < |acts| && acts[k] == Vanish(id) && Underway(After(acts[..k]), g, id)
  }

  /** At some point the directory vanished while the grant's operation was between its check and its run. */
  ghost predicate Vanished(acts: seq<Act>, g: Id, id: Id) {
    exists k :: VanishedAt(acts, k, g, id)
  }

  lemma VanishedBefore(acts: seq<Act>, g: Id, id: Id)
    requires acts != []
    ensures var before, act := acts[..|acts| - 1], acts[|acts| - 1];
            Vanished(acts, g, id) <==> Vanished(before, g, id) || (act == Vanish(id) && Underway(After(before), g, id))
  {
    var before, act := acts[..|acts| - 1], acts[|acts| - 1];
    if k: nat :| VanishedAt(acts, k, g, id) {
      if k < |before| {
        assert before[..k] == acts[..k];
        assert VanishedAt(before, k, g, id);
      } else {
        assert acts[..k] == before;
      }
    }
    if k: nat :| VanishedAt(before, k, g, id) {
      assert before[..k] == acts[..k];
      assert VanishedAt(acts, k, g, id);
    }
    if act == Vanish(id) && Underway(After(before), g, id) { assert VanishedAt(acts, |before|, g, id); }
  }

  /** What became of an operation whose directory vanished underneath it. */
  ghost predicate Bereft(w: World, g: Id, id: Id) {
    g in Ran(w.runs) || Gone(w, id) || (Underway(w, g, id) && id !in w.directories)
  }

  /** In a workspace that `o` works in, nobody else does. */
  lemma AloneIn(w: World, o: Id, p: Id, id: Id)
    requires Sound(w) && o in w.ops && p in w.ops && Works(w.ops[o].phase) && Works(w.ops[p].phase)
    requires w.ops[o].phase.workspace == id && w.ops[p].phase.workspace == id
    ensures o == p
  {
    assert OpAt(w, o) && OpAt(w, p) && Apart(w, o, p);
  }

  lemma LeavingLosesIt(w: World, x: World, o: Id, g: Id, id: Id)
    requires Sound(w) && Sound(x) && o in w.ops && Checked(w.ops[o], g, id) && SameIds(w.db, x.db) && id in x.known
    requires id !in x.directories && forall p | p in x.ops :: Near(x.ops[p], id) ==> p in w.ops && Near(w.ops[p], id)
    requires o in x.ops ==> !Near(x.ops[o], id)
    ensures Gone(x, id)
  {
    var s := w.ops[o].grant.scope;
    assert OpAt(w, o);
    assert x.db.workspaces[s].id == id;
    forall p | p in x.ops ensures !Near(x.ops[p], id) {
      if Near(x.ops[p], id) { AloneIn(w, o, p, id); }
    }
  }

  lemma StepLeavesOthers(w: World, act: Act, o: Id, id: Id)
    requires Sound(w) && o in w.ops && Works(w.ops[o].phase) && w.ops[o].phase.workspace == id && id !in w.directories
    requires !w.ops[o].phase.Registered? && !w.ops[o].phase.Executing?
    ensures var x := Apply(w, act);
            id !in x.directories && forall p | p in x.ops :: Near(x.ops[p], id) ==> p in w.ops && Near(w.ops[p], id)
  {
    var x := Apply(w, act);
    if id in x.directories {
      DirectoriesAreMade(w, act, id);
      AloneIn(w, o, act.op, id);
    }
    forall p | p in x.ops && Near(x.ops[p], id) ensures p in w.ops && Near(w.ops[p], id) {
      NearWasNear(w, act, p, id);
      if !Near(w.ops[p], id) { OpeningElsewhere(w, p, act.freshId, o, id); }
    }
  }

  lemma OpeningElsewhere(w: World, p: Id, freshId: Id, o: Id, id: Id)
    requires Sound(w) && In(w, p) && w.ops[p].phase.Admitted? && o in w.ops && Works(w.ops[o].phase)
    requires w.ops[o].phase.workspace == id
    ensures var x := Opening(w, p, freshId); x.directories == w.directories && (p in x.ops ==> !Near(x.ops[p], id))
  {
    assert OpAt(w, o) && Apart(w, o, p);
  }

  lemma BereftStays(w: World, act: Act, g: Id, id: Id)
    requires Sound(w) && Bereft(w, g, id)
    ensures Bereft(Apply(w, act), g, id)
  {
    var x := Apply(w, act);
    ApplyKeeps(w, act);
    OpStepLasts(w, act);
    RecoveryLasts(w, act);
    if g in Ran(w.runs) {
      RanStays(w.runs, x.runs, g);
    } else if Gone(w, id) {
      GoneStaysGone(w, act, id);
    } else {
      var o :| o in w.ops && Checked(w.ops[o], g, id);
      assert OpAt(w, o);
      StepLeavesOthers(w, act, o, id);
      if act == Execute(o) && In(w, o) && MayExecute(w.ops[o]) {
        RanGrows(w.runs, x.runs[|w.runs|]);
      } else if o in x.ops && Near(x.ops[o], id) {
        NearStaysChecked(w, act, o, g, id);
      } else {
        LeavingLosesIt(w, x, o, g, id);
      }
    }
  }

  lemma RanStays(runs: seq<ProviderRun>, more: seq<ProviderRun>, g: Id)
    requires runs <= more && g in Ran(runs)
    ensures g in Ran(more)
  {
    var i :| 0 <= i < |runs| && runs[i].grantId == g;
    assert more[i].grantId == g;
  }

  lemma NearStaysChecked(w: World, act: Act, o: Id, g: Id, id: Id)
    requires o in w.ops && Checked(w.ops[o], g, id) && o in Apply(w, act).ops && Near(Apply(w, act).ops[o], id)
    requires !(act == Execute(o) && In(w, o) && MayExecute(w.ops[o]))
    ensures Checked(Apply(w, act).ops[o], g, id)
  {}

  lemma {:induction false} VanishedIsBereft(acts: seq<Act>, g: Id, id: Id)
    requires Vanished(acts, g, id)
    ensures Bereft(After(acts), g, id)
  {
    if acts != [] {
      var before, act := acts[..|acts| - 1], acts[|acts| - 1];
      VanishedBefore(acts, g, id);
      EveryHistoryIsSound(before);
      if Vanished(before, g, id) {
        VanishedIsBereft(before, g, id);
        BereftStays(After(before), act, g, id);
      } else {
        var o :| o in After(before).ops && Checked(After(before).ops[o], g, id);
        assert o in After(acts).ops && Checked(After(acts).ops[o], g, id);
      }
    }
  }

  lemma StillChecked(w: World, act: Act, o: Id, g: Id, id: Id)
    requires act != Vanish(id) && id !in Apply(w, act).directories
    requires o in Apply(w, act).ops && Checked(Apply(w, act).ops[o], g, id)
    ensures id !in w.directories && o in w.ops && Checked(w.ops[o], g, id)
  {}

  lemma {:induction false} MissingHasVanished(acts: seq<Act>, o: Id, g: Id, id: Id)
    requires o in After(acts).ops && Checked(After(acts).ops[o], g, id) && id !in After(acts).directories
    ensures Vanished(acts, g, id)
  {
    if acts != [] {
      var before, act := acts[..|acts| - 1], acts[|acts| - 1];
      VanishedBefore(acts, g, id);
      if act == Vanish(id) {
        assert Checked(After(before).ops[o], g, id);
      } else {
        StillChecked(After(before), act, o, g, id);
        MissingHasVanished(before, o, g, id);
      }
    }
  }

  /**
   A provider runs in a missing directory exactly if the directory vanished between that operation's
   own check and its run: the check is not repeated after the lease is redeemed.
   */
  lemma {:induction false} MissingExactlyIfItVanished(acts: seq<Act>, i: nat)
    requires i < |After(acts).runs|
    ensures var run := After(acts).runs[i];
            !run.present <==> Vanished(acts, run.grantId, run.workspace)
  {
    var before, act := acts[..|acts| - 1], acts[|acts| - 1];
    var w, run := After(before), After(acts).runs[i];
    EveryHistoryIsSound(before);
    VanishedBefore(acts, run.grantId, run.workspace);
    if i < |w.runs| {
      RunsAppend(w, act);
      MissingExactlyIfItVanished(before, i);
      RanAt(w.runs, i);
      if Underway(w, run.grantId, run.workspace) {
        var o :| o in w.ops && Checked(w.ops[o], run.grantId, run.workspace);
        assert OpAt(w, o);
      }
    } else {
      RunBegins(w, act);
      var o := act.op;
      assert OpAt(w, o) && Checked(w.ops[o], run.grantId, run.workspace);
      if run.workspace !in w.directories { MissingHasVanished(before, o, run.grantId, run.workspace); }
      if Vanished(before, run.grantId, run.workspace) {
        VanishedIsBereft(before, run.grantId, run.workspace);
      }
    }
  }

  lemma AfterOne(acts: seq<Act>, act: Act)
    ensures After(acts + [act]) == Apply(After(acts), act)
  {
    assert (acts + [act])[..|acts|] == acts;
  }

  /** Up to the operation's check of its workspace, which it has just made. */
  lemma FirstOpening(grant: Grant, id: Id) returns (acts: seq<Act>)
    ensures After(acts) == Empty.(db := Db(map[grant.grantId := Claimed(None)], map[grant.scope := Workspace(id, Ready)], map[]),
                                  mode := Serving, busy := {grant.scope}, ops := map[0 := Op(grant, Opened(id))],
                                  known := {id}, directories := {id})
  {
    acts := FirstServing();
    var w := Empty.(mode := Serving);
    AfterOne(acts, Admit(0, grant));
    acts := acts + [Admit(0, grant)];
    w := w.(db := w.db.(grants := map[grant.grantId := Claimed(None)]), busy := {grant.scope}, ops := map[0 := Op(grant, Admitted)]);
    assert After(acts) == w;
    AfterOne(acts, OpenWorkspace(0, id));
    acts := acts + [OpenWorkspace(0, id)];
    w := w.(db := w.db.(workspaces := map[grant.scope := Workspace(id, Ready)]), known := {id}, ops := map[0 := Op(grant, Registered(id))]);
    assert After(acts) == w;
    AfterOne(acts, MakeDirectory(0));
    acts := acts + [MakeDirectory(0)];
  }

  lemma FirstServing() returns (acts: seq<Act>)
    ensures After(acts) == Empty.(mode := Serving)
  {
    acts := [];
    AfterOne(acts, Restart);
    acts := acts + [Restart];
    AfterOne(acts, LeasesEnded);
    acts := acts + [LeasesEnded];
    AfterOne(acts, Serve);
    acts := acts + [Serve];
  }

  lemma FirstMarked(grant: Grant, id: Id) returns (acts: seq<Act>)
    requires grant.lease.None?
    ensures var w := After(acts);
            In(w, 0) && w.ops[0] == Op(grant, Marked(id)) && w.runs == []
  {
    acts := FirstOpening(grant, id);
    AfterOne(acts, Bind(0, true));
    acts := acts + [Bind(0, true)];
    AfterOne(acts, Mark(0));
    acts := acts + [Mark(0)];
  }

  /** It does happen, under any grant without a lease: the directory vanishes after the check, and the provider runs. */
  lemma VanishedUnderneath(grant: Grant, id: Id)
    requires grant.lease.None?
    ensures exists acts :: After(acts).runs == [ProviderRun(grant.grantId, id, false)]
  {
    var acts := FirstMarked(grant, id);
    AfterOne(acts, Vanish(id));
    acts := acts + [Vanish(id)];
    assert In(After(acts), 0) && After(acts).ops[0] == Op(grant, Marked(id)) && id !in After(acts).directories;
    AfterOne(acts, Execute(0));
    acts := acts + [Execute(0)];
    assert After(acts).runs == [ProviderRun(grant.grantId, id, false)];
  }
}
