/**
 The three protocols together: hosts executing one run, the gateway they ask, and the execution
 runtime the grants go to, interleaved in any way and crashing independently. The gateway is asked
 about the run only under requests its hosts sent; the runtime admits only grants the gateway signed.
 */
module EndToEnd {
  import opened Wrappers
  import Kernel
  import Checkpoints
  import RunProtocol
  import Gateway = ActionGateway
  import GatewayHistory
  import GatewayTheorems
  import GatewayPermissions
  import Execution = ExecutionRuntime
  import ExecutionHistory

  /** What the composed system depends on: the run's limits and prompt, and the gateway's patience. */
  datatype Setting = Setting(maxTurns: nat, prompt: string, run: nat, stale: nat)

  datatype Act =
    | HostAct(host: RunProtocol.Act)
    | GatewayAct(gateway: GatewayHistory.Act)
    | RuntimeAct(runtime: Execution.Act)

  /** What has happened at each of the three. */
  datatype System = System(
    hosts: seq<RunProtocol.Act>, gateway: seq<GatewayHistory.Act>, runtime: seq<Execution.Act>)

  function Hosts(e: Setting, s: System): RunProtocol.World {
    RunProtocol.Run(e.maxTurns, e.prompt, s.hosts)
  }

  function Control(e: Setting, s: System): GatewayHistory.World {
    GatewayHistory.After(e.stale, s.gateway)
  }

  function Runtime(s: System): Execution.World {
    Execution.After(s.runtime)
  }

  ghost predicate AskedAt(e: Setting, s: System, p: Checkpoints.Position, r: nat) {
    RunProtocol.Ask(p, r) in Hosts(e, s).asked
  }

  /** Only the run's own hosts ask about the run, under the requests they recorded. */
  ghost predicate Sent(e: Setting, s: System, act: GatewayHistory.Act) {
    act.AskAction? && act.q.run == e.run ==> exists p :: AskedAt(e, s, p, act.q.requestId)
  }

  /** The grant was signed by the gateway for that request. */
  predicate Signed(db: Gateway.Db, requestId: nat, grantId: nat) {
    requestId in db.grants && db.grants[requestId].grantId == grantId
  }

  ghost predicate Admissible(e: Setting, s: System, act: Execution.Act) {
    act.Admit? ==> Signed(Control(e, s).db, act.grant.requestId, act.grant.grantId)
  }

  ghost function Step(e: Setting, s: System, act: Act): System {
    match act
    case HostAct(a) => s.(hosts := s.hosts + [a])
    case GatewayAct(a) => if Sent(e, s, a) then s.(gateway := s.gateway + [a]) else s
    case RuntimeAct(a) => if Admissible(e, s, a) then s.(runtime := s.runtime + [a]) else s
  }

  ghost function History(e: Setting, acts: seq<Act>): System {
    if acts == [] then System([], [], []) else Step(e, History(e, acts[..|acts| - 1]), acts[|acts| - 1])
  }

  // ---- What stays --------------------------------------------------------------------------

  ghost predicate IssuedFor(db: Gateway.Db, grantId: nat) {
    exists r: nat :: Signed(db, r, grantId)
  }

  /** Requests of the run have positions. */
  ghost predicate Positioned(run: nat, asked: set<RunProtocol.Ask>, db: Gateway.Db) {
    forall r | r in db.requests && db.requests[r].run == run :: exists p :: RunProtocol.Ask(p, r) in asked
  }

  /** Everything the execution runtime holds or ran was signed. */
  ghost predicate Granted(db: Gateway.Db, w: Execution.World) {
    (forall o | o in w.ops :: IssuedFor(db, w.ops[o].grant.grantId)) &&
    (forall g | g in ExecutionHistory.Ran(w.runs) :: IssuedFor(db, g))
  }

  ghost predicate Linked(e: Setting, s: System) {
    Positioned(e.run, Hosts(e, s).asked, Control(e, s).db) && Granted(Control(e, s).db, Runtime(s))
  }

  lemma GatewayActLinks(stale: nat, run: nat, asked: set<RunProtocol.Ask>, w: GatewayHistory.World,
                        a: GatewayHistory.Act, x: Execution.World)
    requires Positioned(run, asked, w.db) && Granted(w.db, x)
    requires a.AskAction? && a.q.run == run ==> exists p :: RunProtocol.Ask(p, a.q.requestId) in asked
    ensures Positioned(run, asked, GatewayHistory.Apply(stale, w, a).db) && Granted(GatewayHistory.Apply(stale, w, a).db, x)
  {
    var after := GatewayHistory.Apply(stale, w, a).db;
    GatewayPermissions.NewRequestsWereAsked(stale, w, a);
    forall g | IssuedFor(w.db, g) ensures IssuedFor(after, g) {
      var r: nat :| Signed(w.db, r, g);
      GatewayPermissions.GrantsStand(stale, w, a, r);
      assert Signed(after, r, g);
    }
  }

  lemma RuntimeActLinks(db: Gateway.Db, w: Execution.World, a: Execution.Act)
    requires Granted(db, w) && (a.Admit? ==> Signed(db, a.grant.requestId, a.grant.grantId))
    ensures Granted(db, Execution.Apply(w, a))
  {
    ExecutionHistory.NewWorkWasAdmitted(w, a);
    forall g | g in ExecutionHistory.Ran(Execution.Apply(w, a).runs) ensures IssuedFor(db, g) {
      if g !in ExecutionHistory.Ran(w.runs) {
        var o :| o in w.ops && w.ops[o].grant.grantId == g;
      }
    }
  }

  lemma AsksStand(maxTurns: nat, prompt: string, w: RunProtocol.World, a: RunProtocol.Act)
    ensures w.asked <= RunProtocol.Apply(maxTurns, prompt, w, a).asked
  {}

  lemma StepLinks(e: Setting, s: System, act: Act)
    requires Linked(e, s)
    ensures Linked(e, Step(e, s, act))
  {
    var x := Step(e, s, act);
    match act {
      case HostAct(a) =>
        assert x.hosts[..|s.hosts|] == s.hosts;
        assert Hosts(e, x) == RunProtocol.Apply(e.maxTurns, e.prompt, Hosts(e, s), a);
        AsksStand(e.maxTurns, e.prompt, Hosts(e, s), a);
      case GatewayAct(a) =>
        if Sent(e, s, a) {
          assert x.gateway[..|s.gateway|] == s.gateway;
          assert Control(e, x) == GatewayHistory.Apply(e.stale, Control(e, s), a);
          GatewayActLinks(e.stale, e.run, Hosts(e, s).asked, Control(e, s), a, Runtime(s));
        }
      case RuntimeAct(a) =>
        if Admissible(e, s, a) {
          assert x.runtime[..|s.runtime|] == s.runtime;
          assert Runtime(x) == Execution.Apply(Runtime(s), a);
          RuntimeActLinks(Control(e, s).db, Runtime(s), a);
        }
    }
  }

  lemma {:induction false} EveryHistoryIsLinked(e: Setting, acts: seq<Act>)
    ensures Linked(e, History(e, acts))
  {
    if acts != [] {
      EveryHistoryIsLinked(e, acts[..|acts| - 1]);
      StepLinks(e, History(e, acts[..|acts| - 1]), acts[|acts| - 1]);
    }
  }

  // ---- The theorems -----------------------------------------------------------------------

  /** The `i`-th connector call of the whole history is for the tool call at position `p` of the run. */
  ghost predicate CallsFor(e: Setting, s: System, i: nat, p: Checkpoints.Position) {
    i < |Control(e, s).calls| && AskedAt(e, s, p, Control(e, s).calls[i].requestId)
  }

  /** The `i`-th provider run is under a grant for the tool call at position `p`. */
  ghost predicate RunsFor(e: Setting, s: System, i: nat, p: Checkpoints.Position) {
    i < |Runtime(s).runs| &&
    exists r: nat :: Signed(Control(e, s).db, r, Runtime(s).runs[i].grantId) && AskedAt(e, s, p, r)
  }

  /** Each tool-call position causes at most one connector call, whatever crashes, retries or takes over. */
  lemma OneConnectorCallPerPosition(e: Setting, acts: seq<Act>, i: nat, j: nat, p: Checkpoints.Position)
    requires CallsFor(e, History(e, acts), i, p) && CallsFor(e, History(e, acts), j, p)
    ensures i == j
  {
    var s := History(e, acts);
    var a, b := Control(e, s).calls[i].requestId, Control(e, s).calls[j].requestId;
    RunProtocol.OneRequestPerPosition(e.maxTurns, e.prompt, s.hosts, RunProtocol.Ask(p, a), RunProtocol.Ask(p, b));
    GatewayTheorems.OneCallPerRequest(e.stale, s.gateway, i, j);
  }

  /** And at most one provider execution. */
  lemma OneProviderRunPerPosition(e: Setting, acts: seq<Act>, i: nat, j: nat, p: Checkpoints.Position)
    requires RunsFor(e, History(e, acts), i, p) && RunsFor(e, History(e, acts), j, p)
    ensures i == j
  {
    var s := History(e, acts);
    var a: nat :| Signed(Control(e, s).db, a, Runtime(s).runs[i].grantId) && AskedAt(e, s, p, a);
    var b: nat :| Signed(Control(e, s).db, b, Runtime(s).runs[j].grantId) && AskedAt(e, s, p, b);
    RunProtocol.OneRequestPerPosition(e.maxTurns, e.prompt, s.hosts, RunProtocol.Ask(p, a), RunProtocol.Ask(p, b));
    ExecutionHistory.OneProviderRunPerGrant(s.runtime, i, j);
  }

  /** Nothing happens outside this account: every call made for the run has a position of its own. */
  lemma EveryCallHasAPosition(e: Setting, acts: seq<Act>, i: nat)
    requires i < |Control(e, History(e, acts)).calls| && Control(e, History(e, acts)).calls[i].run == e.run
    ensures exists p :: CallsFor(e, History(e, acts), i, p)
  {
    var s := History(e, acts);
    EveryHistoryIsLinked(e, acts);
    GatewayTheorems.OneCallPerRequest(e.stale, s.gateway, i, i);
    var r := Control(e, s).calls[i].requestId;
    var p :| RunProtocol.Ask(p, r) in Hosts(e, s).asked;
    assert CallsFor(e, s, i, p);
  }

  /** Every provider run is under a signed grant, and if that is for the run, it has a position too. */
  lemma EveryProviderRunIsGranted(e: Setting, acts: seq<Act>, i: nat)
    requires i < |Runtime(History(e, acts)).runs|
    ensures var s := History(e, acts);
            exists r: nat :: Signed(Control(e, s).db, r, Runtime(s).runs[i].grantId) && r in Control(e, s).db.requests &&
                             (Control(e, s).db.requests[r].run == e.run ==> exists p :: RunsFor(e, s, i, p))
  {
    var s := History(e, acts);
    EveryHistoryIsLinked(e, acts);
    ExecutionHistory.RanAt(Runtime(s).runs, i);
    var r: nat :| Signed(Control(e, s).db, r, Runtime(s).runs[i].grantId);
    GatewayPermissions.OneGrantPerRequest(e.stale, s.gateway, r, r);
    if Control(e, s).db.requests[r].run == e.run {
      var p :| RunProtocol.Ask(p, r) in Hosts(e, s).asked;
      assert AskedAt(e, s, p, r);
      assert RunsFor(e, s, i, p);
    }
  }
}
