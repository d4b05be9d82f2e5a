/**
 Pilot readiness: each capability gets a status from test outcomes, live proofs and limitations.
 The assessment collects reasons in loops; the specification says what the reasons amount to.
 */
module Readiness {
  import opened Wrappers

  datatype Status = Red | Amber | Green
  datatype TestStatus = Failed | Skipped | Passed
  datatype ProofOutcome = Missing | Proof(status: TestStatus)
  datatype LiveStatus = NotRun | LiveFailed | LivePassed
  datatype Severity = Blocking | Accepted | Informational

  datatype TestOutcome = TestOutcome(file: string, title: string, ancestors: seq<string>, status: TestStatus)
  datatype NamedProof = NamedProof(file: string, test: string)
  datatype Suite = Suite(file: string, describe: string, minimum: nat)
  datatype Limitation = Limitation(id: string, severity: Severity, resolvedBy: Option<string>)

  datatype Capability = Capability(
    id: string, minimum: Status, proofs: seq<NamedProof>, suites: seq<Suite>, operational: seq<NamedProof>,
    live: seq<string>, limitations: seq<string>)

  datatype Assessment = Assessment(capabilities: seq<Capability>, limitations: seq<Limitation>, liveProofs: seq<string>)

  function Rank(s: Status): nat {
    match s case Red => 0 case Amber => 1 case Green => 2
  }

  function TestRank(s: TestStatus): nat {
    match s case Failed => 0 case Skipped => 1 case Passed => 2
  }

  // ---- What the outcomes show -------------------------------------------------------------

  predicate Matches(t: TestOutcome, proof: NamedProof) {
    t.file == proof.file && t.title == proof.test
  }

  /** The worst of what the tests of that name came to. */
  function Resolve(outcomes: seq<TestOutcome>, proof: NamedProof): ProofOutcome {
    if !exists t | t in outcomes :: Matches(t, proof) then Missing
    else if exists t | t in outcomes :: Matches(t, proof) && t.status == Failed then Proof(Failed)
    else if forall t | t in outcomes && Matches(t, proof) :: t.status == Passed then Proof(Passed)
    else Proof(Skipped)
  }

  predicate Belongs(t: TestOutcome, suite: Suite) {
    t.file == suite.file && suite.describe in t.ancestors
  }

  function Tests(outcomes: seq<TestOutcome>, suite: Suite): nat {
    if outcomes == [] then 0 else (if Belongs(outcomes[0], suite) then 1 else 0) + Tests(outcomes[1..], suite)
  }

  function PassedTests(outcomes: seq<TestOutcome>, suite: Suite): nat {
    if outcomes == [] then 0
    else (if Belongs(outcomes[0], suite) && outcomes[0].status == Passed then 1 else 0) + PassedTests(outcomes[1..], suite)
  }

  predicate SuiteProven(outcomes: seq<TestOutcome>, suite: Suite) {
    PassedTests(outcomes, suite) == Tests(outcomes, suite) && PassedTests(outcomes, suite) >= suite.minimum
  }

  // ---- Live proofs ------------------------------------------------------------------------

  /** What a validation or smoke run against the pilot recorded. */
  datatype Record = Record(generatedAt: int, commit: Option<string>, proofs: map<string, LiveStatus>)

  const MAX_AGE_MS := 7 * 24 * 60 * 60 * 1000
  const CLOCK_SKEW_MS := 60_000

  predicate Ran(r: Record, id: string) {
    id in r.proofs && r.proofs[id] != NotRun
  }

  /** Of this very commit, at most a week old, and not from the future but for a minute. */
  predicate Current(r: Record, commit: Option<string>, now: int) {
    commit.Some? && commit.value != "" && r.commit == commit &&
    now - r.generatedAt <= MAX_AGE_MS && r.generatedAt <= now + CLOCK_SKEW_MS
  }

  /** A record counts for a week, for its commit only; clocks may differ by a minute. */
  lemma RecordsCountForAWeek(r: Record, commit: Option<string>, now: int)
    ensures Current(r, commit, now) <==>
            commit.Some? && commit.value != "" && r.commit == commit && -60_000 <= now - r.generatedAt <= 604_800_000
  {}

  /** Newest first; equally old records keep their order. */
  function InsertByAge(r: Record, sorted: seq<Record>): seq<Record> {
    if sorted == [] || sorted[0].generatedAt <= r.generatedAt then [r] + sorted
    else [sorted[0]] + InsertByAge(r, sorted[1..])
  }

  function NewestFirst(records: seq<Record>): seq<Record> {
    if records == [] then [] else InsertByAge(records[0], NewestFirst(records[1..]))
  }

  function FirstCurrent(ordered: seq<Record>, id: string, commit: Option<string>, now: int): Option<Record> {
    if ordered == [] then None
    else if Ran(ordered[0], id) && Current(ordered[0], commit, now) then Some(ordered[0])
    else FirstCurrent(ordered[1..], id, commit, now)
  }

  function LiveProofResult(records: seq<Record>, id: string, commit: Option<string>, now: int): LiveStatus {
    match FirstCurrent(NewestFirst(records), id, commit, now)
    case None => NotRun
    case Some(r) => if id in r.proofs then r.proofs[id] else NotRun
  }

  predicate ByAge(s: seq<Record>) {
    forall i, j | 0 <= i < j < |s| :: s[j].generatedAt <= s[i].generatedAt
  }

  lemma {:induction false} InsertKeepsAge(r: Record, sorted: seq<Record>)
    requires ByAge(sorted)
    ensures ByAge(InsertByAge(r, sorted))
    ensures forall x :: x in InsertByAge(r, sorted) <==> x == r || x in sorted
  {
    if sorted != [] && !(sorted[0].generatedAt <= r.generatedAt) {
      InsertKeepsAge(r, sorted[1..]);
      assert sorted == [sorted[0]] + sorted[1..];
      var tail := InsertByAge(r, sorted[1..]);
      forall j | 0 <= j < |tail| ensures tail[j].generatedAt <= sorted[0].generatedAt { assert tail[j] in tail; }
    }
  }

  lemma {:induction false} NewestFirstIsSorted(records: seq<Record>)
    ensures ByAge(NewestFirst(records))
    ensures forall x :: x in NewestFirst(records) <==> x in records
  {
    if records != [] {
      NewestFirstIsSorted(records[1..]);
      InsertKeepsAge(records[0], NewestFirst(records[1..]));
      assert records == [records[0]] + records[1..];
    }
  }

  lemma {:induction false} FirstCurrentIsNewest(s: seq<Record>, id: string, commit: Option<string>, now: int)
    requires ByAge(s)
    ensures var found := FirstCurrent(s, id, commit, now);
            if found.None? then forall r | r in s :: !(Ran(r, id) && Current(r, commit, now))
            else found.value in s && Ran(found.value, id) && Current(found.value, commit, now) &&
                 forall r | r in s && Ran(r, id) && Current(r, commit, now) :: r.generatedAt <= found.value.generatedAt
  {
    if s != [] {
      FirstCurrentIsNewest(s[1..], id, commit, now);
      assert s == [s[0]] + s[1..];
      if !(Ran(s[0], id) && Current(s[0], commit, now)) {
      } else {
        forall r | r in s ensures r.generatedAt <= s[0].generatedAt {}
      }
    }
  }

  /** A live proof is what the newest current record that ran it says, and did not run if there is none. */
  lemma LiveProofsAreCurrent(records: seq<Record>, id: string, commit: Option<string>, now: int)
    ensures LiveProofResult(records, id, commit, now) == NotRun <==>
            forall r | r in records :: !(Ran(r, id) && Current(r, commit, now))
    ensures LiveProofResult(records, id, commit, now) != NotRun ==>
            exists r :: r in records && Ran(r, id) && Current(r, commit, now) &&
                        r.proofs[id] == LiveProofResult(records, id, commit, now) &&
                        forall other | other in records && Ran(other, id) && Current(other, commit, now) ::
                          other.generatedAt <= r.generatedAt
  {
    NewestFirstIsSorted(records);
    FirstCurrentIsNewest(NewestFirst(records), id, commit, now);
  }

  /** A live proof's status; a proof nobody defined has none. */
  type Live = map<string, LiveStatus>

  predicate IsPassed(live: Live, id: string) {
    id in live && live[id].LivePassed?
  }

  predicate Names(limitations: seq<Limitation>, id: string) {
    exists l | l in limitations :: l.id == id
  }

  /** The live proof that resolves the limitation, if it names one, passed. */
  predicate Closed(live: Live, l: Limitation) {
    l.resolvedBy.Some? && IsPassed(live, l.resolvedBy.value)
  }

  /** The capability names the limitation and it still applies. */
  predicate OpenFor(a: Assessment, live: Live, c: Capability, l: Limitation) {
    l in a.limitations && l.id in c.limitations && !Closed(live, l)
  }

  // ---- The specification of a capability's status -----------------------------------------

  predicate HasReason(a: Assessment, outcomes: seq<TestOutcome>, live: Live, c: Capability) {
    c.proofs == [] ||
    (exists p | p in c.proofs :: Resolve(outcomes, p) != Proof(Passed)) ||
    (exists s | s in c.suites :: !SuiteProven(outcomes, s)) ||
    (exists l | l in a.limitations :: OpenFor(a, live, c, l) && l.severity == Blocking) ||
    (exists p | p in c.operational :: Resolve(outcomes, p) in {Missing, Proof(Failed)})
  }

  predicate NotExercised(outcomes: seq<TestOutcome>, c: Capability) {
    exists p | p in c.operational :: Resolve(outcomes, p) == Proof(Skipped)
  }

  predicate HasOpen(a: Assessment, live: Live, c: Capability) {
    exists l | l in a.limitations :: OpenFor(a, live, c, l)
  }

  function CodeStatus(a: Assessment, outcomes: seq<TestOutcome>, live: Live, c: Capability): Status {
    if HasReason(a, outcomes, live, c) then Red
    else if NotExercised(outcomes, c) || HasOpen(a, live, c) || c.live != [] then Amber
    else Green
  }

  function StatusOf(a: Assessment, outcomes: seq<TestOutcome>, live: Live, c: Capability): Status {
    if HasReason(a, outcomes, live, c) || (exists id | id in c.live :: id in live && live[id] == LiveFailed) then Red
    else if NotExercised(outcomes, c) || (exists id | id in c.live :: id in live && live[id] == NotRun) ||
            (exists l | l in a.limitations :: OpenFor(a, live, c, l) && l.severity == Accepted)
    then Amber
    else Green
  }

  predicate CodeMeets(a: Assessment, outcomes: seq<TestOutcome>, live: Live, c: Capability) {
    CodeStatus(a, outcomes, live, c) != Red && Rank(CodeStatus(a, outcomes, live, c)) >= Rank(c.minimum)
  }

  predicate Distinct<T(==)>(s: seq<T>) {
    forall i, j | 0 <= i < j < |s| :: s[i] != s[j]
  }

  function LimitationIds(s: seq<Limitation>): seq<string> {
    if s == [] then [] else [s[0].id] + LimitationIds(s[1..])
  }

  function CapabilityIds(s: seq<Capability>): seq<string> {
    if s == [] then [] else [s[0].id] + CapabilityIds(s[1..])
  }

  /** The assessment itself is coherent: ids are unique and every id it names is defined. */
  predicate Coherent(a: Assessment) {
    Distinct(LimitationIds(a.limitations)) && Distinct(a.liveProofs) && Distinct(CapabilityIds(a.capabilities)) &&
    (forall l | l in a.limitations && l.resolvedBy.Some? :: l.resolvedBy.value in a.liveProofs) &&
    (forall c | c in a.capabilities :: forall id | id in c.limitations :: Names(a.limitations, id)) &&
    (forall c | c in a.capabilities :: forall id | id in c.live :: id in a.liveProofs)
  }

  predicate CodeProofsPassed(a: Assessment, outcomes: seq<TestOutcome>, live: Live) {
    Coherent(a) && forall c | c in a.capabilities :: CodeMeets(a, outcomes, live, c)
  }

  predicate OperationalProofsPassed(a: Assessment, live: Live) {
    forall id | id in a.liveProofs :: IsPassed(live, id)
  }

  predicate Ready(a: Assessment, outcomes: seq<TestOutcome>, live: Live) {
    CodeProofsPassed(a, outcomes, live) && OperationalProofsPassed(a, live) &&
    forall c | c in a.capabilities :: StatusOf(a, outcomes, live, c) != Red
  }

  // ---- What a status means ----------------------------------------------------------------

  predicate Named(outcomes: seq<TestOutcome>, p: NamedProof, status: TestStatus) {
    exists t | t in outcomes :: t.file == p.file && t.title == p.test && t.status == status
  }

  /** A test of that name passed, and none failed or was skipped. */
  predicate Proven(outcomes: seq<TestOutcome>, p: NamedProof) {
    Named(outcomes, p, Passed) && !Named(outcomes, p, Skipped) && !Named(outcomes, p, Failed)
  }

  lemma ResolutionIs(outcomes: seq<TestOutcome>, p: NamedProof)
    ensures Resolve(outcomes, p) == Proof(Passed) <==> Proven(outcomes, p)
    ensures Resolve(outcomes, p) == Proof(Failed) <==> Named(outcomes, p, Failed)
    ensures Resolve(outcomes, p) == Proof(Skipped) <==> Named(outcomes, p, Skipped) && !Named(outcomes, p, Failed)
    ensures Resolve(outcomes, p).Missing? <==> forall t | t in outcomes :: t.file == p.file ==> t.title != p.test
  {
    if t :| t in outcomes && Matches(t, p) { assert t.status == Failed || t.status == Skipped || t.status == Passed; }
  }

  /** Every test under the suite's heading passed, and there are enough of them. */
  predicate SuitePasses(outcomes: seq<TestOutcome>, suite: Suite) {
    (forall t | t in outcomes && t.file == suite.file && suite.describe in t.ancestors :: t.status == Passed) &&
    suite.minimum <= |set i: nat | i < |outcomes| && outcomes[i].file == suite.file && suite.describe in outcomes[i].ancestors|
  }

  function Under(outcomes: seq<TestOutcome>, suite: Suite): set<nat> {
    set i: nat | i < |outcomes| && outcomes[i].file == suite.file && suite.describe in outcomes[i].ancestors
  }

  lemma {:induction false} TestsAreUnder(outcomes: seq<TestOutcome>, suite: Suite)
    ensures Tests(outcomes, suite) == |Under(outcomes, suite)|
  {
    if outcomes != [] {
      var before, last := outcomes[..|outcomes| - 1], outcomes[|outcomes| - 1];
      assert outcomes == before + [last];
      TestsAreUnder(before, suite);
      TestsSplit(before, [last], suite);
      assert [last][1..] == [];
      UnderSplits(before, last, suite);
    }
  }

  lemma UnderSplits(before: seq<TestOutcome>, last: TestOutcome, suite: Suite)
    ensures |Under(before + [last], suite)| == |Under(before, suite)| + if Belongs(last, suite) then 1 else 0
  {
    var all := before + [last];
    forall i: nat ensures i in Under(all, suite) <==> i in Under(before, suite) || (i == |before| && Belongs(last, suite)) {
      if i < |before| { assert all[i] == before[i]; }
    }
    assert Under(all, suite) == Under(before, suite) + if Belongs(last, suite) then {|before|} else {};
  }

  lemma {:induction false} AllPassIf(outcomes: seq<TestOutcome>, suite: Suite)
    ensures PassedTests(outcomes, suite) <= Tests(outcomes, suite)
    ensures PassedTests(outcomes, suite) == Tests(outcomes, suite) <==>
            forall i | 0 <= i < |outcomes| && Belongs(outcomes[i], suite) :: outcomes[i].status == Passed
  {
    if outcomes != [] {
      AllPassIf(outcomes[1..], suite);
      assert forall i | 1 <= i < |outcomes| :: outcomes[i] == outcomes[1..][i - 1];
      assert forall i | 0 <= i < |outcomes| - 1 :: outcomes[1..][i] == outcomes[i + 1];
    }
  }

  lemma SuitesAreProven(outcomes: seq<TestOutcome>, suite: Suite)
    ensures SuiteProven(outcomes, suite) <==> SuitePasses(outcomes, suite)
  {
    TestsAreUnder(outcomes, suite);
    AllPassIf(outcomes, suite);
    assert Under(outcomes, suite) ==
           set i: nat | i < |outcomes| && outcomes[i].file == suite.file && suite.describe in outcomes[i].ancestors;
  }

  /** The limitation applies: it is the capability's, and no passed live proof resolves it. */
  predicate Applies(a: Assessment, live: Live, c: Capability, severity: Severity) {
    exists l | l in a.limitations ::
      l.id in c.limitations && l.severity == severity &&
      !(l.resolvedBy.Some? && l.resolvedBy.value in live && live[l.resolvedBy.value] == LivePassed)
  }

  /** The code is shown to work: everything named is proven, and nothing that blocks applies. */
  predicate Shown(a: Assessment, outcomes: seq<TestOutcome>, live: Live, c: Capability) {
    c.proofs != [] && (forall p | p in c.proofs :: Proven(outcomes, p)) && (forall s | s in c.suites :: SuitePasses(outcomes, s)) &&
    !Applies(a, live, c, Blocking) &&
    forall p | p in c.operational :: Named(outcomes, p, Passed) || Named(outcomes, p, Skipped)
  }

  predicate LiveProofIs(live: Live, c: Capability, status: LiveStatus) {
    exists id | id in c.live :: id in live && live[id] == status
  }

  /** An operational proof failed, though others of its name may have passed. */
  predicate OperationFails(outcomes: seq<TestOutcome>, c: Capability) {
    exists p | p in c.operational :: Named(outcomes, p, Failed)
  }

  predicate OperationSkipped(outcomes: seq<TestOutcome>, c: Capability) {
    exists p | p in c.operational :: Named(outcomes, p, Skipped)
  }

  lemma ReasonsAre(a: Assessment, outcomes: seq<TestOutcome>, live: Live, c: Capability)
    ensures HasReason(a, outcomes, live, c) <==> !Shown(a, outcomes, live, c) || OperationFails(outcomes, c)
    ensures !OperationFails(outcomes, c) ==> (NotExercised(outcomes, c) <==> OperationSkipped(outcomes, c))
    ensures HasOpen(a, live, c) <==>
            Applies(a, live, c, Blocking) || Applies(a, live, c, Accepted) || Applies(a, live, c, Informational)
  {
    forall p ensures Resolve(outcomes, p) == Proof(Passed) <==> Proven(outcomes, p) { ResolutionIs(outcomes, p); }
    forall p ensures Resolve(outcomes, p) in {Missing, Proof(Failed)} <==>
                     Named(outcomes, p, Failed) || !(Named(outcomes, p, Passed) || Named(outcomes, p, Skipped)) { ResolutionIs(outcomes, p); OneOf(outcomes, p); }
    forall p ensures Resolve(outcomes, p) == Proof(Skipped) <==> Named(outcomes, p, Skipped) && !Named(outcomes, p, Failed) { ResolutionIs(outcomes, p); }
    forall s ensures SuiteProven(outcomes, s) <==> SuitePasses(outcomes, s) { SuitesAreProven(outcomes, s); }
    LimitationsAre(a, live, c);
  }

  lemma OneOf(outcomes: seq<TestOutcome>, p: NamedProof)
    ensures Resolve(outcomes, p).Missing? <==> !Named(outcomes, p, Failed) && !Named(outcomes, p, Skipped) && !Named(outcomes, p, Passed)
  {
    if t :| t in outcomes && Matches(t, p) { assert t.status == Failed || t.status == Skipped || t.status == Passed; }
  }

  lemma LimitationsAre(a: Assessment, live: Live, c: Capability)
    ensures forall severity :: Applies(a, live, c, severity) <==>
              exists l | l in a.limitations :: OpenFor(a, live, c, l) && l.severity == severity
    ensures HasOpen(a, live, c) <==>
            Applies(a, live, c, Blocking) || Applies(a, live, c, Accepted) || Applies(a, live, c, Informational)
  {
    if l :| l in a.limitations && OpenFor(a, live, c, l) {
      assert l.severity == Blocking || l.severity == Accepted || l.severity == Informational;
    }
  }

  /**
   A capability is red exactly if its code is not shown to work, an operational proof failed, or a live
   proof of it did; it is green exactly if besides no operational proof was skipped, every live proof of it
   ran, and no accepted limitation applies.
   */
  lemma StatusMeans(a: Assessment, outcomes: seq<TestOutcome>, live: Live, c: Capability)
    ensures StatusOf(a, outcomes, live, c) == Red <==>
            !Shown(a, outcomes, live, c) || OperationFails(outcomes, c) || LiveProofIs(live, c, LiveFailed)
    ensures StatusOf(a, outcomes, live, c) == Green <==>
            Shown(a, outcomes, live, c) && !OperationFails(outcomes, c) && !OperationSkipped(outcomes, c) &&
            !LiveProofIs(live, c, LiveFailed) && !LiveProofIs(live, c, NotRun) && !Applies(a, live, c, Accepted)
  {
    ReasonsAre(a, outcomes, live, c);
    LimitationsAre(a, live, c);
  }

  /**
   The code alone meets a capability's minimum exactly if it is shown to work and, where green is asked,
   nothing was skipped, no limitation of any kind applies, and no live proof is needed.
   */
  lemma MinimumMeans(a: Assessment, outcomes: seq<TestOutcome>, live: Live, c: Capability)
    ensures CodeMeets(a, outcomes, live, c) <==>
            Shown(a, outcomes, live, c) && !OperationFails(outcomes, c) &&
            (c.minimum == Green ==>
               !OperationSkipped(outcomes, c) && c.live == [] && !Applies(a, live, c, Blocking) &&
               !Applies(a, live, c, Accepted) && !Applies(a, live, c, Informational))
  {
    ReasonsAre(a, outcomes, live, c);
  }

  /** A pilot is ready exactly if the code's proofs pass, every live proof passed, and nothing is red. */
  lemma ReadyMeans(a: Assessment, outcomes: seq<TestOutcome>, live: Live)
    ensures Ready(a, outcomes, live) <==>
            CodeProofsPassed(a, outcomes, live) &&
            (forall id | id in a.liveProofs :: id in live && live[id] == LivePassed) &&
            forall c | c in a.capabilities :: StatusOf(a, outcomes, live, c) != Red
  {}

  lemma {:induction false} CapabilityIdsAt(s: seq<Capability>, i: nat)
    requires i < |s|
    ensures |CapabilityIds(s)| == |s| && CapabilityIds(s)[i] == s[i].id
  {
    if i > 0 {
      CapabilityIdsAt(s[1..], i - 1);
    } else if |s| > 1 {
      CapabilityIdsAt(s[1..], 0);
    } else {
      assert s[1..] == [];
    }
  }

  /** Two things under one id, or a name for nothing, and the code's proofs do not pass, whatever the tests say. */
  predicate Muddled(a: Assessment) {
    (exists i, j :: 0 <= i < j < |a.capabilities| && a.capabilities[i].id == a.capabilities[j].id) ||
    (exists i, j :: 0 <= i < j < |a.limitations| && a.limitations[i].id == a.limitations[j].id) ||
    (exists i, j :: 0 <= i < j < |a.liveProofs| && a.liveProofs[i] == a.liveProofs[j]) ||
    (exists l | l in a.limitations :: l.resolvedBy.Some? && l.resolvedBy.value !in a.liveProofs) ||
    (exists c, id | c in a.capabilities && id in c.limitations :: forall l | l in a.limitations :: l.id != id) ||
    (exists c, id | c in a.capabilities && id in c.live :: id !in a.liveProofs)
  }

  lemma MuddledNeverPasses(a: Assessment, outcomes: seq<TestOutcome>, live: Live)
    ensures Muddled(a) <==> !Coherent(a)
    ensures Muddled(a) ==> !CodeProofsPassed(a, outcomes, live)
  {
    DistinctCapabilities(a.capabilities);
    DistinctLimitations(a.limitations);
  }

  lemma DistinctCapabilities(s: seq<Capability>)
    ensures Distinct(CapabilityIds(s)) <==> forall i, j | 0 <= i < j < |s| :: s[i].id != s[j].id
  {
    forall i: nat | i < |s| ensures |CapabilityIds(s)| == |s| && CapabilityIds(s)[i] == s[i].id { CapabilityIdsAt(s, i); }
  }

  lemma DistinctLimitations(s: seq<Limitation>)
    ensures Distinct(LimitationIds(s)) <==> forall i, j | 0 <= i < j < |s| :: s[i].id != s[j].id
  {
    forall i: nat | i < |s| ensures |LimitationIds(s)| == |s| && LimitationIds(s)[i] == s[i].id { IdsAt(s, i); }
  }

  // ---- Worse outcomes ---------------------------------------------------------------------

  ghost predicate Worse(better: seq<TestOutcome>, worse: seq<TestOutcome>) {
    |better| == |worse| &&
    forall i | 0 <= i < |better| ::
      worse[i].(status := better[i].status) == better[i] && TestRank(worse[i].status) <= TestRank(better[i].status)
  }

  function OutcomeRank(o: ProofOutcome): nat {
    match o case Missing => 0 case Proof(s) => 1 + TestRank(s)
  }

  predicate ShowsAt(outcomes: seq<TestOutcome>, proof: NamedProof, atMost: nat, i: nat) {
    i < |outcomes| && Matches(outcomes[i], proof) && TestRank(outcomes[i].status) <= atMost
  }

  /** Some test of that name did no better. */
  ghost predicate AnyWith(outcomes: seq<TestOutcome>, proof: NamedProof, atMost: nat) {
    exists i :: ShowsAt(outcomes, proof, atMost, i)
  }

  /** A test that shows something bad shows at least as bad in the worse outcomes. */
  lemma WorseShows(better: seq<TestOutcome>, worse: seq<TestOutcome>, proof: NamedProof, atMost: nat)
    requires Worse(better, worse) && AnyWith(better, proof, atMost)
    ensures AnyWith(worse, proof, atMost)
  {
    var i :| ShowsAt(better, proof, atMost, i);
    assert ShowsAt(worse, proof, atMost, i);
  }

  lemma WorseHides(better: seq<TestOutcome>, worse: seq<TestOutcome>, proof: NamedProof)
    requires Worse(better, worse) && AnyWith(worse, proof, 2)
    ensures AnyWith(better, proof, 2)
  {
    var i :| ShowsAt(worse, proof, 2, i);
    assert ShowsAt(better, proof, 2, i);
  }

  lemma AnyIsMember(outcomes: seq<TestOutcome>, proof: NamedProof, atMost: nat)
    ensures AnyWith(outcomes, proof, atMost) <==>
            exists t | t in outcomes :: Matches(t, proof) && TestRank(t.status) <= atMost
  {
    if t :| t in outcomes && Matches(t, proof) && TestRank(t.status) <= atMost {
      var i :| 0 <= i < |outcomes| && outcomes[i] == t;
      assert ShowsAt(outcomes, proof, atMost, i);
    }
  }

  lemma ResolvesByWorst(outcomes: seq<TestOutcome>, proof: NamedProof)
    ensures OutcomeRank(Resolve(outcomes, proof)) ==
            if !AnyWith(outcomes, proof, 2) then 0 else if AnyWith(outcomes, proof, 0) then 1
            else if AnyWith(outcomes, proof, 1) then 2 else 3
  {
    AnyIsMember(outcomes, proof, 0);
    AnyIsMember(outcomes, proof, 1);
    AnyIsMember(outcomes, proof, 2);
  }

  lemma WorseResolves(better: seq<TestOutcome>, worse: seq<TestOutcome>, proof: NamedProof)
    requires Worse(better, worse)
    ensures OutcomeRank(Resolve(worse, proof)) <= OutcomeRank(Resolve(better, proof))
    ensures Resolve(worse, proof).Missing? <==> Resolve(better, proof).Missing?
  {
    ResolvesByWorst(better, proof);
    ResolvesByWorst(worse, proof);
    if AnyWith(better, proof, 0) { WorseShows(better, worse, proof, 0); }
    if AnyWith(better, proof, 1) { WorseShows(better, worse, proof, 1); }
    if AnyWith(better, proof, 2) { WorseShows(better, worse, proof, 2); }
    if AnyWith(worse, proof, 2) { WorseHides(better, worse, proof); }
  }

  lemma {:induction false} WorseCounts(better: seq<TestOutcome>, worse: seq<TestOutcome>, suite: Suite)
    requires Worse(better, worse)
    ensures Tests(worse, suite) == Tests(better, suite) && PassedTests(worse, suite) <= PassedTests(better, suite)
    ensures PassedTests(better, suite) <= Tests(better, suite)
  {
    if better != [] { WorseCounts(better[1..], worse[1..], suite); }
  }

  lemma WorseHasReason(a: Assessment, better: seq<TestOutcome>, worse: seq<TestOutcome>, live: Live, c: Capability)
    requires Worse(better, worse)
    ensures HasReason(a, better, live, c) ==> HasReason(a, worse, live, c)
    ensures NotExercised(better, c) ==> NotExercised(worse, c) || HasReason(a, worse, live, c)
  {
    forall p ensures OutcomeRank(Resolve(worse, p)) <= OutcomeRank(Resolve(better, p)) { WorseResolves(better, worse, p); }
    forall s ensures SuiteProven(worse, s) ==> SuiteProven(better, s) { WorseCounts(better, worse, s); }
  }

  /** Worse outcomes never raise a capability's status, nor make the code proofs pass, nor a pilot ready. */
  lemma WorseNeverRaises(a: Assessment, better: seq<TestOutcome>, worse: seq<TestOutcome>, live: Live)
    requires Worse(better, worse)
    ensures forall c | c in a.capabilities :: Rank(StatusOf(a, worse, live, c)) <= Rank(StatusOf(a, better, live, c))
    ensures CodeProofsPassed(a, worse, live) ==> CodeProofsPassed(a, better, live)
    ensures Ready(a, worse, live) ==> Ready(a, better, live)
  {
    forall c
      ensures Rank(StatusOf(a, worse, live, c)) <= Rank(StatusOf(a, better, live, c))
      ensures CodeMeets(a, worse, live, c) ==> CodeMeets(a, better, live, c)
    {
      WorseHasReason(a, better, worse, live, c);
    }
  }

  // ---- Other orders -----------------------------------------------------------------------

  lemma {:induction false} TestsSplit(a: seq<TestOutcome>, b: seq<TestOutcome>, suite: Suite)
    ensures Tests(a + b, suite) == Tests(a, suite) + Tests(b, suite)
    ensures PassedTests(a + b, suite) == PassedTests(a, suite) + PassedTests(b, suite)
  {
    if a == [] {
      assert a + b == b;
    } else {
      assert (a + b)[1..] == a[1..] + b;
      TestsSplit(a[1..], b, suite);
    }
  }

  lemma RemoveOne(b: seq<TestOutcome>, i: nat)
    requires i < |b|
    ensures multiset(b) == multiset(b[..i] + b[i + 1..]) + multiset{b[i]}
  {
    assert b == b[..i] + [b[i]] + b[i + 1..];
  }

  lemma Cancel(m: multiset<TestOutcome>, n: multiset<TestOutcome>, t: TestOutcome)
    requires m + multiset{t} == n + multiset{t}
    ensures m == n
  {
    forall k ensures m[k] == n[k] { assert (m + multiset{t})[k] == (n + multiset{t})[k]; }
  }

  lemma {:induction false} OrderDoesNotCount(a: seq<TestOutcome>, b: seq<TestOutcome>, suite: Suite)
    requires multiset(a) == multiset(b)
    ensures Tests(a, suite) == Tests(b, suite) && PassedTests(a, suite) == PassedTests(b, suite)
  {
    if a == [] {
      assert |multiset(b)| == 0;
    } else {
      assert a[0] in multiset(b);
      var i :| 0 <= i < |b| && b[i] == a[0];
      var rest := b[..i] + b[i + 1..];
      assert a == [a[0]] + a[1..];
      assert b == b[..i] + ([a[0]] + b[i + 1..]);
      RemoveOne(b, i);
      assert multiset(a) == multiset(a[1..]) + multiset{a[0]};
      Cancel(multiset(a[1..]), multiset(rest), a[0]);
      OrderDoesNotCount(a[1..], rest, suite);
      TestsSplit(b[..i], b[i + 1..], suite);
      TestsSplit(b[..i], [a[0]] + b[i + 1..], suite);
      assert ([a[0]] + b[i + 1..])[1..] == b[i + 1..];
    }
  }

  /** The order the tests are reported in changes nothing. */
  lemma OrderNeverMatters(a: Assessment, one: seq<TestOutcome>, other: seq<TestOutcome>, live: Live)
    requires multiset(one) == multiset(other)
    ensures forall c | c in a.capabilities :: StatusOf(a, one, live, c) == StatusOf(a, other, live, c)
    ensures CodeProofsPassed(a, one, live) <==> CodeProofsPassed(a, other, live)
    ensures Ready(a, one, live) <==> Ready(a, other, live)
  {
    forall t: TestOutcome ensures t in one <==> t in other {
      assert t in one <==> t in multiset(one);
      assert t in other <==> t in multiset(other);
    }
    forall p ensures Resolve(one, p) == Resolve(other, p) {}
    forall s ensures SuiteProven(one, s) <==> SuiteProven(other, s) { OrderDoesNotCount(one, other, s); }
    forall c ensures HasReason(a, one, live, c) <==> HasReason(a, other, live, c) {}
    forall c ensures CodeMeets(a, one, live, c) <==> CodeMeets(a, other, live, c) {}
  }

  // ---- Live proofs and the code's proofs --------------------------------------------------

  /** Whether a live proof failed or did not run makes no difference to the code's proofs. */
  lemma FailedOrNotRunIsTheSame(a: Assessment, outcomes: seq<TestOutcome>, live: Live, other: Live)
    requires forall id :: IsPassed(live, id) <==> IsPassed(other, id)
    ensures CodeProofsPassed(a, outcomes, live) <==> CodeProofsPassed(a, outcomes, other)
  {
    forall c, l ensures OpenFor(a, live, c, l) <==> OpenFor(a, other, c, l) {}
    forall c ensures CodeMeets(a, outcomes, live, c) <==> CodeMeets(a, outcomes, other, c) {
      assert HasReason(a, outcomes, live, c) <==> HasReason(a, outcomes, other, c);
    }
  }

  /** A passed live proof closed a limitation that would have stood in the capability's way. */
  predicate Freed(a: Assessment, live: Live, c: Capability, l: Limitation) {
    c in a.capabilities && l in a.limitations && l.id in c.limitations && Closed(live, l) &&
    (l.severity == Blocking || c.minimum == Green)
  }

  /**
   Live proofs make no difference to whether the code's proofs pass, except when they pass and some passed live
   proof closed a limitation that is blocking, or whose capability has to be green. Live proofs never
   make them fail.
   */
  lemma AsIfNoneHadRun(a: Assessment, outcomes: seq<TestOutcome>, live: Live)
    ensures CodeProofsPassed(a, outcomes, map[]) ==> CodeProofsPassed(a, outcomes, live)
    ensures CodeProofsPassed(a, outcomes, live) ==>
              (!CodeProofsPassed(a, outcomes, map[]) <==> exists c, l :: Freed(a, live, c, l))
  {
    forall c ensures CodeMeets(a, outcomes, map[], c) ==> CodeMeets(a, outcomes, live, c) {
      LiveProofsNeverHurt(a, outcomes, live, c);
    }
    if CodeProofsPassed(a, outcomes, live) {
      forall c, l | Freed(a, live, c, l) ensures !CodeMeets(a, outcomes, map[], c) {
        assert OpenFor(a, map[], c, l);
      }
      forall c | c in a.capabilities && !CodeMeets(a, outcomes, map[], c) ensures exists l :: Freed(a, live, c, l) {
        FailsWithoutLive(a, outcomes, live, c);
      }
    }
  }

  lemma LiveProofsNeverHurt(a: Assessment, outcomes: seq<TestOutcome>, live: Live, c: Capability)
    ensures CodeMeets(a, outcomes, map[], c) ==> CodeMeets(a, outcomes, live, c)
  {
    forall l ensures OpenFor(a, live, c, l) ==> OpenFor(a, map[], c, l) {}
  }

  lemma FailsWithoutLive(a: Assessment, outcomes: seq<TestOutcome>, live: Live, c: Capability)
    requires c in a.capabilities && CodeMeets(a, outcomes, live, c) && !CodeMeets(a, outcomes, map[], c)
    ensures exists l :: Freed(a, live, c, l)
  {
    if HasReason(a, outcomes, map[], c) {
      var l :| l in a.limitations && OpenFor(a, map[], c, l) && l.severity == Blocking;
      assert !OpenFor(a, live, c, l);
      assert Freed(a, live, c, l);
    } else {
      var l :| l in a.limitations && OpenFor(a, map[], c, l) && !OpenFor(a, live, c, l);
      assert Freed(a, live, c, l);
    }
  }

  /** Both ways do happen: here the code's proofs pass only because a live proof did. */
  lemma PassedLiveProofsDoCount(severity: Severity, minimum: Status)
    requires severity == Blocking || minimum == Green
    ensures exists a: Assessment, outcomes, live ::
              a.limitations == [Limitation("L", severity, Some("P"))] && |a.capabilities| == 1 &&
              a.capabilities[0].minimum == minimum &&
              CodeProofsPassed(a, outcomes, live) && !CodeProofsPassed(a, outcomes, map[])
  {
    var proof := NamedProof("f", "t");
    var l := Limitation("L", severity, Some("P"));
    var c := Capability("C", minimum, [proof], [], [], [], ["L"]);
    var a := Assessment([c], [l], ["P"]);
    var test := TestOutcome("f", "t", [], Passed);
    var live: Live := map["P" := LivePassed];
    assert test in [test] && Matches(test, proof);
    assert Resolve([test], proof) == Proof(Passed);
    assert l in a.limitations && c in a.capabilities;
    assert a.limitations[1..] == [] && a.capabilities[1..] == [];
    assert LimitationIds([]) == [] && CapabilityIds([]) == [];
    assert Distinct(LimitationIds(a.limitations)) && Distinct(CapabilityIds(a.capabilities));
    assert CodeProofsPassed(a, [test], live);
    assert Freed(a, live, c, l);
    AsIfNoneHadRun(a, [test], live);
  }

  // ---- The assessment, as it is carried out ------------------------------------------------

  datatype Report = Report(status: Status, meetsMinimum: bool, reasons: seq<string>, softer: seq<string>)

  method FindLimitation(a: Assessment, id: string) returns (found: Option<Limitation>)
    ensures found.Some? ==> found.value in a.limitations && found.value.id == id
    ensures found.None? <==> !Names(a.limitations, id)
  {
    for i := 0 to |a.limitations|
      invariant forall k | 0 <= k < i :: a.limitations[k].id != id
    {
      if a.limitations[i].id == id { return Some(a.limitations[i]); }
    }
    return None;
  }

  lemma {:induction false} IdsAt(s: seq<Limitation>, i: nat)
    requires i < |s|
    ensures |LimitationIds(s)| == |s| && LimitationIds(s)[i] == s[i].id
  {
    if i > 0 {
      IdsAt(s[1..], i - 1);
    } else if |s| > 1 {
      IdsAt(s[1..], 0);
    } else {
      assert s[1..] == [];
    }
  }

  lemma OneLimitationPerId(a: Assessment, l: Limitation, m: Limitation)
    requires Distinct(LimitationIds(a.limitations)) && l in a.limitations && m in a.limitations && l.id == m.id
    ensures l == m
  {
    var i :| 0 <= i < |a.limitations| && a.limitations[i] == l;
    var j :| 0 <= j < |a.limitations| && a.limitations[j] == m;
    IdsAt(a.limitations, i);
    IdsAt(a.limitations, j);
  }

  /** The capability's limitations that still apply. */
  method OpenLimitations(a: Assessment, live: Live, c: Capability) returns (open: seq<Limitation>)
    requires Distinct(LimitationIds(a.limitations))
    ensures forall l :: l in open <==> OpenFor(a, live, c, l)
  {
    open := [];
    for i := 0 to |c.limitations|
      invariant forall l :: l in open <==> OpenFor(a, live, c, l) && l.id in c.limitations[..i]
    {
      var found := FindLimitation(a, c.limitations[i]);
      if found.None? { continue; }
      forall l | l in a.limitations && l.id == c.limitations[i] ensures l == found.value {
        OneLimitationPerId(a, l, found.value);
      }
      if found.value.resolvedBy.Some? && IsPassed(live, found.value.resolvedBy.value) { continue; }
      open := open + [found.value];
    }
  }

  /** What the named proofs and suites leave to be desired. */
  method CollectProofs(outcomes: seq<TestOutcome>, c: Capability) returns (reasons: seq<string>)
    ensures reasons != [] <==> c.proofs == [] || (exists p | p in c.proofs :: Resolve(outcomes, p) != Proof(Passed)) ||
                               (exists s | s in c.suites :: !SuiteProven(outcomes, s))
  {
    reasons := if |c.proofs| == 0 then ["No proof is named for this capability."] else [];
    for i := 0 to |c.proofs|
      invariant reasons != [] <==> c.proofs == [] || exists k :: 0 <= k < i && Resolve(outcomes, c.proofs[k]) != Proof(Passed)
    {
      if Resolve(outcomes, c.proofs[i]) != Proof(Passed) { reasons := reasons + ["Proof: " + c.proofs[i].test]; }
    }
    ghost var unproven := reasons != [];
    for i := 0 to |c.suites|
      invariant reasons != [] <==> unproven || exists k :: 0 <= k < i && !SuiteProven(outcomes, c.suites[k])
    {
      if !SuiteProven(outcomes, c.suites[i]) { reasons := reasons + ["Suite not proven: " + c.suites[i].describe]; }
    }
  }

  method CollectOperational(outcomes: seq<TestOutcome>, c: Capability) returns (reasons: seq<string>, softer: seq<string>)
    ensures reasons != [] <==> exists p | p in c.operational :: Resolve(outcomes, p) in {Missing, Proof(Failed)}
    ensures softer != [] <==> NotExercised(outcomes, c)
  {
    reasons, softer := [], [];
    for i := 0 to |c.operational|
      invariant reasons != [] <==> exists k :: 0 <= k < i && Resolve(outcomes, c.operational[k]) in {Missing, Proof(Failed)}
      invariant softer != [] <==> exists k :: 0 <= k < i && Resolve(outcomes, c.operational[k]) == Proof(Skipped)
    {
      var outcome := Resolve(outcomes, c.operational[i]);
      if outcome == Missing || outcome == Proof(Failed) {
        reasons := reasons + ["Operational proof: " + c.operational[i].test];
      } else if outcome == Proof(Skipped) {
        softer := softer + ["Not exercised in this environment: " + c.operational[i].test];
      }
    }
  }

  method CollectSeverity(open: seq<Limitation>, severity: Severity) returns (texts: seq<string>)
    ensures texts != [] <==> exists l | l in open :: l.severity == severity
  {
    texts := [];
    for i := 0 to |open|
      invariant texts != [] <==> exists k :: 0 <= k < i && open[k].severity == severity
    {
      if open[i].severity == severity { texts := texts + [open[i].id]; }
    }
  }

  method CollectLive(live: Live, c: Capability, status: LiveStatus) returns (texts: seq<string>)
    ensures texts != [] <==> exists id | id in c.live :: id in live && live[id] == status
  {
    texts := [];
    for i := 0 to |c.live|
      invariant texts != [] <==> exists k :: 0 <= k < i && c.live[k] in live && live[c.live[k]] == status
    {
      if c.live[i] in live && live[c.live[i]] == status { texts := texts + [c.live[i]]; }
    }
  }

  /** One capability: its reasons, and whether its code alone meets the minimum. */
  method AssessCapability(a: Assessment, outcomes: seq<TestOutcome>, live: Live, c: Capability)
    returns (report: Report, codeMeets: bool)
    requires Distinct(LimitationIds(a.limitations))
    ensures report.status == StatusOf(a, outcomes, live, c)
    ensures report.meetsMinimum <==> Rank(report.status) >= Rank(c.minimum)
    ensures codeMeets <==> CodeMeets(a, outcomes, live, c)
    ensures report.status == Red <==> report.reasons != []
    ensures report.status == Green <==> report.reasons == [] && report.softer == []
  {
    var reasons := CollectProofs(outcomes, c);
    var open := OpenLimitations(a, live, c);
    var blocking := CollectSeverity(open, Blocking);
    var failed, softer := CollectOperational(outcomes, c);
    reasons := reasons + blocking + failed;
    assert HasReason(a, outcomes, live, c) <==> reasons != [];
    assert HasOpen(a, live, c) <==> open != [] by {
      if open != [] { assert open[0] in open; }
    }
    var codeStatus := if |reasons| > 0 then Red
                      else if |softer| > 0 || |open| > 0 || |c.live| > 0 then Amber else Green;
    codeMeets := codeStatus != Red && Rank(codeStatus) >= Rank(c.minimum);
    var broken := CollectLive(live, c, LiveFailed);
    var missing := CollectLive(live, c, NotRun);
    var accepted := CollectSeverity(open, Accepted);
    reasons := reasons + broken;
    softer := softer + missing + accepted;
    var status := if |reasons| > 0 then Red else if |softer| > 0 then Amber else Green;
    report := Report(status, Rank(status) >= Rank(c.minimum), reasons, softer);
  }
}
