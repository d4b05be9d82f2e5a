/**
 The catalog registry: definitions are resolved into self-contained bundles, all or nothing, and a
 stored bundle is served only if it could have come from there. Both collect problems in loops; no
 problem is collected exactly when the bundle is consistent.
 */
module CatalogRegistry {
  import opened Wrappers

  datatype Ref = Ref(id: string, version: string)

  datatype Versioned<+T> = Versioned(id: string, version: string, body: T)

  /** What the registry looks at in a skill, a tool and a workflow. */
  datatype Requirements = Requirements(tools: seq<string>, capabilities: seq<string>)
  datatype Step = Step(skill: string, action: Option<string>)
  type Skill = Versioned<Requirements>
  type Tool = Versioned<()>
  type Workflow = Versioned<seq<Step>>

  datatype Question = Question(id: string, multiselect: bool, options: seq<string>)
  datatype Connector = Connector(capabilities: seq<string>, questionId: string, providers: seq<string>)
  datatype Condition = Condition(questionId: string, includes: string)

  datatype Blueprint = Blueprint(
    id: string, version: string, skills: seq<Ref>, tools: seq<Ref>, workflows: seq<Ref>,
    connectors: seq<Connector>, conditions: seq<Condition>, actions: seq<string>, questions: seq<Question>)

  datatype Content = Content(blueprint: Blueprint, skills: seq<Skill>, tools: seq<Tool>, workflows: seq<Workflow>)

  /** A digest stands for the content it was taken of. */
  datatype Digest = DigestOf(content: Content)

  /** As stored: the schema it declares, and its content if it parses. */
  datatype Stored = Stored(blueprintId: string, version: string, digest: Digest, schema: string, content: Option<Content>)

  datatype Definitions = Definitions(
    skills: seq<Skill>, tools: seq<Tool>, workflows: seq<Workflow>, blueprints: seq<Blueprint>)

  const SCHEMA := "agents-foundry.catalog-bundle/v1"

  function Key(id: string, version: string): string {
    id + "@" + version
  }

  function KeyOf(r: Ref): string {
    Key(r.id, r.version)
  }

  // ---- What a bundle must be --------------------------------------------------------------

  predicate NamesTool(b: Blueprint, id: string) {
    exists r | r in b.tools :: r.id == id
  }

  predicate NamesSkill(b: Blueprint, id: string) {
    exists r | r in b.skills :: r.id == id
  }

  predicate Offers(b: Blueprint, capability: string) {
    exists c | c in b.connectors :: capability in c.capabilities
  }

  predicate SkillSupplied(b: Blueprint, s: Skill) {
    (forall t | t in s.body.tools :: NamesTool(b, t)) && (forall c | c in s.body.capabilities :: Offers(b, c))
  }

  predicate StepSupplied(b: Blueprint, s: Step) {
    NamesSkill(b, s.skill) && (s.action.Some? && s.action.value != "" ==> s.action.value in b.actions)
  }

  /** The last question under an id is the one that counts. */
  function FindQuestion(questions: seq<Question>, id: string): Option<Question> {
    if questions == [] then None
    else if questions[|questions| - 1].id == id then Some(questions[|questions| - 1])
    else FindQuestion(questions[..|questions| - 1], id)
  }

  predicate LastAt(questions: seq<Question>, id: string, i: int) {
    0 <= i < |questions| && questions[i].id == id && forall j | i < j < |questions| :: questions[j].id != id
  }

  lemma {:induction false} LastQuestionCounts(questions: seq<Question>, id: string, i: int)
    ensures LastAt(questions, id, i) ==> FindQuestion(questions, id) == Some(questions[i])
    ensures FindQuestion(questions, id).None? ==> forall j | 0 <= j < |questions| :: questions[j].id != id
  {
    if questions != [] && questions[|questions| - 1].id != id {
      LastQuestionCounts(questions[..|questions| - 1], id, i);
    }
  }

  predicate ConnectorMapped(b: Blueprint, c: Connector) {
    var q := FindQuestion(b.questions, c.questionId);
    q.Some? && q.value.multiselect && multiset(q.value.options) == multiset(c.providers)
  }

  predicate ConditionMeant(b: Blueprint, c: Condition) {
    var q := FindQuestion(b.questions, c.questionId);
    q.Some? && q.value.multiselect && c.includes in q.value.options
  }

  predicate Consistent(content: Content, known: set<string>) {
    var b := content.blueprint;
    (forall a | a in b.actions :: a in known) &&
    (forall s | s in content.skills :: SkillSupplied(b, s)) &&
    (forall w | w in content.workflows :: forall s | s in w.body :: StepSupplied(b, s)) &&
    (forall c | c in b.connectors :: ConnectorMapped(b, c)) &&
    (forall c | c in b.conditions :: ConditionMeant(b, c))
  }

  /** A mapping or a condition on a question that is not there, or takes one answer only, is a problem. */
  lemma OneAnswerIsNotEnough(content: Content, known: set<string>, questionId: string, q: Option<Question>)
    requires q == FindQuestion(content.blueprint.questions, questionId) && (q.Some? ==> !q.value.multiselect)
    requires (exists c | c in content.blueprint.connectors :: c.questionId == questionId) ||
             (exists c | c in content.blueprint.conditions :: c.questionId == questionId)
    ensures !Consistent(content, known)
  {
    if c :| c in content.blueprint.connectors && c.questionId == questionId { assert !ConnectorMapped(content.blueprint, c); }
    if c :| c in content.blueprint.conditions && c.questionId == questionId { assert !ConditionMeant(content.blueprint, c); }
  }

  predicate Pinned(refs: seq<Ref>, keys: seq<string>) {
    |refs| == |keys| && forall i | 0 <= i < |refs| :: KeyOf(refs[i]) == keys[i]
  }

  function Keys<T>(items: seq<Versioned<T>>): (r: seq<string>)
    ensures |r| == |items|
  {
    seq(|items|, i requires 0 <= i < |items| => Key(items[i].id, items[i].version))
  }

  /** The bundle holds exactly what its blueprint pins, in order, and is consistent. */
  predicate WellResolved(content: Content, known: set<string>) {
    Pinned(content.blueprint.skills, Keys(content.skills)) &&
    Pinned(content.blueprint.tools, Keys(content.tools)) &&
    Pinned(content.blueprint.workflows, Keys(content.workflows)) && Consistent(content, known)
  }

  /** This release can serve it: it is what it is stored as, unchanged, and well resolved. */
  predicate Servable(s: Stored, known: set<string>) {
    s.schema == SCHEMA && s.content.Some? && s.content.value.blueprint.id == s.blueprintId &&
    s.content.value.blueprint.version == s.version && s.digest == DigestOf(s.content.value) &&
    WellResolved(s.content.value, known)
  }

  // ---- The checks -------------------------------------------------------------------------

  method CheckSkills(b: Blueprint, skills: seq<Skill>) returns (problems: seq<string>)
    ensures problems == [] <==> forall s | s in skills :: SkillSupplied(b, s)
  {
    problems := [];
    for i := 0 to |skills|
      invariant problems == [] <==> forall k | 0 <= k < i :: SkillSupplied(b, skills[k])
    {
      var s := skills[i];
      ghost var clean := problems == [];
      for j := 0 to |s.body.tools|
        invariant problems == [] <==> clean && forall k | 0 <= k < j :: NamesTool(b, s.body.tools[k])
      {
        if !NamesTool(b, s.body.tools[j]) { problems := problems + ["skill " + s.id + " requires tool " + s.body.tools[j]]; }
      }
      ghost var supplied := problems == [];
      for j := 0 to |s.body.capabilities|
        invariant problems == [] <==> supplied && forall k | 0 <= k < j :: Offers(b, s.body.capabilities[k])
      {
        if !Offers(b, s.body.capabilities[j]) {
          problems := problems + ["skill " + s.id + " requires connector capability " + s.body.capabilities[j]];
        }
      }
    }
  }

  method CheckWorkflows(b: Blueprint, workflows: seq<Workflow>) returns (problems: seq<string>)
    ensures problems == [] <==> forall w | w in workflows :: forall s | s in w.body :: StepSupplied(b, s)
  {
    problems := [];
    for i := 0 to |workflows|
      invariant problems == [] <==> forall k | 0 <= k < i :: forall s | s in workflows[k].body :: StepSupplied(b, s)
    {
      var w := workflows[i];
      ghost var clean := problems == [];
      for j := 0 to |w.body|
        invariant problems == [] <==> clean && forall k | 0 <= k < j :: StepSupplied(b, w.body[k])
      {
        var step := w.body[j];
        if !NamesSkill(b, step.skill) { problems := problems + ["workflow " + w.id + " uses skill " + step.skill]; }
        if step.action.Some? && step.action.value != "" && step.action.value !in b.actions {
          problems := problems + ["workflow " + w.id + " action " + step.action.value];
        }
      }
    }
  }

  method CheckQuestions(b: Blueprint) returns (problems: seq<string>)
    ensures problems == [] <==> (forall c | c in b.connectors :: ConnectorMapped(b, c)) &&
                                (forall c | c in b.conditions :: ConditionMeant(b, c))
  {
    problems := [];
    for i := 0 to |b.connectors|
      invariant problems == [] <==> forall k | 0 <= k < i :: ConnectorMapped(b, b.connectors[k])
    {
      if !ConnectorMapped(b, b.connectors[i]) { problems := problems + ["connector " + b.connectors[i].questionId]; }
    }
    ghost var mapped := problems == [];
    for i := 0 to |b.conditions|
      invariant problems == [] <==> mapped && forall k | 0 <= k < i :: ConditionMeant(b, b.conditions[k])
    {
      if !ConditionMeant(b, b.conditions[i]) { problems := problems + ["mcp condition " + b.conditions[i].questionId]; }
    }
  }

  method CheckBundle(content: Content, known: set<string>) returns (problems: seq<string>)
    ensures problems == [] <==> Consistent(content, known)
  {
    var b := content.blueprint;
    problems := [];
    for i := 0 to |b.actions|
      invariant problems == [] <==> forall k | 0 <= k < i :: b.actions[k] in known
    {
      if b.actions[i] !in known { problems := problems + ["policy action " + b.actions[i] + " is unknown"]; }
    }
    var skills := CheckSkills(b, content.skills);
    var workflows := CheckWorkflows(b, content.workflows);
    var questions := CheckQuestions(b);
    problems := problems + skills + workflows + questions;
  }

  /** Why a stored bundle cannot be served; empty exactly when it can. */
  method StoredBundleProblems(stored: Stored, known: set<string>) returns (problems: seq<string>)
    ensures problems == [] <==> Servable(stored, known)
  {
    if stored.schema != SCHEMA { return ["bundle schema " + stored.schema + " is not supported"]; }
    if stored.content.None? { return ["content is not a bundle"]; }
    var content := stored.content.value;
    var b := content.blueprint;
    problems := CheckBundle(content, known);
    if b.id != stored.blueprintId || b.version != stored.version { problems := problems + ["content is " + Key(b.id, b.version)]; }
    if DigestOf(content) != stored.digest { problems := problems + ["content does not match its digest"]; }
    if !Pinned(b.skills, Keys(content.skills)) { problems := problems + ["skills are not exactly the pinned skills"]; }
    if !Pinned(b.tools, Keys(content.tools)) { problems := problems + ["tools are not exactly the pinned tools"]; }
    if !Pinned(b.workflows, Keys(content.workflows)) {
      problems := problems + ["workflows are not exactly the pinned workflows"];
    }
  }

  // ---- Resolution -------------------------------------------------------------------------

  predicate DistinctIds(refs: seq<Ref>) {
    forall i, j | 0 <= i < j < |refs| :: refs[i].id != refs[j].id
  }

  predicate AllIn<T>(refs: seq<Ref>, index: map<string, Versioned<T>>) {
    forall r | r in refs :: KeyOf(r) in index
  }

  /** The referenced definitions, and a problem for each that is missing or named twice. */
  method ResolveRefs<T(==)>(kind: string, refs: seq<Ref>, index: map<string, Versioned<T>>)
    returns (found: seq<Versioned<T>>, problems: seq<string>)
    requires Indexed(index)
    ensures problems == [] <==> DistinctIds(refs) && AllIn(refs, index)
    ensures problems == [] ==> Pinned(refs, Keys(found)) && forall x | x in found :: x in index.Values
  {
    problems := if DistinctIds(refs) then [] else [kind + " ids must be unique"];
    found := [];
    for i := 0 to |refs|
      invariant problems == [] <==> DistinctIds(refs) && forall k | 0 <= k < i :: KeyOf(refs[k]) in index
      invariant problems == [] ==> |found| == i && forall k | 0 <= k < i ::
                  found[k] in index.Values && Key(found[k].id, found[k].version) == KeyOf(refs[k])
    {
      var key := KeyOf(refs[i]);
      if key in index {
        found := found + [index[key]];
      } else {
        problems := problems + ["unknown " + kind + " " + key];
      }
    }
  }

  /** Each definition is under its own key. */
  ghost predicate Indexed<T>(index: map<string, Versioned<T>>) {
    forall k | k in index :: k == Key(index[k].id, index[k].version)
  }

  predicate DistinctKeys<T>(items: seq<Versioned<T>>) {
    forall i, j | 0 <= i < j < |items| :: Key(items[i].id, items[i].version) != Key(items[j].id, items[j].version)
  }

  /** A later definition replaces an earlier one under its key, and is a problem. */
  method Index<T(==)>(kind: string, items: seq<Versioned<T>>) returns (index: map<string, Versioned<T>>, problems: seq<string>)
    ensures Indexed(index) && (problems == [] <==> DistinctKeys(items))
    ensures forall x | x in index.Values :: x in items
    ensures forall k :: k in index <==> exists j :: 0 <= j < |items| && Key(items[j].id, items[j].version) == k
  {
    index, problems := map[], [];
    for i := 0 to |items|
      invariant Indexed(index)
      invariant forall k :: k in index <==> exists j :: 0 <= j < i && Key(items[j].id, items[j].version) == k
      invariant forall k | k in index :: index[k] in items
      invariant problems == [] <==> forall j, k | 0 <= j < k < i ::
                  Key(items[j].id, items[j].version) != Key(items[k].id, items[k].version)
    {
      var key := Key(items[i].id, items[i].version);
      if key in index { problems := problems + [kind + " " + key + ": duplicate version"]; }
      index := index[key := items[i]];
    }
  }

  function AsStored(content: Content): Stored {
    Stored(content.blueprint.id, content.blueprint.version, DigestOf(content), SCHEMA, Some(content))
  }

  /** What is pinned, found among the definitions, in order. */
  predicate Found<T(==)>(items: seq<Versioned<T>>, refs: seq<Ref>, found: seq<Versioned<T>>) {
    Pinned(refs, Keys(found)) && forall x | x in found :: x in items
  }

  /** The content the blueprint pins, of the catalog's own definitions. */
  predicate BundleOf(d: Definitions, b: Blueprint, content: Content) {
    content.blueprint == b && Found(d.skills, b.skills, content.skills) && Found(d.tools, b.tools, content.tools) &&
    Found(d.workflows, b.workflows, content.workflows)
  }

  /** The blueprint names nothing twice, and what it pins is there and consistent. */
  ghost predicate HasBundle(d: Definitions, b: Blueprint, known: set<string>) {
    DistinctIds(b.skills) && DistinctIds(b.tools) && DistinctIds(b.workflows) &&
    exists content :: BundleOf(d, b, content) && Consistent(content, known)
  }

  predicate DistinctVersions(blueprints: seq<Blueprint>) {
    forall i, j | 0 <= i < j < |blueprints| ::
      Key(blueprints[i].id, blueprints[i].version) != Key(blueprints[j].id, blueprints[j].version)
  }

  predicate DistinctDefinitions(d: Definitions) {
    DistinctKeys(d.skills) && DistinctKeys(d.tools) && DistinctKeys(d.workflows)
  }

  predicate IndexOf<T(==)>(items: seq<Versioned<T>>, index: map<string, Versioned<T>>) {
    (forall k | k in index :: k == Key(index[k].id, index[k].version) && index[k] in items) &&
    forall j | 0 <= j < |items| :: Key(items[j].id, items[j].version) in index
  }

  /** Among definitions under different keys only one list is found. */
  lemma FoundIsOne<T>(items: seq<Versioned<T>>, refs: seq<Ref>, a: seq<Versioned<T>>, b: seq<Versioned<T>>)
    requires DistinctKeys(items) && Found(items, refs, a) && Found(items, refs, b)
    ensures a == b
  {
    forall k | 0 <= k < |refs| ensures a[k] == b[k] {
      assert Keys(a)[k] == Keys(b)[k] && a[k] in items && b[k] in items;
    }
  }

  /** What is found is in the index. */
  lemma FoundIsIndexed<T>(items: seq<Versioned<T>>, index: map<string, Versioned<T>>, refs: seq<Ref>, found: seq<Versioned<T>>)
    requires IndexOf(items, index) && Found(items, refs, found)
    ensures AllIn(refs, index)
  {
    forall r | r in refs ensures KeyOf(r) in index {
      var k :| 0 <= k < |refs| && refs[k] == r;
      assert Keys(found)[k] == KeyOf(r) && found[k] in items;
    }
  }

  method ResolveBundle(ghost d: Definitions, b: Blueprint, skills: map<string, Skill>, tools: map<string, Tool>,
                       workflows: map<string, Workflow>, known: set<string>)
    returns (content: Content, problems: seq<string>)
    requires Indexed(skills) && Indexed(tools) && Indexed(workflows)
    requires IndexOf(d.skills, skills) && IndexOf(d.tools, tools) && IndexOf(d.workflows, workflows)
    ensures content.blueprint == b
    ensures problems == [] ==> Servable(AsStored(content), known) && HasBundle(d, b, known)
    ensures DistinctDefinitions(d) && HasBundle(d, b, known) ==> problems == []
  {
    var s, first := ResolveRefs("skill", b.skills, skills);
    var t, second := ResolveRefs("tool", b.tools, tools);
    var w, third := ResolveRefs("workflow", b.workflows, workflows);
    content := Content(b, s, t, w);
    var last := CheckBundle(content, known);
    problems := first + second + third + last;
    if problems == [] { assert BundleOf(d, b, content); }
    if DistinctDefinitions(d) && HasBundle(d, b, known) {
      ghost var other :| BundleOf(d, b, other) && Consistent(other, known);
      FoundIsIndexed(d.skills, skills, b.skills, other.skills);
      FoundIsIndexed(d.tools, tools, b.tools, other.tools);
      FoundIsIndexed(d.workflows, workflows, b.workflows, other.workflows);
      FoundIsOne(d.skills, b.skills, s, other.skills);
      FoundIsOne(d.tools, b.tools, t, other.tools);
      FoundIsOne(d.workflows, b.workflows, w, other.workflows);
    }
  }

  /** Nothing is defined twice, and every blueprint has its bundle. */
  ghost predicate Resolvable(d: Definitions, known: set<string>) {
    DistinctDefinitions(d) && DistinctVersions(d.blueprints) && forall b | b in d.blueprints :: HasBundle(d, b, known)
  }

  /**
   All or nothing: a catalog resolves exactly if nothing in it is defined twice and every blueprint has a
   bundle. The bundles are given in order, and this release serves each as it would be stored.
   */
  method ResolveCatalog(d: Definitions, known: set<string>) returns (bundles: Option<seq<Content>>)
    ensures bundles.Some? <==> Resolvable(d, known)
    ensures bundles.Some? ==>
              |bundles.value| == |d.blueprints| &&
              (forall i | 0 <= i < |d.blueprints| :: bundles.value[i].blueprint == d.blueprints[i]) &&
              (forall b | b in bundles.value :: Servable(AsStored(b), known)) &&
              DistinctVersions(d.blueprints)
  {
    var skills, first := Index("skill", d.skills);
    var tools, second := Index("tool", d.tools);
    var workflows, third := Index("workflow", d.workflows);
    var resolved, fourth := ResolveBlueprints(d, skills, tools, workflows, known);
    var fifth := DuplicateVersions(d.blueprints);
    var problems := first + second + third + fourth + fifth;
    if |problems| > 0 { return None; }
    return Some(resolved);
  }

  method DuplicateVersions(blueprints: seq<Blueprint>) returns (problems: seq<string>)
    ensures problems == [] <==> DistinctVersions(blueprints)
  {
    problems := [];
    var seen: set<string> := {};
    for i := 0 to |blueprints|
      invariant problems == [] <==> DistinctVersions(blueprints[..i])
      invariant forall key :: key in seen <==> exists k :: 0 <= k < i && Key(blueprints[k].id, blueprints[k].version) == key
    {
      var key := Key(blueprints[i].id, blueprints[i].version);
      if key in seen { problems := problems + ["blueprint " + key + ": duplicate version"]; }
      seen := seen + {key};
    }
    assert blueprints[..|blueprints|] == blueprints;
  }

  /** The bundle of each blueprint, and what is wrong with any of them. */
  method ResolveBlueprints(d: Definitions, skills: map<string, Skill>, tools: map<string, Tool>,
                           workflows: map<string, Workflow>, known: set<string>)
    returns (resolved: seq<Content>, problems: seq<string>)
    requires Indexed(skills) && Indexed(tools) && Indexed(workflows)
    requires IndexOf(d.skills, skills) && IndexOf(d.tools, tools) && IndexOf(d.workflows, workflows)
    ensures |resolved| == |d.blueprints| && forall i | 0 <= i < |d.blueprints| :: resolved[i].blueprint == d.blueprints[i]
    ensures problems == [] ==> (forall b | b in resolved :: Servable(AsStored(b), known)) &&
                               forall b | b in d.blueprints :: HasBundle(d, b, known)
    ensures DistinctDefinitions(d) && (forall b | b in d.blueprints :: HasBundle(d, b, known)) ==> problems == []
  {
    resolved, problems := [], [];
    for i := 0 to |d.blueprints|
      invariant |resolved| == i && forall k | 0 <= k < i :: resolved[k].blueprint == d.blueprints[k]
      invariant problems == [] ==> forall b | b in resolved :: Servable(AsStored(b), known)
      invariant problems == [] ==> forall k | 0 <= k < i :: HasBundle(d, d.blueprints[k], known)
      invariant DistinctDefinitions(d) && (forall b | b in d.blueprints :: HasBundle(d, b, known)) ==> problems == []
    {
      var content, more := ResolveBundle(d, d.blueprints[i], skills, tools, workflows, known);
      resolved := resolved + [content];
      problems := problems + more;
    }
  }
}
