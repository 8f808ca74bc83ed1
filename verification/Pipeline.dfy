/** The component research pipeline as a state machine: a task list that grows while its
    tasks are authored, reviewed, retried, interrupted and resumed. */
module ComponentPipeline {
  import opened Prelude
  import opened DependencyGraph

  datatype Phase = Inventory | Plan | Contracts | Paradigm | Pitfalls | Index | Synthesis

  datatype Status = Pending | Running | Done | Failed

  /** The dependency field of an inventoried component comes from outside and may be malformed. */
  datatype Declared = Undeclared | Malformed | Listed(ids: seq<string>)

  datatype Component = Component(id: string, title: string, repositoryIds: seq<string>, scope: string,
                                 dependencies: Declared)

  datatype Need = Need(id: string, title: string, need: string)

  datatype WorkResult = WorkResult(findings: string, openQuestions: Option<seq<Option<string>>>,
                                   components: Option<seq<Component>>, paradigms: Option<seq<Need>>)

  datatype Problem = IncompleteResult | BadInventory | BadDependencies | CyclicDependencies | BadPlan
                   | TaskIdTaken | ReviewFeedback(text: string) | Thrown(text: string)

  datatype Work = Work(id: string, phase: Phase, component: Option<string>, dependencies: seq<string>,
                       status: Status, attempts: nat, result: Option<WorkResult>, feedback: Option<Problem>)

  const MAX_ATTEMPTS := 3
  const MAX_COMPONENTS := 100
  const MAX_PARADIGMS := 50

  function NewTask(id: string, phase: Phase, dependencies: seq<string>, component: Option<string>): Work {
    Work(id, phase, component, dependencies, Pending, 0, None, None)
  }

  // ----- identifiers and texts supplied from outside

  predicate IdCharacter(c: char) {
    'a' <= c <= 'z' || '0' <= c <= '9'
  }

  predicate ValidComponentId(id: string) {
    1 <= |id| <= 60 && IdCharacter(id[0]) && forall i :: 0 < i < |id| ==> IdCharacter(id[i]) || id[i] == '-'
  }

  predicate Distinct(ids: seq<string>) {
    forall i, j :: 0 <= i < j < |ids| ==> ids[i] != ids[j]
  }

  predicate UniqueIds(ids: seq<string>) {
    (forall i :: 0 <= i < |ids| ==> ValidComponentId(ids[i])) && Distinct(ids)
  }

  function ComponentIds(cs: seq<Component>): (ids: seq<string>)
    ensures |ids| == |cs| && forall i :: 0 <= i < |cs| ==> ids[i] == cs[i].id
  {
    seq(|cs|, i requires 0 <= i < |cs| => cs[i].id)
  }

  function NeedIds(ps: seq<Need>): (ids: seq<string>)
    ensures |ids| == |ps| && forall i :: 0 <= i < |ps| ==> ids[i] == ps[i].id
  {
    seq(|ps|, i requires 0 <= i < |ps| => ps[i].id)
  }

  function Dependencies(c: Component): seq<string> {
    if c.dependencies.Listed? then c.dependencies.ids else []
  }

  /** The module table of the inventory: a later entry replaces an earlier one of the same id. */
  function ModuleGraph(cs: seq<Component>): (g: Graph)
    ensures forall id :: id in g <==> id in ComponentIds(cs)
    ensures forall id :: id in g ==> exists i :: 0 <= i < |cs| && cs[i].id == id && g[id] == Dependencies(cs[i])
  {
    if cs == [] then map[] else
      var last := cs[|cs| - 1];
      var before := ModuleGraph(cs[..|cs| - 1]);
      assert ComponentIds(cs) == ComponentIds(cs[..|cs| - 1]) + [last.id];
      before[last.id := Dependencies(last)]
  }

  // ----- the checks on a saved result and the tasks it adds

  predicate CompleteResult(r: WorkResult) {
    !Blank(r.findings) && r.openQuestions.Some? &&
    forall i :: 0 <= i < |r.openQuestions.value| ==> r.openQuestions.value[i].Some?
  }

  predicate ComponentFilled(repositoryIds: seq<string>, c: Component) {
    !Blank(c.title) && !Blank(c.scope) && c.repositoryIds != [] &&
    forall i :: 0 <= i < |c.repositoryIds| ==> c.repositoryIds[i] in repositoryIds
  }

  predicate InventoryShape(repositoryIds: seq<string>, cs: seq<Component>) {
    1 <= |cs| <= MAX_COMPONENTS && UniqueIds(ComponentIds(cs)) &&
    forall i :: 0 <= i < |cs| ==> ComponentFilled(repositoryIds, cs[i])
  }

  predicate DependenciesKnown(cs: seq<Component>, c: Component) {
    match c.dependencies
    case Undeclared => true
    case Malformed => false
    case Listed(ids) =>
      UniqueIds(ids) && forall i :: 0 <= i < |ids| ==> ids[i] != c.id && ids[i] in ComponentIds(cs)
  }

  predicate AllDependenciesKnown(cs: seq<Component>) {
    forall i :: 0 <= i < |cs| ==> DependenciesKnown(cs, cs[i])
  }

  predicate PlanShape(ps: seq<Need>) {
    1 <= |ps| <= MAX_PARADIGMS && UniqueIds(NeedIds(ps)) &&
    forall i :: 0 <= i < |ps| ==> !Blank(ps[i].title) && !Blank(ps[i].need)
  }

  function PlanId(c: string): string { "plan-" + c }
  function ContractsId(c: string): string { "contracts-" + c }
  function ParadigmId(c: string, p: string): string { "paradigm-" + c + "-" + p }
  function PitfallsId(c: string): string { "pitfalls-" + c }
  function IndexId(c: string): string { "index-" + c }

  function InventoryAdditions(parent: string, cs: seq<Component>): seq<Work> {
    seq(|cs|, i requires 0 <= i < |cs| => NewTask(PlanId(cs[i].id), Plan, [parent], Some(cs[i].id)))
    + [NewTask("synthesis", Synthesis, seq(|cs|, i requires 0 <= i < |cs| => IndexId(cs[i].id)), None)]
  }

  function PlanAdditions(parent: string, c: string, ps: seq<Need>): seq<Work> {
    var ids := seq(|ps|, i requires 0 <= i < |ps| => ParadigmId(c, ps[i].id));
    [NewTask(ContractsId(c), Contracts, [parent], Some(c))]
    + seq(|ps|, i requires 0 <= i < |ps| => NewTask(ids[i], Paradigm, [ContractsId(c)], Some(c)))
    + [NewTask(PitfallsId(c), Pitfalls, ids, Some(c)), NewTask(IndexId(c), Index, [PitfallsId(c)], Some(c))]
  }

  /** What accepting a result adds to the task list, or why the result is refused. */
  ghost function Expand(repositoryIds: seq<string>, t: Work, r: WorkResult): Outcome<seq<Work>, Problem> {
    if t.phase == Inventory then
      if r.components.None? || !InventoryShape(repositoryIds, r.components.value) then Refused(BadInventory)
      else if !AllDependenciesKnown(r.components.value) then Refused(BadDependencies)
      else if !Acyclic(ModuleGraph(r.components.value)) then Refused(CyclicDependencies)
      else Ok(InventoryAdditions(t.id, r.components.value))
    else if t.phase == Plan then
      if r.paradigms.None? || !PlanShape(r.paradigms.value) then Refused(BadPlan)
      else Ok(PlanAdditions(t.id, t.component.GetOr("undefined"), r.paradigms.value))
    else Ok([])
  }

  predicate HasId(tasks: seq<Work>, id: string) {
    exists i :: 0 <= i < |tasks| && tasks[i].id == id
  }

  /** No new task takes an id already in the list or used twice among the new ones. */
  predicate AdditionsAvailable(tasks: seq<Work>, additions: seq<Work>) {
    (forall i :: 0 <= i < |additions| ==> !HasId(tasks, additions[i].id)) &&
    forall i, j :: 0 <= i < j < |additions| ==> additions[i].id != additions[j].id
  }

  /** The check an author's result passes before it is saved, and again before it is committed. */
  ghost function Checked(repositoryIds: seq<string>, tasks: seq<Work>, t: Work, r: WorkResult)
    : Outcome<seq<Work>, Problem>
  {
    if !CompleteResult(r) then Refused(IncompleteResult)
    else match Expand(repositoryIds, t, r)
      case Refused(problem) => Refused(problem)
      case Ok(additions) => if AdditionsAvailable(tasks, additions) then Ok(additions) else Refused(TaskIdTaken)
  }

  // ----- the state machine: every event ends in exactly one durable write of the task list

  datatype Stage = Authoring | Reviewing

  /** The stored task list and, for this process, the tasks in flight by position. */
  datatype State = State(tasks: seq<Work>, active: map<nat, Stage>)

  /** An author's or a reviewer's answer; a refused answer is one that threw. */
  datatype Event =
    | Start(k: nat)
    | Authored(k: nat, reply: Outcome<WorkResult, string>)
    | Reviewed(k: nat, verdict: Outcome<Option<string>, string>)
    | Restart

  predicate DoneWith(tasks: seq<Work>, id: string) {
    exists j :: 0 <= j < |tasks| && tasks[j].id == id && tasks[j].status == Done
  }

  predicate Ready(tasks: seq<Work>, k: nat)
    requires k < |tasks|
  {
    tasks[k].status == Pending &&
    forall i :: 0 <= i < |tasks[k].dependencies| ==> DoneWith(tasks, tasks[k].dependencies[i])
  }

  function Begun(t: Work): Work {
    t.(status := Running, attempts := t.attempts + 1)
  }

  /** One failed attempt; only a failure of the review itself keeps the author's result. */
  function FailedAttempt(t: Work, keepResult: bool, problem: Problem): Work {
    t.(result := if keepResult then t.result else None,
       feedback := Some(problem),
       status := if t.attempts >= MAX_ATTEMPTS then Failed else Pending)
  }

  function Resumed(t: Work): Work {
    if t.status == Running || t.status == Failed then t.(status := Pending, attempts := 0) else t
  }

  function ResumedAll(tasks: seq<Work>): (r: seq<Work>)
    ensures |r| == |tasks| && forall i :: 0 <= i < |tasks| ==> r[i] == Resumed(tasks[i])
  {
    seq(|tasks|, i requires 0 <= i < |tasks| => Resumed(tasks[i]))
  }

  const INITIAL_TASKS := [NewTask("inventory", Inventory, [], None)]

  predicate Enabled(limit: nat, s: State, e: Event) {
    match e
    case Start(k) => k < |s.tasks| && |s.active| < limit && Ready(s.tasks, k)
    case Authored(k, reply) =>
      k < |s.tasks| && k in s.active && s.active[k] == Authoring &&
      // A result saved before an interruption is reviewed again, not authored again.
      (s.tasks[k].result.Some? ==> reply == Ok(s.tasks[k].result.value))
    case Reviewed(k, _) =>
      k < |s.tasks| && k in s.active && s.active[k] == Reviewing && s.tasks[k].result.Some?
    case Restart => true
  }

  predicate Passed(verdict: Outcome<Option<string>, string>) {
    verdict.Ok? && (verdict.value.None? || verdict.value.value == "")
  }

  function AfterFailure(s: State, k: nat, keepResult: bool, problem: Problem): State
    requires k < |s.tasks|
  {
    State(s.tasks[k := FailedAttempt(s.tasks[k], keepResult, problem)], s.active - {k})
  }

  ghost function Next(repositoryIds: seq<string>, limit: nat, s: State, e: Event): State
    requires Enabled(limit, s, e)
  {
    match e
    case Start(k) =>
      State(s.tasks[k := Begun(s.tasks[k])], s.active[k := Authoring])
    case Authored(k, Refused(text)) =>
      AfterFailure(s, k, false, Thrown(text))
    case Authored(k, Ok(r)) =>
      (match Checked(repositoryIds, s.tasks, s.tasks[k], r)
       case Refused(problem) => AfterFailure(s, k, false, problem)
       case Ok(_) => State(s.tasks[k := s.tasks[k].(result := Some(r))], s.active[k := Reviewing]))
    case Reviewed(k, Refused(text)) =>
      AfterFailure(s, k, true, Thrown(text))
    case Reviewed(k, Ok(feedback)) =>
      if !Passed(Ok(feedback)) then AfterFailure(s, k, false, ReviewFeedback(feedback.value))
      else (match Checked(repositoryIds, s.tasks, s.tasks[k], s.tasks[k].result.value)
            case Refused(problem) => AfterFailure(s, k, false, problem)
            case Ok(additions) =>
              State(s.tasks[k := s.tasks[k].(status := Done, feedback := None)] + additions, s.active - {k}))
    case Restart =>
      State(ResumedAll(s.tasks), map[])
  }
}
