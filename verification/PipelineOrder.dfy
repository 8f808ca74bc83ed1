/** The order of the research and its extent, told by what the inventory and the plans found: which tasks
    there are, and what each of them waits for. */
module PipelineOrder {
  import opened Prelude
  import opened DependencyGraph
  import opened ComponentPipeline
  import opened PipelineProofs

  // ----- where tasks come from

  ghost predicate AddedBy(repositoryIds: seq<string>, parent: Work, t: Work) {
    parent.status == Done && Accepted(repositoryIds, parent) &&
    var children := Expand(repositoryIds, parent, parent.result.value).value;
    exists i :: 0 <= i < |children| && SameTask(children[i], t)
  }

  ghost predicate Added(repositoryIds: seq<string>, tasks: seq<Work>, t: Work) {
    exists j :: 0 <= j < |tasks| && AddedBy(repositoryIds, tasks[j], t)
  }

  /** The list begins with the inventory, and done tasks added all the others. */
  ghost predicate Descent(repositoryIds: seq<string>, tasks: seq<Work>) {
    && tasks != [] && SameTask(tasks[0], INITIAL_TASKS[0])
    && forall k :: 0 < k < |tasks| ==> Added(repositoryIds, tasks, tasks[k])
  }

  lemma EvolvesKeepsAdded(repositoryIds: seq<string>, before: seq<Work>, after: seq<Work>, t: Work, u: Work)
    requires Evolves(before, after) && Added(repositoryIds, before, t) && SameTask(t, u)
    ensures Added(repositoryIds, after, u)
  {
    var j :| 0 <= j < |before| && AddedBy(repositoryIds, before[j], t);
    ExpansionOf(repositoryIds, before[j], after[j], before[j].result.value);
    var children := Expand(repositoryIds, before[j], before[j].result.value).value;
    var i :| 0 <= i < |children| && SameTask(children[i], t);
    assert SameTask(children[i], u);
    assert AddedBy(repositoryIds, after[j], u);
  }

  lemma CommitAdds(repositoryIds: seq<string>, limit: nat, s: State, e: Event, k: nat)
    requires Inv(repositoryIds, limit, s) && Enabled(limit, s, e)
    requires |s.tasks| <= k < |Next(repositoryIds, limit, s, e).tasks|
    ensures var after := Next(repositoryIds, limit, s, e).tasks; Added(repositoryIds, after, after[k])
  {
    var after := Next(repositoryIds, limit, s, e).tasks;
    var r := s.tasks[e.k].result.value;
    ExpansionOf(repositoryIds, s.tasks[e.k], after[e.k], r);
    var children := Expand(repositoryIds, s.tasks[e.k], r).value;
    assert SameTask(children[k - |s.tasks|], after[k]);
    assert AddedBy(repositoryIds, after[e.k], after[k]);
  }

  lemma StepKeepsDescent(repositoryIds: seq<string>, limit: nat, s: State, e: Event)
    requires Inv(repositoryIds, limit, s) && Enabled(limit, s, e) && Descent(repositoryIds, s.tasks)
    ensures Descent(repositoryIds, Next(repositoryIds, limit, s, e).tasks)
  {
    var after := Next(repositoryIds, limit, s, e).tasks;
    StepEvolves(repositoryIds, limit, s, e);
    assert SameTask(s.tasks[0], after[0]);
    forall k | 0 < k < |after| ensures Added(repositoryIds, after, after[k]) {
      if k < |s.tasks| {
        EvolvesKeepsAdded(repositoryIds, s.tasks, after, s.tasks[k], after[k]);
      } else {
        CommitAdds(repositoryIds, limit, s, e, k);
      }
    }
  }

  lemma {:induction false} ExecutionKeepsDescent(repositoryIds: seq<string>, limit: nat, s: State, events: seq<Event>,
                                                 last: State)
    requires Inv(repositoryIds, limit, s) && Descent(repositoryIds, s.tasks)
    requires Execution(repositoryIds, limit, s, events, last)
    ensures Inv(repositoryIds, limit, last) && Descent(repositoryIds, last.tasks)
    decreases |events|
  {
    if events != [] {
      StepKeepsInv(repositoryIds, limit, s, events[0]);
      StepKeepsDescent(repositoryIds, limit, s, events[0]);
      ExecutionKeepsDescent(repositoryIds, limit, Next(repositoryIds, limit, s, events[0]), events[1..], last);
    }
  }

  // ----- what was found, and what there is

  /** The inventory is done and found these components. */
  ghost predicate Found(tasks: seq<Work>, cs: seq<Component>) {
    exists i :: 0 <= i < |tasks| && tasks[i].phase == Inventory && tasks[i].status == Done
                && tasks[i].result.Some? && tasks[i].result.value.components == Some(cs)
  }

  /** The component's plan is done and asks for these paradigms. */
  ghost predicate Planned(tasks: seq<Work>, c: string, ps: seq<Need>) {
    exists j :: 0 <= j < |tasks| && tasks[j].phase == Plan && tasks[j].component == Some(c) && tasks[j].status == Done
                && tasks[j].result.Some? && tasks[j].result.value.paradigms == Some(ps)
  }

  /** There is a task of this phase for this component; `done` says that it also has to be done. */
  ghost predicate Has(tasks: seq<Work>, phase: Phase, c: Option<string>, done: bool) {
    exists j :: 0 <= j < |tasks| && tasks[j].phase == phase && tasks[j].component == c
                && (done ==> tasks[j].status == Done)
  }

  ghost predicate HasParadigm(tasks: seq<Work>, c: string, p: string, done: bool) {
    exists j :: 0 <= j < |tasks| && tasks[j].phase == Paradigm && tasks[j].component == Some(c)
                && tasks[j].id == ParadigmId(c, p) && (done ==> tasks[j].status == Done)
  }

  /** What a task that runs or is done has waited for. */
  ghost predicate Waited(tasks: seq<Work>, t: Work) {
    match t.phase
    case Inventory => true
    case Plan => exists cs: seq<Component> :: Found(tasks, cs)
    case Contracts => t.component.Some? && exists ps :: Planned(tasks, t.component.value, ps)
    case Paradigm => Has(tasks, Contracts, t.component, true)
    case Pitfalls => t.component.Some? && exists ps: seq<Need> ::
      Planned(tasks, t.component.value, ps)
      && forall i :: 0 <= i < |ps| ==> HasParadigm(tasks, t.component.value, ps[i].id, true)
    case Index => Has(tasks, Pitfalls, t.component, true)
    case Synthesis => exists cs: seq<Component> ::
      Found(tasks, cs) && forall i :: 0 <= i < |cs| ==> Has(tasks, Index, Some(cs[i].id), true)
  }

  // ----- one task

  /** The id and the component of a task tell its phase. */
  ghost predicate Formed(t: Work) {
    match t.phase
    case Inventory => t.id == "inventory" && t.component.None?
    case Plan => t.component.Some? && t.id == PlanId(t.component.value)
    case Contracts => t.component.Some? && t.id == ContractsId(t.component.value)
    case Paradigm => t.component.Some? && exists p :: t.id == ParadigmId(t.component.value, p)
    case Pitfalls => t.component.Some? && t.id == PitfallsId(t.component.value)
    case Index => t.component.Some? && t.id == IndexId(t.component.value)
    case Synthesis => t.id == "synthesis" && t.component.None?
  }

  lemma AddedIsFormed(repositoryIds: seq<string>, parent: Work, t: Work)
    requires AddedBy(repositoryIds, parent, t) && (parent.phase == Plan ==> parent.component.Some?)
    ensures Formed(t)
    ensures parent.phase == if t.phase == Plan || t.phase == Synthesis then Inventory else Plan
    ensures t.phase != Inventory
  {
    var r := parent.result.value;
    var children := Expand(repositoryIds, parent, r).value;
    var i :| 0 <= i < |children| && SameTask(children[i], t);
    if parent.phase == Plan && 1 <= i <= |r.paradigms.value| {
      assert t.id == ParadigmId(parent.component.value, r.paradigms.value[i - 1].id);
    }
  }

  lemma TaskIsFormed(repositoryIds: seq<string>, tasks: seq<Work>, k: nat)
    requires TasksInv(repositoryIds, tasks) && Descent(repositoryIds, tasks) && k < |tasks|
    ensures Formed(tasks[k]) && (tasks[k].phase == Inventory ==> k == 0)
  {
    if k > 0 {
      var j :| 0 <= j < |tasks| && AddedBy(repositoryIds, tasks[j], tasks[k]);
      assert TaskInv(repositoryIds, tasks, tasks[j]);
      AddedIsFormed(repositoryIds, tasks[j], tasks[k]);
    }
  }

  lemma IndexIdTells(t: Work, c: string)
    requires Formed(t) && t.id == IndexId(c)
    ensures t.phase == Index && t.component == Some(c)
  {
    assert t.id[0] == 'i' && t.id[2] == 'd';
    if t.phase == Index {
      assert t.id[6..] == c == t.component.value;
    }
  }

  lemma SameIdSamePlace(tasks: seq<Work>, i: nat, j: nat)
    requires UniqueTasks(tasks) && i < |tasks| && j < |tasks| && tasks[i].id == tasks[j].id
    ensures i == j
  {
  }

  /** There is one inventory, and besides the paradigms one task of each phase for a component. */
  lemma OneOfEach(repositoryIds: seq<string>, tasks: seq<Work>, i: nat, j: nat)
    requires TasksInv(repositoryIds, tasks) && Descent(repositoryIds, tasks) && i < |tasks| && j < |tasks|
    requires tasks[i].phase == tasks[j].phase != Paradigm && tasks[i].component == tasks[j].component
    ensures i == j
  {
    TaskIsFormed(repositoryIds, tasks, i);
    TaskIsFormed(repositoryIds, tasks, j);
    SameIdSamePlace(tasks, i, j);
  }

  // ----- what a started task has waited for

  /** A dependency on a task that the same result added is a dependency on exactly that task. */
  lemma SiblingDone(repositoryIds: seq<string>, tasks: seq<Work>, j: nat, i: nat) returns (m: nat)
    requires TasksInv(repositoryIds, tasks) && j < |tasks|
    requires tasks[j].status == Done && Accepted(repositoryIds, tasks[j])
    requires i < |Expand(repositoryIds, tasks[j], tasks[j].result.value).value|
    requires DoneWith(tasks, Expand(repositoryIds, tasks[j], tasks[j].result.value).value[i].id)
    ensures m < |tasks| && tasks[m].status == Done
    ensures SameTask(tasks[m], Expand(repositoryIds, tasks[j], tasks[j].result.value).value[i])
  {
    var child := Expand(repositoryIds, tasks[j], tasks[j].result.value).value[i];
    assert TaskInv(repositoryIds, tasks, tasks[j]);
    assert Present(tasks, child);
    m :| 0 <= m < |tasks| && SameTask(tasks[m], child);
    var d :| 0 <= d < |tasks| && tasks[d].id == child.id && tasks[d].status == Done;
    SameIdSamePlace(tasks, m, d);
  }

  lemma IndexIsDone(repositoryIds: seq<string>, tasks: seq<Work>, c: string)
    requires TasksInv(repositoryIds, tasks) && Descent(repositoryIds, tasks) && DoneWith(tasks, IndexId(c))
    ensures Has(tasks, Index, Some(c), true)
  {
    var m :| 0 <= m < |tasks| && tasks[m].id == IndexId(c) && tasks[m].status == Done;
    TaskIsFormed(repositoryIds, tasks, m);
    IndexIdTells(tasks[m], c);
  }

  lemma SynthesisDepends(repositoryIds: seq<string>, parent: Work, t: Work)
    requires AddedBy(repositoryIds, parent, t) && t.phase == Synthesis && parent.phase == Inventory
    ensures parent.result.value.components.Some?
    ensures var cs := parent.result.value.components.value;
            |t.dependencies| == |cs| && forall i :: 0 <= i < |cs| ==> t.dependencies[i] == IndexId(cs[i].id)
  {
  }

  lemma SynthesisWaited(repositoryIds: seq<string>, tasks: seq<Work>, j: nat, t: Work)
    requires TasksInv(repositoryIds, tasks) && Descent(repositoryIds, tasks) && j < |tasks|
    requires AddedBy(repositoryIds, tasks[j], t) && t.phase == Synthesis && DependenciesDone(tasks, t)
    requires tasks[j].phase == Inventory
    ensures Waited(tasks, t)
  {
    SynthesisDepends(repositoryIds, tasks[j], t);
    var cs := tasks[j].result.value.components.value;
    assert Found(tasks, cs);
    forall i | 0 <= i < |cs| ensures Has(tasks, Index, Some(cs[i].id), true) {
      assert DoneWith(tasks, t.dependencies[i]);
      IndexIsDone(repositoryIds, tasks, cs[i].id);
    }
  }

  /** What accepting a plan adds, by place. */
  lemma PlanChildren(repositoryIds: seq<string>, parent: Work)
    requires parent.phase == Plan && parent.component.Some? && Accepted(repositoryIds, parent)
    ensures parent.result.value.paradigms.Some?
    ensures var c := parent.component.value;
            var ps := parent.result.value.paradigms.value;
            var children := Expand(repositoryIds, parent, parent.result.value).value;
            && |children| == |ps| + 3
            && children[0].phase == Contracts && children[0].id == ContractsId(c)
            && children[|ps| + 1].phase == Pitfalls && children[|ps| + 1].id == PitfallsId(c)
            && children[|ps| + 2].phase == Index
            && (forall i :: 0 <= i < |children| ==> children[i].component == Some(c))
            && forall i :: 0 <= i < |ps| ==>
                 children[i + 1].phase == Paradigm && children[i + 1].id == ParadigmId(c, ps[i].id)
  {
  }

  /** What a task that a plan added depends on. */
  ghost predicate DependsAsPlanned(t: Work, c: string, ps: seq<Need>) {
    && t.component == Some(c) && t.phase in {Contracts, Paradigm, Pitfalls, Index}
    && (t.phase == Paradigm ==>
          t.dependencies == [ContractsId(c)] && exists i :: 0 <= i < |ps| && t.id == ParadigmId(c, ps[i].id))
    && (t.phase == Pitfalls ==>
          |t.dependencies| == |ps| && forall i :: 0 <= i < |ps| ==> t.dependencies[i] == ParadigmId(c, ps[i].id))
    && (t.phase == Index ==> t.dependencies == [PitfallsId(c)])
  }

  lemma PlanChildAt(parent: string, c: string, ps: seq<Need>, i: nat)
    requires i < |PlanAdditions(parent, c, ps)|
    ensures DependsAsPlanned(PlanAdditions(parent, c, ps)[i], c, ps)
  {
    var t := PlanAdditions(parent, c, ps)[i];
    assert 1 <= i <= |ps| ==> t.id == ParadigmId(c, ps[i - 1].id);
  }

  lemma PlanChild(repositoryIds: seq<string>, parent: Work, t: Work)
    requires AddedBy(repositoryIds, parent, t) && parent.phase == Plan && parent.component.Some?
    ensures parent.result.value.paradigms.Some?
    ensures DependsAsPlanned(t, parent.component.value, parent.result.value.paradigms.value)
  {
    var c, ps := parent.component.value, parent.result.value.paradigms.value;
    var children := PlanAdditions(parent.id, c, ps);
    var i :| 0 <= i < |children| && SameTask(children[i], t);
    PlanChildAt(parent.id, c, ps, i);
  }

  lemma PlannedWaited(repositoryIds: seq<string>, tasks: seq<Work>, j: nat, t: Work)
    requires TasksInv(repositoryIds, tasks) && j < |tasks| && tasks[j].phase == Plan && tasks[j].component.Some?
    requires AddedBy(repositoryIds, tasks[j], t) && DependenciesDone(tasks, t)
    ensures Waited(tasks, t)
  {
    var ps := tasks[j].result.value.paradigms.value;
    var c := tasks[j].component.value;
    PlanChildren(repositoryIds, tasks[j]);
    PlanChild(repositoryIds, tasks[j], t);
    assert Planned(tasks, c, ps);
    if t.phase == Paradigm {
      assert DoneWith(tasks, t.dependencies[0]);
      var m := SiblingDone(repositoryIds, tasks, j, 0);
    } else if t.phase == Pitfalls {
      PitfallsWaited(repositoryIds, tasks, j, t);
    } else if t.phase == Index {
      assert DoneWith(tasks, t.dependencies[0]);
      var m := SiblingDone(repositoryIds, tasks, j, |ps| + 1);
    }
  }

  lemma PitfallsWaited(repositoryIds: seq<string>, tasks: seq<Work>, j: nat, t: Work)
    requires TasksInv(repositoryIds, tasks) && j < |tasks| && tasks[j].phase == Plan && tasks[j].component.Some?
    requires AddedBy(repositoryIds, tasks[j], t) && DependenciesDone(tasks, t) && t.phase == Pitfalls
    ensures tasks[j].result.value.paradigms.Some?
    ensures var ps := tasks[j].result.value.paradigms.value;
            forall d :: 0 <= d < |ps| ==> HasParadigm(tasks, tasks[j].component.value, ps[d].id, true)
  {
    var ps := tasks[j].result.value.paradigms.value;
    PlanChildren(repositoryIds, tasks[j]);
    PlanChild(repositoryIds, tasks[j], t);
    forall d | 0 <= d < |ps| ensures HasParadigm(tasks, tasks[j].component.value, ps[d].id, true) {
      assert DoneWith(tasks, t.dependencies[d]);
      var m := SiblingDone(repositoryIds, tasks, j, d + 1);
    }
  }

  lemma StartedWaited(repositoryIds: seq<string>, tasks: seq<Work>, k: nat)
    requires TasksInv(repositoryIds, tasks) && Descent(repositoryIds, tasks) && k < |tasks|
    requires tasks[k].status == Running || tasks[k].status == Done
    ensures Waited(tasks, tasks[k])
  {
    assert TaskInv(repositoryIds, tasks, tasks[k]);
    if k > 0 {
      var j :| 0 <= j < |tasks| && AddedBy(repositoryIds, tasks[j], tasks[k]);
      assert TaskInv(repositoryIds, tasks, tasks[j]);
      AddedIsFormed(repositoryIds, tasks[j], tasks[k]);
      if tasks[k].phase == Synthesis {
        SynthesisWaited(repositoryIds, tasks, j, tasks[k]);
      } else if tasks[j].phase == Plan {
        PlannedWaited(repositoryIds, tasks, j, tasks[k]);
      } else {
        assert Found(tasks, tasks[j].result.value.components.value);
      }
    }
  }

  /** In every state of every run: a synthesis that runs or is done has a done index for every component the
      inventory found, an index its done pitfalls, those every paradigm its plan asked for, a paradigm its done
      contracts, contracts their done plan, and a plan the done inventory. */
  lemma {:induction false} EachPhaseWaits(repositoryIds: seq<string>, limit: nat, events: seq<Event>, s: State, k: nat)
    requires Execution(repositoryIds, limit, State(INITIAL_TASKS, map[]), events, s)
    requires k < |s.tasks| && (s.tasks[k].status == Running || s.tasks[k].status == Done)
    ensures Waited(s.tasks, s.tasks[k])
  {
    ReachableDescent(repositoryIds, limit, events, s);
    StartedWaited(repositoryIds, s.tasks, k);
  }

  lemma {:induction false} ReachableDescent(repositoryIds: seq<string>, limit: nat, events: seq<Event>, s: State)
    requires Execution(repositoryIds, limit, State(INITIAL_TASKS, map[]), events, s)
    ensures TasksInv(repositoryIds, s.tasks) && Descent(repositoryIds, s.tasks)
  {
    InitialInv(repositoryIds, limit);
    ExecutionKeepsDescent(repositoryIds, limit, State(INITIAL_TASKS, map[]), events, s);
  }

  /** What was found is found once: the inventory's components and each plan's paradigms are unambiguous. */
  lemma {:induction false} FoundOnce(repositoryIds: seq<string>, limit: nat, events: seq<Event>, s: State)
    requires Execution(repositoryIds, limit, State(INITIAL_TASKS, map[]), events, s)
    ensures forall a, b :: Found(s.tasks, a) && Found(s.tasks, b) ==> a == b
    ensures forall c, a, b :: Planned(s.tasks, c, a) && Planned(s.tasks, c, b) ==> a == b
  {
    ReachableDescent(repositoryIds, limit, events, s);
    forall a, b | Found(s.tasks, a) && Found(s.tasks, b) ensures a == b {
      var i :| 0 <= i < |s.tasks| && s.tasks[i].phase == Inventory && s.tasks[i].result.Some?
               && s.tasks[i].result.value.components == Some(a);
      var j :| 0 <= j < |s.tasks| && s.tasks[j].phase == Inventory && s.tasks[j].result.Some?
               && s.tasks[j].result.value.components == Some(b);
      TaskIsFormed(repositoryIds, s.tasks, i);
      TaskIsFormed(repositoryIds, s.tasks, j);
    }
    forall c, a, b | Planned(s.tasks, c, a) && Planned(s.tasks, c, b) ensures a == b {
      var i :| 0 <= i < |s.tasks| && s.tasks[i].phase == Plan && s.tasks[i].component == Some(c)
               && s.tasks[i].result.Some? && s.tasks[i].result.value.paradigms == Some(a);
      var j :| 0 <= j < |s.tasks| && s.tasks[j].phase == Plan && s.tasks[j].component == Some(c)
               && s.tasks[j].result.Some? && s.tasks[j].result.value.paradigms == Some(b);
      OneOfEach(repositoryIds, s.tasks, i, j);
    }
  }

  // ----- the extent of the research

  /** A done inventory has the synthesis and a plan for every component it found in the list. */
  lemma FoundIsListed(repositoryIds: seq<string>, tasks: seq<Work>, cs: seq<Component>)
    requires TasksInv(repositoryIds, tasks) && Found(tasks, cs)
    ensures Has(tasks, Synthesis, None, false)
    ensures forall i :: 0 <= i < |cs| ==> Has(tasks, Plan, Some(cs[i].id), false)
  {
    var j :| 0 <= j < |tasks| && tasks[j].phase == Inventory && tasks[j].status == Done
             && tasks[j].result.Some? && tasks[j].result.value.components == Some(cs);
    assert TaskInv(repositoryIds, tasks, tasks[j]);
    var children := Expand(repositoryIds, tasks[j], tasks[j].result.value).value;
    assert Present(tasks, children[|cs|]);
    forall i | 0 <= i < |cs| ensures Has(tasks, Plan, Some(cs[i].id), false) {
      assert Present(tasks, children[i]);
    }
  }

  /** A done plan has everything its component still needs in the list. */
  lemma PlannedIsListed(repositoryIds: seq<string>, tasks: seq<Work>, c: string, ps: seq<Need>)
    requires TasksInv(repositoryIds, tasks) && Planned(tasks, c, ps)
    ensures Has(tasks, Contracts, Some(c), false) && Has(tasks, Pitfalls, Some(c), false)
            && Has(tasks, Index, Some(c), false)
    ensures forall i :: 0 <= i < |ps| ==> HasParadigm(tasks, c, ps[i].id, false)
  {
    var j :| 0 <= j < |tasks| && tasks[j].phase == Plan && tasks[j].component == Some(c) && tasks[j].status == Done
             && tasks[j].result.Some? && tasks[j].result.value.paradigms == Some(ps);
    assert TaskInv(repositoryIds, tasks, tasks[j]);
    PlanChildren(repositoryIds, tasks[j]);
    var children := Expand(repositoryIds, tasks[j], tasks[j].result.value).value;
    PresentIsHad(tasks, children[0]);
    PresentIsHad(tasks, children[|ps| + 1]);
    PresentIsHad(tasks, children[|ps| + 2]);
    forall i | 0 <= i < |ps| ensures HasParadigm(tasks, c, ps[i].id, false) {
      assert Present(tasks, children[i + 1]);
    }
  }

  lemma PresentIsHad(tasks: seq<Work>, t: Work)
    requires Present(tasks, t)
    ensures Has(tasks, t.phase, t.component, false)
  {
  }

  /** The whole research of one component is done: its plan, and all that its plan asks for. */
  ghost predicate Researched(tasks: seq<Work>, c: string) {
    exists ps: seq<Need> ::
      && Planned(tasks, c, ps) && Has(tasks, Contracts, Some(c), true) && Has(tasks, Pitfalls, Some(c), true)
      && Has(tasks, Index, Some(c), true) && forall i :: 0 <= i < |ps| ==> HasParadigm(tasks, c, ps[i].id, true)
  }

  lemma AllAreDone(tasks: seq<Work>, phase: Phase, c: Option<string>)
    requires AllDone(tasks) && Has(tasks, phase, c, false)
    ensures Has(tasks, phase, c, true)
  {
  }

  /** When every task is done, every component the inventory found is researched, and the synthesis is written. */
  lemma {:induction false} CompletedResearch(repositoryIds: seq<string>, limit: nat, events: seq<Event>, s: State)
    requires Execution(repositoryIds, limit, State(INITIAL_TASKS, map[]), events, s) && AllDone(s.tasks)
    ensures Has(s.tasks, Synthesis, None, true)
    ensures exists cs: seq<Component> ::
              Found(s.tasks, cs) && forall i :: 0 <= i < |cs| ==> Researched(s.tasks, cs[i].id)
  {
    ReachableDescent(repositoryIds, limit, events, s);
    assert TaskInv(repositoryIds, s.tasks, s.tasks[0]);
    var cs := s.tasks[0].result.value.components.value;
    assert Found(s.tasks, cs);
    FoundIsListed(repositoryIds, s.tasks, cs);
    forall i | 0 <= i < |cs| ensures Researched(s.tasks, cs[i].id) {
      PlanDoneIsResearched(repositoryIds, s.tasks, cs[i].id);
    }
  }

  lemma PlanDoneIsResearched(repositoryIds: seq<string>, tasks: seq<Work>, c: string)
    requires TasksInv(repositoryIds, tasks) && AllDone(tasks) && Has(tasks, Plan, Some(c), false)
    ensures Researched(tasks, c)
  {
    var j :| 0 <= j < |tasks| && tasks[j].phase == Plan && tasks[j].component == Some(c);
    PlanHasResult(repositoryIds, tasks, j);
    var ps := tasks[j].result.value.paradigms.value;
    assert Planned(tasks, c, ps);
    PlannedIsListed(repositoryIds, tasks, c, ps);
    ListedIsDone(tasks, c, ps);
  }

  lemma ListedIsDone(tasks: seq<Work>, c: string, ps: seq<Need>)
    requires AllDone(tasks) && Planned(tasks, c, ps)
    requires Has(tasks, Contracts, Some(c), false) && Has(tasks, Pitfalls, Some(c), false)
             && Has(tasks, Index, Some(c), false)
    requires forall i :: 0 <= i < |ps| ==> HasParadigm(tasks, c, ps[i].id, false)
    ensures Researched(tasks, c)
  {
    AllAreDone(tasks, Contracts, Some(c));
    AllAreDone(tasks, Pitfalls, Some(c));
    AllAreDone(tasks, Index, Some(c));
    forall i | 0 <= i < |ps| ensures HasParadigm(tasks, c, ps[i].id, true) {
      assert HasParadigm(tasks, c, ps[i].id, false);
    }
  }

  lemma PlanHasResult(repositoryIds: seq<string>, tasks: seq<Work>, j: nat)
    requires TasksInv(repositoryIds, tasks) && j < |tasks| && tasks[j].phase == Plan && tasks[j].status == Done
    ensures tasks[j].result.Some? && tasks[j].result.value.paradigms.Some?
  {
    assert TaskInv(repositoryIds, tasks, tasks[j]);
  }

  /** Nothing else is in the list: plans are for found components, and the rest is what their plans ask for. */
  lemma {:induction false} NothingElse(repositoryIds: seq<string>, limit: nat, events: seq<Event>, s: State, k: nat)
    requires Execution(repositoryIds, limit, State(INITIAL_TASKS, map[]), events, s) && k < |s.tasks|
    ensures Belongs(s.tasks, k)
    ensures forall j :: 0 <= j < |s.tasks| && SamePurpose(s.tasks[j], s.tasks[k]) ==> j == k
  {
    ReachableDescent(repositoryIds, limit, events, s);
    forall j | 0 <= j < |s.tasks| && SamePurpose(s.tasks[j], s.tasks[k]) ensures j == k {
      if s.tasks[k].phase == Paradigm {
        SameIdSamePlace(s.tasks, j, k);
      } else {
        OneOfEach(repositoryIds, s.tasks, j, k);
      }
    }
    if k > 0 {
      var j :| 0 <= j < |s.tasks| && AddedBy(repositoryIds, s.tasks[j], s.tasks[k]);
      assert TaskInv(repositoryIds, s.tasks, s.tasks[j]);
      AddedBelongs(repositoryIds, s.tasks, j, k);
    }
  }

  predicate SamePurpose(a: Work, b: Work) {
    a.phase == b.phase && a.component == b.component && (a.phase == Paradigm ==> a.id == b.id)
  }

  ghost predicate Belongs(tasks: seq<Work>, k: nat)
    requires k < |tasks|
  {
    var t := tasks[k];
    match t.phase
    case Inventory => k == 0 && t.component.None?
    case Plan => exists cs: seq<Component> ::
      Found(tasks, cs) && exists i :: 0 <= i < |cs| && t.component == Some(cs[i].id)
    case Synthesis => t.component.None? && exists cs: seq<Component> :: Found(tasks, cs)
    case Paradigm => t.component.Some? && exists ps: seq<Need> ::
      Planned(tasks, t.component.value, ps)
      && exists i :: 0 <= i < |ps| && t.id == ParadigmId(t.component.value, ps[i].id)
    case _ => t.component.Some? && exists ps: seq<Need> :: Planned(tasks, t.component.value, ps)
  }

  lemma AddedBelongs(repositoryIds: seq<string>, tasks: seq<Work>, j: nat, k: nat)
    requires j < |tasks| && k < |tasks| && AddedBy(repositoryIds, tasks[j], tasks[k])
    requires tasks[j].phase == Plan ==> tasks[j].component.Some?
    ensures Belongs(tasks, k)
  {
    AddedIsFormed(repositoryIds, tasks[j], tasks[k]);
    if tasks[j].phase == Inventory {
      InventoryChild(repositoryIds, tasks[j], tasks[k]);
      assert Found(tasks, tasks[j].result.value.components.value);
    } else {
      PlanChild(repositoryIds, tasks[j], tasks[k]);
      assert Planned(tasks, tasks[j].component.value, tasks[j].result.value.paradigms.value);
    }
  }

  lemma InventoryChild(repositoryIds: seq<string>, parent: Work, t: Work)
    requires AddedBy(repositoryIds, parent, t) && parent.phase == Inventory
    ensures parent.result.value.components.Some?
    ensures var cs := parent.result.value.components.value;
            && (t.phase == Synthesis ==> t.component.None?)
            && (t.phase == Plan ==> exists i :: 0 <= i < |cs| && t.component == Some(cs[i].id))
            && (t.phase == Plan || t.phase == Synthesis)
  {
    var cs := parent.result.value.components.value;
    var children := Expand(repositoryIds, parent, parent.result.value).value;
    var i :| 0 <= i < |children| && SameTask(children[i], t);
    assert i < |cs| ==> t.component == Some(cs[i].id);
  }

  // ----- what an inventory may say

  /** The one component lists the other's id. */
  predicate Lists(a: Component, b: Component) {
    a.dependencies.Listed? && b.id in a.dependencies.ids
  }

  /** A closed chain of components, each of which lists the next. */
  ghost predicate DependencyCycle(cs: seq<Component>, chain: seq<Component>) {
    && |chain| >= 2 && chain[0] == chain[|chain| - 1] && (forall i :: 0 <= i < |chain| ==> chain[i] in cs)
    && forall i :: 0 < i < |chain| ==> Lists(chain[i - 1], chain[i])
  }

  ghost predicate IdsApart(cs: seq<Component>) {
    forall a, b :: a in cs && b in cs && a.id == b.id ==> a == b
  }

  lemma ShapeIsApart(repositoryIds: seq<string>, cs: seq<Component>)
    requires InventoryShape(repositoryIds, cs)
    ensures IdsApart(cs)
  {
    forall a, b | a in cs && b in cs && a.id == b.id ensures a == b {
      var i :| 0 <= i < |cs| && cs[i] == a;
      var j :| 0 <= j < |cs| && cs[j] == b;
      assert ComponentIds(cs)[i] == ComponentIds(cs)[j];
    }
  }

  lemma {:induction false} GraphOf(cs: seq<Component>, c: Component)
    requires IdsApart(cs) && c in cs
    ensures c.id in ModuleGraph(cs) && ModuleGraph(cs)[c.id] == Dependencies(c)
  {
    var g := ModuleGraph(cs);
    var i :| 0 <= i < |cs| && cs[i] == c;
    assert ComponentIds(cs)[i] == c.id;
    assert c.id in g;
    var j :| 0 <= j < |cs| && cs[j].id == c.id && g[c.id] == Dependencies(cs[j]);
    assert cs[j] in cs;
  }

  lemma {:induction false} ListsIsEdge(cs: seq<Component>, a: Component, b: Component)
    requires IdsApart(cs) && a in cs && b in cs
    ensures Lists(a, b) <==> DependsOn(ModuleGraph(cs), a.id, b.id)
  {
    GraphOf(cs, a);
  }

  lemma {:induction false} CycleOfIds(cs: seq<Component>, chain: seq<Component>)
    requires IdsApart(cs) && DependencyCycle(cs, chain)
    ensures !Acyclic(ModuleGraph(cs))
  {
    var p := seq(|chain|, i requires 0 <= i < |chain| => chain[i].id);
    forall i | 0 < i < |p| ensures DependsOn(ModuleGraph(cs), p[i - 1], p[i]) {
      assert Lists(chain[i - 1], chain[i]);
      ListsIsEdge(cs, chain[i - 1], chain[i]);
    }
    assert IsCycle(ModuleGraph(cs), p);
  }

  ghost function Named(cs: seq<Component>, id: string): (c: Component)
    requires exists c :: c in cs && c.id == id
    ensures c in cs && c.id == id
  {
    var c :| c in cs && c.id == id;
    c
  }

  lemma {:induction false} EdgeEndIsNamed(cs: seq<Component>, a: string, b: string)
    requires AllDependenciesKnown(cs) && DependsOn(ModuleGraph(cs), a, b)
    ensures (exists c :: c in cs && c.id == a) && exists c :: c in cs && c.id == b
  {
    var j :| 0 <= j < |cs| && cs[j].id == a && ModuleGraph(cs)[a] == Dependencies(cs[j]);
    assert cs[j] in cs && DependenciesKnown(cs, cs[j]);
    var d :| 0 <= d < |Dependencies(cs[j])| && Dependencies(cs[j])[d] == b;
    assert b in ComponentIds(cs);
    var i :| 0 <= i < |cs| && ComponentIds(cs)[i] == b;
    assert cs[i] in cs;
  }

  lemma {:induction false} CycleOfComponents(cs: seq<Component>, p: seq<string>)
    requires IdsApart(cs) && AllDependenciesKnown(cs) && IsCycle(ModuleGraph(cs), p)
    ensures exists chain :: DependencyCycle(cs, chain)
  {
    forall i | 0 <= i < |p| ensures exists c :: c in cs && c.id == p[i] {
      if i == 0 {
        assert DependsOn(ModuleGraph(cs), p[1 - 1], p[1]);
        EdgeEndIsNamed(cs, p[0], p[1]);
      } else {
        EdgeEndIsNamed(cs, p[i - 1], p[i]);
      }
    }
    var chain := seq(|p|, i requires 0 <= i < |p| => Named(cs, p[i]));
    forall i | 0 < i < |chain| ensures Lists(chain[i - 1], chain[i]) {
      assert DependsOn(ModuleGraph(cs), p[i - 1], p[i]);
      ListsIsEdge(cs, chain[i - 1], chain[i]);
    }
    assert DependencyCycle(cs, chain);
  }

  /** An inventory whose ids and dependencies are sound is refused for a cycle exactly if its components depend on
      one another in a circle. */
  lemma RefusedForCycles(repositoryIds: seq<string>, t: Work, r: WorkResult)
    requires t.phase == Inventory && r.components.Some? && InventoryShape(repositoryIds, r.components.value)
    requires AllDependenciesKnown(r.components.value)
    ensures Expand(repositoryIds, t, r) == Refused(CyclicDependencies)
            <==> exists chain :: DependencyCycle(r.components.value, chain)
  {
    var cs := r.components.value;
    ShapeIsApart(repositoryIds, cs);
    if chain :| DependencyCycle(cs, chain) {
      CycleOfIds(cs, chain);
    }
    if !Acyclic(ModuleGraph(cs)) {
      var p :| IsCycle(ModuleGraph(cs), p);
      CycleOfComponents(cs, p);
    }
  }

  // ----- a run that completes

  /** A ready task whose answers pass is done three events later. */
  lemma {:induction false} TaskCompletes(repositoryIds: seq<string>, tasks: seq<Work>, k: nat, r: WorkResult,
                                         additions: seq<Work>)
    requires k < |tasks| && Ready(tasks, k) && tasks[k].result.None? && tasks[k].attempts == 0
    requires CompleteResult(r) && Expand(repositoryIds, tasks[k], r) == Ok(additions)
    requires AdditionsAvailable(tasks, additions)
    ensures Execution(repositoryIds, 1, State(tasks, map[]), [Start(k), Authored(k, Ok(r)), Reviewed(k, Ok(None))],
                      State(Completing(tasks, k, r) + additions, map[]))
  {
    var s0 := State(tasks, map[]);
    var begun := Begun(tasks[k]);
    var s1 := State(tasks[k := begun], map[k := Authoring]);
    assert Next(repositoryIds, 1, s0, Start(k)) == s1;
    var saved := begun.(result := Some(r));
    SameChecks(repositoryIds, tasks, s1.tasks, k, r, additions);
    var s2 := State(s1.tasks[k := saved], map[k := Reviewing]);
    assert Next(repositoryIds, 1, s1, Authored(k, Ok(r))) == s2;
    SameChecks(repositoryIds, tasks, s2.tasks, k, r, additions);
    var s3 := State(Completing(tasks, k, r) + additions, map[]);
    assert s2.tasks[k := s2.tasks[k].(status := Done, feedback := None)] == Completing(tasks, k, r);
    assert s2.active - {k} == map[];
    assert Next(repositoryIds, 1, s2, Reviewed(k, Ok(None))) == s3;
    assert Execution(repositoryIds, 1, s2, [Reviewed(k, Ok(None))], s3);
    assert Execution(repositoryIds, 1, s1, [Authored(k, Ok(r)), Reviewed(k, Ok(None))], s3);
  }

  function Completing(tasks: seq<Work>, k: nat, r: WorkResult): seq<Work>
    requires k < |tasks|
  {
    tasks[k := tasks[k].(status := Done, attempts := tasks[k].attempts + 1, result := Some(r), feedback := None)]
  }

  lemma SameChecks(repositoryIds: seq<string>, tasks: seq<Work>, now: seq<Work>, k: nat, r: WorkResult,
                   additions: seq<Work>)
    requires k < |tasks| == |now| && SameTask(tasks[k], now[k]) && tasks[k := now[k]] == now
    requires CompleteResult(r) && Expand(repositoryIds, tasks[k], r) == Ok(additions)
    requires AdditionsAvailable(tasks, additions)
    ensures Checked(repositoryIds, now, now[k], r) == Ok(additions)
  {
    ExpansionOf(repositoryIds, tasks[k], now[k], r);
    assert forall j :: 0 <= j < |now| ==> now[j].id == tasks[j].id;
    assert forall id :: HasId(now, id) ==> HasId(tasks, id);
  }

  lemma {:induction false} ExecutionJoins(repositoryIds: seq<string>, limit: nat, s: State, first: seq<Event>,
                                          mid: State, second: seq<Event>, last: State)
    requires Execution(repositoryIds, limit, s, first, mid) && Execution(repositoryIds, limit, mid, second, last)
    ensures Execution(repositoryIds, limit, s, first + second, last)
    decreases |first|
  {
    if first == [] {
      assert first + second == second;
    } else {
      ExecutionJoins(repositoryIds, limit, Next(repositoryIds, limit, s, first[0]), first[1..], mid, second, last);
      assert (first + second)[1..] == first[1..] + second;
    }
  }

  lemma {:induction false} ReachNext(repositoryIds: seq<string>, events: seq<Event>, tasks: seq<Work>, k: nat,
                                     r: WorkResult, additions: seq<Work>)
    returns (longer: seq<Event>)
    requires Execution(repositoryIds, 1, State(INITIAL_TASKS, map[]), events, State(tasks, map[]))
    requires k < |tasks| && Ready(tasks, k) && tasks[k].result.None? && tasks[k].attempts == 0
    requires CompleteResult(r) && Expand(repositoryIds, tasks[k], r) == Ok(additions)
    requires AdditionsAvailable(tasks, additions)
    ensures Execution(repositoryIds, 1, State(INITIAL_TASKS, map[]), longer,
                      State(Completing(tasks, k, r) + additions, map[]))
  {
    TaskCompletes(repositoryIds, tasks, k, r, additions);
    var more := [Start(k), Authored(k, Ok(r)), Reviewed(k, Ok(None))];
    longer := events + more;
    ExecutionJoins(repositoryIds, 1, State(INITIAL_TASKS, map[]), events, State(tasks, map[]), more,
                   State(Completing(tasks, k, r) + additions, map[]));
  }

  lemma IdsDiffer(c: string, p: string)
    ensures Distinct(["inventory", PlanId(c), "synthesis", ContractsId(c), ParadigmId(c, p), PitfallsId(c), IndexId(c)])
  {
    var ids := ["inventory", PlanId(c), "synthesis", ContractsId(c), ParadigmId(c, p), PitfallsId(c), IndexId(c)];
    assert forall i :: 0 <= i < 7 ==> |ids[i]| >= 3;
    assert ids[0][..3] == "inv" && ids[1][..3] == "pla" && ids[2][..3] == "syn" && ids[3][..3] == "con";
    assert ids[4][..3] == "par" && ids[5][..3] == "pit" && ids[6][..3] == "ind";
  }

  function Saying(components: Option<seq<Component>>, paradigms: Option<seq<Need>>): WorkResult {
    WorkResult("found", Some([]), components, paradigms)
  }

  lemma NotBlank(text: string)
    requires text != "" && !Whitespace(text[0])
    ensures !Blank(text)
  {
  }

  lemma SayingIsComplete(components: Option<seq<Component>>, paradigms: Option<seq<Need>>)
    ensures CompleteResult(Saying(components, paradigms))
  {
    NotBlank("found");
  }

  /** The seven tasks of one component with one paradigm. */
  function Seven(c: Component, p: Need): seq<Work> {
    [NewTask("inventory", Inventory, [], None), NewTask(PlanId(c.id), Plan, ["inventory"], Some(c.id)),
     NewTask("synthesis", Synthesis, [IndexId(c.id)], None),
     NewTask(ContractsId(c.id), Contracts, [PlanId(c.id)], Some(c.id)),
     NewTask(ParadigmId(c.id, p.id), Paradigm, [ContractsId(c.id)], Some(c.id)),
     NewTask(PitfallsId(c.id), Pitfalls, [ParadigmId(c.id, p.id)], Some(c.id)),
     NewTask(IndexId(c.id), Index, [PitfallsId(c.id)], Some(c.id))]
  }

  function Answered(c: Component, p: Need, i: nat): WorkResult {
    if i == 0 then Saying(Some([c]), None) else if i == 1 then Saying(None, Some([p])) else Saying(None, None)
  }

  function After(c: Component, p: Need, t: Work, i: nat, done: set<nat>): Work {
    if i in done then t.(status := Done, attempts := 1, result := Some(Answered(c, p, i))) else t
  }

  /** Those tasks when the ones in `done` are done. */
  function Listing(c: Component, p: Need, done: set<nat>): (tasks: seq<Work>)
    ensures |tasks| == 7 && forall i :: 0 <= i < 7 ==> tasks[i] == After(c, p, Seven(c, p)[i], i, done)
  {
    seq(7, i requires 0 <= i < 7 => After(c, p, Seven(c, p)[i], i, done))
  }

  lemma ReadyAfter(c: Component, p: Need, done: set<nat>, k: nat, before: nat)
    requires k < 7 && before < 7 && k !in done && before in done
    requires Seven(c, p)[k].dependencies == [Seven(c, p)[before].id]
    ensures Ready(Listing(c, p, done), k)
  {
    var tasks := Listing(c, p, done);
    assert tasks[before].id == tasks[k].dependencies[0] && tasks[before].status == Done;
  }

  lemma ListingGrows(c: Component, p: Need, done: set<nat>, k: nat)
    requires 2 <= k < 7 && k !in done
    ensures Completing(Listing(c, p, done), k, Saying(None, None)) + [] == Listing(c, p, done + {k})
  {
    var tasks := Listing(c, p, done);
    var after := Completing(tasks, k, Saying(None, None));
    forall i | 0 <= i < 7 ensures after[i] == Listing(c, p, done + {k})[i] {
      assert i in done + {k} <==> i in done || i == k;
    }
  }

  lemma {:induction false} RestCompletes(repositoryIds: seq<string>, c: Component, p: Need, done: set<nat>, k: nat,
                                         before: nat, events: seq<Event>)
    returns (longer: seq<Event>)
    requires Execution(repositoryIds, 1, State(INITIAL_TASKS, map[]), events, State(Listing(c, p, done), map[]))
    requires 2 <= k < 7 && k !in done && before in done && before < 7
    requires Seven(c, p)[k].dependencies == [Seven(c, p)[before].id]
    ensures Execution(repositoryIds, 1, State(INITIAL_TASKS, map[]), longer, State(Listing(c, p, done + {k}), map[]))
  {
    var tasks := Listing(c, p, done);
    SayingIsComplete(None, None);
    ReadyAfter(c, p, done, k, before);
    longer := ReachNext(repositoryIds, events, tasks, k, Saying(None, None), []);
    ListingGrows(c, p, done, k);
  }

  const BUTTON := Component("button", "Button", ["base"], "clicks", Undeclared)
  const BASIC := Need("basic", "Basic use", "one button")

  lemma ButtonIsSound()
    ensures InventoryShape(["base"], [BUTTON]) && AllDependenciesKnown([BUTTON]) && PlanShape([BASIC])
    ensures Acyclic(ModuleGraph([BUTTON]))
  {
    NotBlank(BUTTON.title);
    NotBlank(BUTTON.scope);
    NotBlank(BASIC.title);
    NotBlank(BASIC.need);
    assert ModuleGraph([BUTTON]) == map["button" := []] by {
      assert [BUTTON][..0] == [];
    }
    LayeredIsAcyclic(ModuleGraph([BUTTON]), ["button"]);
  }

  lemma {:induction false} InventoryCompletes(repositoryIds: seq<string>, c: Component, p: Need)
    returns (events: seq<Event>)
    requires InventoryShape(repositoryIds, [c]) && AllDependenciesKnown([c]) && Acyclic(ModuleGraph([c]))
    ensures Execution(repositoryIds, 1, State(INITIAL_TASKS, map[]), events,
                      State([After(c, p, Seven(c, p)[0], 0, {0}), Seven(c, p)[1], Seven(c, p)[2]], map[]))
  {
    var r := Saying(Some([c]), None);
    var additions := InventoryAdditions("inventory", [c]);
    SayingIsComplete(Some([c]), None);
    IdsDiffer(c.id, p.id);
    InventoryAvailable(c, p);
    events := ReachNext(repositoryIds, [], INITIAL_TASKS, 0, r, additions);
    assert additions[1].dependencies == [IndexId(c.id)];
    assert additions == [Seven(c, p)[1], Seven(c, p)[2]];
    assert Completing(INITIAL_TASKS, 0, r) + additions
           == [After(c, p, Seven(c, p)[0], 0, {0}), Seven(c, p)[1], Seven(c, p)[2]];
  }

  lemma InventoryAvailable(c: Component, p: Need)
    ensures AdditionsAvailable(INITIAL_TASKS, InventoryAdditions("inventory", [c]))
  {
    IdsDiffer(c.id, p.id);
    var ids := ["inventory", PlanId(c.id), "synthesis", ContractsId(c.id), ParadigmId(c.id, p.id),
                PitfallsId(c.id), IndexId(c.id)];
    assert ids[0] != ids[1] && ids[0] != ids[2] && ids[1] != ids[2];
  }

  lemma PlanAvailable(c: Component, p: Need, tasks: seq<Work>)
    requires |tasks| == 3 && forall i :: 0 <= i < 3 ==> tasks[i].id == Seven(c, p)[i].id
    ensures AdditionsAvailable(tasks, PlanAdditions(PlanId(c.id), c.id, [p]))
    ensures PlanAdditions(PlanId(c.id), c.id, [p]) == Seven(c, p)[3..]
  {
    IdsDiffer(c.id, p.id);
    var ids := ["inventory", PlanId(c.id), "synthesis", ContractsId(c.id), ParadigmId(c.id, p.id),
                PitfallsId(c.id), IndexId(c.id)];
    assert forall i :: 0 <= i < 7 ==> Seven(c, p)[i].id == ids[i];
    var additions := PlanAdditions(PlanId(c.id), c.id, [p]);
    assert forall i :: 0 <= i < 4 ==> additions[i] == Seven(c, p)[i + 3];
    assert forall i :: 0 <= i < 4 ==> additions[i].id == ids[i + 3];
  }

  lemma {:induction false} PlanCompletes(repositoryIds: seq<string>, c: Component, p: Need, events: seq<Event>)
    returns (longer: seq<Event>)
    requires PlanShape([p])
    requires Execution(repositoryIds, 1, State(INITIAL_TASKS, map[]), events,
                       State([After(c, p, Seven(c, p)[0], 0, {0}), Seven(c, p)[1], Seven(c, p)[2]], map[]))
    ensures Execution(repositoryIds, 1, State(INITIAL_TASKS, map[]), longer, State(Listing(c, p, {0, 1}), map[]))
  {
    var tasks := [After(c, p, Seven(c, p)[0], 0, {0}), Seven(c, p)[1], Seven(c, p)[2]];
    var r := Saying(None, Some([p]));
    SayingIsComplete(None, Some([p]));
    PlanAvailable(c, p, tasks);
    assert Ready(tasks, 1) by {
      assert tasks[0].id == "inventory" && tasks[0].status == Done;
    }
    longer := ReachNext(repositoryIds, events, tasks, 1, r, PlanAdditions(PlanId(c.id), c.id, [p]));
    assert Completing(tasks, 1, r) + Seven(c, p)[3..] == Listing(c, p, {0, 1});
  }

  /** The order in which the rest is done: each of these waits for the one before it, and the first for the plan. */
  const REST := [1, 3, 4, 5, 6, 2]

  lemma RestWaits(c: Component, p: Need, i: nat)
    requires 1 <= i < 6
    ensures Seven(c, p)[REST[i]].dependencies == [Seven(c, p)[REST[i - 1]].id]
  {
  }

  predicate DoneUpTo(done: set<nat>, i: nat) {
    0 in done && forall j: nat :: j < 6 ==> (j < i <==> REST[j] in done)
  }

  lemma OneMoreDone(done: set<nat>, i: nat)
    requires i < 6 && DoneUpTo(done, i)
    ensures REST[i] !in done && DoneUpTo(done + {REST[i]}, i + 1)
    ensures i > 0 ==> REST[i - 1] in done
  {
    assert forall j, k :: 0 <= j < k < 6 ==> REST[j] != REST[k];
  }

  lemma AllDoneUpTo(done: set<nat>)
    requires DoneUpTo(done, 6)
    ensures forall k: nat :: k < 7 ==> k in done
  {
    assert REST[0] in done && REST[1] in done && REST[2] in done && REST[3] in done && REST[4] in done
           && REST[5] in done;
  }

  lemma {:induction false} RestAllComplete(repositoryIds: seq<string>, c: Component, p: Need, done: set<nat>, i: nat,
                                           events: seq<Event>)
    returns (longer: seq<Event>, all: set<nat>)
    requires 1 <= i <= 6 && DoneUpTo(done, i)
    requires Execution(repositoryIds, 1, State(INITIAL_TASKS, map[]), events, State(Listing(c, p, done), map[]))
    ensures Execution(repositoryIds, 1, State(INITIAL_TASKS, map[]), longer, State(Listing(c, p, all), map[]))
    ensures forall k: nat :: k < 7 ==> k in all
    decreases 6 - i
  {
    if i == 6 {
      AllDoneUpTo(done);
      return events, done;
    }
    OneMoreDone(done, i);
    RestWaits(c, p, i);
    longer := RestCompletes(repositoryIds, c, p, done, REST[i], REST[i - 1], events);
    longer, all := RestAllComplete(repositoryIds, c, p, done + {REST[i]}, i + 1, longer);
  }

  /** Research does come to its end: with one component and one paradigm, seven tasks are done in turn. */
  lemma {:induction false} ResearchCanComplete() returns (events: seq<Event>, tasks: seq<Work>)
    ensures Execution(["base"], 1, State(INITIAL_TASKS, map[]), events, State(tasks, map[]))
    ensures AllDone(tasks) && |tasks| == 7
  {
    ButtonIsSound();
    events := InventoryCompletes(["base"], BUTTON, BASIC);
    events := PlanCompletes(["base"], BUTTON, BASIC, events);
    var done;
    events, done := RestAllComplete(["base"], BUTTON, BASIC, {0, 1}, 1, events);
    tasks := Listing(BUTTON, BASIC, done);
  }
}
