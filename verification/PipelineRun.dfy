/** The research pipeline as the program runs it: a stored task list changed in place, checks
    written as loops, and the main loop that keeps a bounded number of tasks in flight. */
module PipelineRun {
  import opened Prelude
  import opened DependencyGraph
  import opened ComponentPipeline
  import opened PipelineProofs

  /** What the author and the reviewer answer when asked; a refused answer is one that threw. */
  datatype Answer = Answer(author: Outcome<WorkResult, string>, reviewer: Outcome<Option<string>, string>)

  datatype Ending = Completed | Unfinished | Aborted | BadConcurrency

  lemma {:induction false} ExecutionExtends(repositoryIds: seq<string>, limit: nat, s: State, events: seq<Event>,
                                            mid: State, e: Event)
    requires Execution(repositoryIds, limit, s, events, mid) && Enabled(limit, mid, e)
    ensures Execution(repositoryIds, limit, s, events + [e], Next(repositoryIds, limit, mid, e))
    decreases |events|
  {
    if events == [] {
      assert [e][1..] == [];
    } else {
      ExecutionExtends(repositoryIds, limit, Next(repositoryIds, limit, s, events[0]), events[1..], mid, e);
      assert (events + [e])[1..] == events[1..] + [e];
    }
  }

  lemma {:induction false} KnownIsClosed(cs: seq<Component>)
    requires AllDependenciesKnown(cs)
    ensures Closed(ModuleGraph(cs))
  {
    var g := ModuleGraph(cs);
    forall id, k | id in g && 0 <= k < |g[id]| ensures g[id][k] in g {
      var i :| 0 <= i < |cs| && cs[i].id == id && g[id] == Dependencies(cs[i]);
      assert DependenciesKnown(cs, cs[i]);
    }
  }

  class ComponentResearchPipeline {
    const repositoryIds: seq<string>
    var tasks: seq<Work>
    var disk: seq<Work>
    var running: map<nat, Stage>

    ghost function Model(): State
      reads this
    {
      State(tasks, running)
    }

    ghost predicate Valid(limit: nat)
      reads this
    {
      Inv(repositoryIds, limit, Model()) && disk == tasks
    }

    /** Opens a stored task list, or a new one: whatever was interrupted or failed is pending again. */
    constructor (stored: Option<seq<Work>>, repositoryIds: seq<string>)
      requires stored.Some? ==> TasksInv(repositoryIds, stored.value)
      ensures this.repositoryIds == repositoryIds && disk == tasks
      ensures Model() == State(ResumedAll(stored.GetOr(INITIAL_TASKS)), map[])
      ensures Valid(0)
    {
      this.repositoryIds := repositoryIds;
      var loaded := stored.GetOr(INITIAL_TASKS);
      tasks := loaded;
      disk := loaded;
      running := map[];
      new;
      for i := 0 to |tasks|
        invariant |tasks| == |loaded| && running == map[]
        invariant forall j :: 0 <= j < i ==> tasks[j] == Resumed(loaded[j])
        invariant forall j :: i <= j < |tasks| ==> tasks[j] == loaded[j]
      {
        if tasks[i].status in {Running, Failed} {
          tasks := tasks[i := tasks[i].(status := Pending, attempts := 0)];
        }
      }
      Persist();
      assert tasks == ResumedAll(loaded);
      InitialInv(repositoryIds, 0);
      RestartKeepsInv(repositoryIds, 0, State(loaded, map[]));
    }

    /** The durable replacement of the stored list. */
    method Persist()
      modifies this`disk
      ensures disk == tasks
    {
      disk := tasks;
    }

    method ModuleTable(cs: seq<Component>) returns (modules: Graph)
      ensures modules == ModuleGraph(cs)
    {
      modules := map[];
      for i := 0 to |cs|
        invariant modules == ModuleGraph(cs[..i])
      {
        assert cs[..i + 1][..i] == cs[..i];
        modules := modules[cs[i].id := Dependencies(cs[i])];
      }
      assert cs[..|cs|] == cs;
    }

    /** The inventory's own checks, in the order they are made. */
    method CheckInventory(cs: seq<Component>) returns (problem: Option<Problem>)
      ensures problem == if !InventoryShape(repositoryIds, cs) then Some(BadInventory)
                         else if !AllDependenciesKnown(cs) then Some(BadDependencies)
                         else if !Acyclic(ModuleGraph(cs)) then Some(CyclicDependencies) else None
    {
      if !InventoryShape(repositoryIds, cs) {
        return Some(BadInventory);
      }
      var modules := ModuleTable(cs);
      for i := 0 to |cs|
        invariant forall j :: 0 <= j < i ==> DependenciesKnown(cs, cs[j])
      {
        if !DependenciesKnown(cs, cs[i]) {
          return Some(BadDependencies);
        }
      }
      KnownIsClosed(cs);
      var accepted := AcceptsDependencies(modules, ComponentIds(cs));
      return if accepted then None else Some(CyclicDependencies);
    }

    /** What a result adds, or why it is refused. */
    method ExpandResult(t: Work, r: WorkResult) returns (expanded: Outcome<seq<Work>, Problem>)
      ensures expanded == Expand(repositoryIds, t, r)
    {
      if t.phase == Inventory {
        if r.components.None? {
          return Refused(BadInventory);
        }
        var problem := CheckInventory(r.components.value);
        return if problem.Some? then Refused(problem.value) else Ok(InventoryAdditions(t.id, r.components.value));
      }
      if t.phase == Plan {
        if r.paradigms.None? || !PlanShape(r.paradigms.value) {
          return Refused(BadPlan);
        }
        return Ok(PlanAdditions(t.id, t.component.GetOr("undefined"), r.paradigms.value));
      }
      return Ok([]);
    }

    /** No addition repeats an id of the list or of an earlier addition. */
    method Available(additions: seq<Work>) returns (available: bool)
      ensures available <==> AdditionsAvailable(tasks, additions)
    {
      var ids := set i | 0 <= i < |tasks| :: tasks[i].id;
      for i := 0 to |additions|
        invariant forall id :: id in ids <==> HasId(tasks, id) || HasId(additions[..i], id)
        invariant AdditionsAvailable(tasks, additions[..i])
      {
        if additions[i].id in ids {
          if HasId(additions[..i], additions[i].id) {
            var j :| 0 <= j < i && additions[..i][j].id == additions[i].id;
            assert additions[j].id == additions[i].id;
          }
          return false;
        }
        ids := ids + {additions[i].id};
        AvailableExtends(additions, i);
      }
      assert additions[..|additions|] == additions;
      return true;
    }

    lemma AvailableExtends(additions: seq<Work>, i: nat)
      requires i < |additions| && AdditionsAvailable(tasks, additions[..i])
      requires !HasId(tasks, additions[i].id) && !HasId(additions[..i], additions[i].id)
      ensures AdditionsAvailable(tasks, additions[..i + 1])
      ensures forall id :: HasId(additions[..i + 1], id) <==> HasId(additions[..i], id) || id == additions[i].id
    {
      var before, now := additions[..i], additions[..i + 1];
      assert now == before + [additions[i]];
      forall id | HasId(before, id) ensures HasId(now, id) {
        var j :| 0 <= j < |before| && before[j].id == id;
        assert now[j].id == id;
      }
      assert now[i].id == additions[i].id;
      forall a, b | 0 <= a < b < |now| ensures now[a].id != now[b].id {
        assert now[a] == before[a];
      }
    }

    /** Ends an attempt that failed: the task is retried until its third failure. */
    method Fail(k: nat, keepResult: bool, problem: Problem)
      requires k < |tasks|
      modifies this
      ensures Model() == AfterFailure(old(Model()), k, keepResult, problem) && disk == tasks
    {
      var t := tasks[k];
      if !keepResult {
        t := t.(result := None);
      }
      t := t.(feedback := Some(problem));
      t := t.(status := if t.attempts >= MAX_ATTEMPTS then Failed else Pending);
      tasks := tasks[k := t];
      running := running - {k};
      Persist();
    }

    method Begin(limit: nat, k: nat)
      requires Valid(limit) && Enabled(limit, Model(), Start(k))
      modifies this
      ensures Model() == Next(repositoryIds, limit, old(Model()), Start(k)) && Valid(limit)
      ensures |running| == |old(running)| + 1
    {
      StepKeepsInv(repositoryIds, limit, Model(), Start(k));
      tasks := tasks[k := tasks[k].(status := Running, attempts := tasks[k].attempts + 1)];
      running := running[k := Authoring];
      Persist();
    }

    /** The author answered: a result that passes every check is saved before it is reviewed. */
    method Deliver(limit: nat, k: nat, reply: Outcome<WorkResult, string>)
      requires Valid(limit) && Enabled(limit, Model(), Authored(k, reply))
      modifies this
      ensures Model() == Next(repositoryIds, limit, old(Model()), Authored(k, reply)) && Valid(limit)
    {
      StepKeepsInv(repositoryIds, limit, Model(), Authored(k, reply));
      if reply.Refused? {
        Fail(k, false, Thrown(reply.error));
        return;
      }
      var r := reply.value;
      if !CompleteResult(r) {
        Fail(k, false, IncompleteResult);
        return;
      }
      var additions := ExpandResult(tasks[k], r);
      if additions.Refused? {
        Fail(k, false, additions.error);
        return;
      }
      var available := Available(additions.value);
      if !available {
        Fail(k, false, TaskIdTaken);
        return;
      }
      tasks := tasks[k := tasks[k].(result := Some(r))];
      running := running[k := Reviewing];
      Persist();
    }

    /** The reviewer answered: without feedback the task is done and its additions are appended. */
    method Conclude(limit: nat, k: nat, verdict: Outcome<Option<string>, string>)
      requires Valid(limit) && Enabled(limit, Model(), Reviewed(k, verdict))
      modifies this
      ensures Model() == Next(repositoryIds, limit, old(Model()), Reviewed(k, verdict)) && Valid(limit)
    {
      StepKeepsInv(repositoryIds, limit, Model(), Reviewed(k, verdict));
      if verdict.Refused? {
        Fail(k, true, Thrown(verdict.error));
        return;
      }
      if verdict.value.Some? && verdict.value.value != "" {
        Fail(k, false, ReviewFeedback(verdict.value.value));
        return;
      }
      assert Accepted(repositoryIds, tasks[k]);
      var additions := ExpandResult(tasks[k], tasks[k].result.value);
      // Other modules may have finished during the review.
      var available := Available(additions.value);
      if !available {
        Fail(k, false, TaskIdTaken);
        return;
      }
      tasks := tasks[k := tasks[k].(status := Done, feedback := None)] + additions.value;
      running := running - {k};
      Persist();
    }

    method ReadyTasks() returns (ready: seq<nat>)
      ensures forall i :: 0 <= i < |ready| ==> ready[i] < |tasks| && Ready(tasks, ready[i])
      ensures forall k: nat :: k < |tasks| && Ready(tasks, k) ==> k in ready
      ensures forall i, j :: 0 <= i < j < |ready| ==> ready[i] < ready[j]
    {
      ready := [];
      for k := 0 to |tasks|
        invariant forall i :: 0 <= i < |ready| ==> ready[i] < k && Ready(tasks, ready[i])
        invariant forall j: nat :: j < k && Ready(tasks, j) ==> j in ready
        invariant forall i, j :: 0 <= i < j < |ready| ==> ready[i] < ready[j]
      {
        if Ready(tasks, k) {
          ready := ready + [k];
        }
      }
    }

    /** Starts as many ready tasks, in list order, as the limit leaves room for. */
    method Launch(limit: nat, ready: seq<nat>) returns (ghost events: seq<Event>)
      requires Valid(limit)
      requires forall i :: 0 <= i < |ready| ==> ready[i] < |tasks| && Ready(tasks, ready[i])
      requires forall i, j :: 0 <= i < j < |ready| ==> ready[i] < ready[j]
      modifies this
      ensures Valid(limit) && Execution(repositoryIds, limit, old(Model()), events, Model())
      ensures forall i :: 0 <= i < |events| ==> events[i].Start?
      ensures ready == [] || limit == 0 || |running| > 0
    {
      var room := limit - |running|;
      events := LaunchFirst(limit, ready, if |ready| < room then |ready| else room);
    }

    method LaunchFirst(limit: nat, ready: seq<nat>, count: nat) returns (ghost events: seq<Event>)
      requires Valid(limit) && |running| + count <= limit && count <= |ready|
      requires forall i :: 0 <= i < |ready| ==> ready[i] < |tasks| && Ready(tasks, ready[i])
      requires forall i, j :: 0 <= i < j < |ready| ==> ready[i] < ready[j]
      modifies this
      ensures Valid(limit) && Execution(repositoryIds, limit, old(Model()), events, Model())
      ensures forall i :: 0 <= i < |events| ==> events[i].Start?
      ensures |running| == |old(running)| + count
    {
      events := [];
      ghost var before := Model();
      for i := 0 to count
        invariant Valid(limit) && Execution(repositoryIds, limit, before, events, Model())
        invariant forall j :: 0 <= j < |events| ==> events[j].Start?
        invariant |running| == |before.active| + i
        invariant forall j :: i <= j < |ready| ==> ready[j] < |tasks| && Ready(tasks, ready[j])
      {
        events := LaunchOne(limit, ready, i, before, events);
      }
    }

    method LaunchOne(limit: nat, ready: seq<nat>, i: nat, ghost before: State, ghost events: seq<Event>)
      returns (ghost longer: seq<Event>)
      requires Valid(limit) && |running| < limit && i < |ready|
      requires Execution(repositoryIds, limit, before, events, Model())
      requires forall j :: i <= j < |ready| ==> ready[j] < |tasks| && Ready(tasks, ready[j])
      requires forall j :: i < j < |ready| ==> ready[j] != ready[i]
      modifies this
      ensures Valid(limit) && Execution(repositoryIds, limit, before, longer, Model())
      ensures longer == events + [Start(ready[i])] && |running| == |old(running)| + 1
      ensures forall j :: i < j < |ready| ==> ready[j] < |tasks| && Ready(tasks, ready[j])
    {
      ghost var earlier := Model();
      Begin(limit, ready[i]);
      ExecutionExtends(repositoryIds, limit, before, events, earlier, Start(ready[i]));
      longer := events + [Start(ready[i])];
      StillReady(earlier.tasks, ready, i, Begun(earlier.tasks[ready[i]]));
    }

    lemma StillReady(list: seq<Work>, ready: seq<nat>, i: nat, t: Work)
      requires i < |ready| && ready[i] < |list| && SameTask(list[ready[i]], t) && list[ready[i]].status != Done
      requires forall j :: i < j < |ready| ==> ready[j] < |list| && ready[j] != ready[i] && Ready(list, ready[j])
      ensures forall j :: i < j < |ready| ==> Ready(list[ready[i] := t], ready[j])
    {
      var after := list[ready[i] := t];
      forall id | DoneWith(list, id) ensures DoneWith(after, id) {
        var d :| 0 <= d < |list| && list[d].id == id && list[d].status == Done;
        assert after[d] == list[d];
      }
    }

    /** One of the tasks in flight hears from its author or reviewer. */
    method Advance(limit: nat, answer: Answer) returns (ghost e: Event)
      requires Valid(limit) && running != map[]
      modifies this
      ensures Enabled(limit, old(Model()), e) && !e.Restart?
      ensures Model() == Next(repositoryIds, limit, old(Model()), e) && Valid(limit)
    {
      assert running.Keys != {};
      var k: nat :| k in running;
      if running[k] == Authoring {
        var reply := if tasks[k].result.Some? then Ok(tasks[k].result.value) else answer.author;
        Deliver(limit, k, reply);
        e := Authored(k, reply);
      } else {
        assert Accepted(repositoryIds, tasks[k]);
        Conclude(limit, k, answer.reviewer);
        e := Reviewed(k, answer.reviewer);
      }
    }

    /** One turn of the main loop: start what fits, then wait for one task in flight. */
    method Cycle(limit: nat, answer: Answer) returns (moved: bool, ghost events: seq<Event>)
      requires Valid(limit) && limit > 0
      modifies this
      ensures Valid(limit) && Execution(repositoryIds, limit, old(Model()), events, Model())
      ensures forall i :: 0 <= i < |events| ==> !events[i].Restart?
      ensures moved ==> events != []
      ensures !moved ==> running == map[] && !SomeReady(tasks)
    {
      ghost var before := Model();
      var ready := ReadyTasks();
      events := Launch(limit, ready);
      if running == map[] {
        assert ready == [];
        forall k | 0 <= k < |tasks| ensures !Ready(tasks, k) {
          assert k !in ready;
        }
        return false, events;
      }
      ghost var busy := Model();
      ghost var e := Advance(limit, answer);
      ExecutionExtends(repositoryIds, limit, before, events, busy, e);
      events := events + [e];
      return true, events;
    }

    /** The main loop. Whatever the answers and whichever task in flight hears first, it ends:
        with every task done, with some task failed and nothing left to start, or aborted. */
    method Run(concurrency: int, answers: nat -> Answer, aborted: nat -> bool)
      returns (ending: Ending, ghost events: seq<Event>)
      requires Valid(0)
      modifies this
      ensures ending == BadConcurrency <==> !(1 <= concurrency <= 10)
      ensures ending == BadConcurrency ==> Model() == old(Model()) && disk == old(disk)
      ensures ending != BadConcurrency ==>
                Valid(concurrency) && Execution(repositoryIds, concurrency, old(Model()), events, Model())
      ensures ending == Completed ==> AllDone(tasks) && running == map[]
      ensures ending == Unfinished ==> SomeFailed(tasks) && !SomeReady(tasks) && running == map[]
      ensures ending == Aborted ==> exists n :: aborted(n)
      ensures forall i :: 0 <= i < |events| ==> !events[i].Restart?
    {
      events := [];
      if !(1 <= concurrency <= 10) {
        return BadConcurrency, events;
      }
      var limit: nat := concurrency;
      ghost var before := Model();
      Persist();
      var round := 0;
      var moved := true;
      while moved
        invariant Valid(limit) && Execution(repositoryIds, limit, before, events, Model())
        invariant forall i :: 0 <= i < |events| ==> !events[i].Restart?
        invariant !moved ==> running == map[] && !SomeReady(tasks)
        decreases Total(Model(), |tasks|) + if moved then 1 else 0
      {
        if aborted(round) {
          return Aborted, events;
        }
        ghost var start := Model();
        ghost var turn;
        moved, turn := Cycle(limit, answers(round));
        RunsTerminate(repositoryIds, limit, start, turn, Model());
        ExecutionsJoin(repositoryIds, limit, before, events, start, turn, Model());
        events := events + turn;
        round := round + 1;
      }
      StopsOnlyFinishedOrFailed(repositoryIds, limit, Model());
      return if AllDone(tasks) then Completed else Unfinished, events;
    }
  }

  lemma {:induction false} ExecutionsJoin(repositoryIds: seq<string>, limit: nat, s: State, first: seq<Event>,
                                          mid: State,
                       second: seq<Event>, last: State)
    requires Execution(repositoryIds, limit, s, first, mid) && Execution(repositoryIds, limit, mid, second, last)
    ensures Execution(repositoryIds, limit, s, first + second, last)
    decreases |first|
  {
    if first == [] {
      assert first + second == second;
    } else {
      ExecutionsJoin(repositoryIds, limit, Next(repositoryIds, limit, s, first[0]), first[1..], mid, second, last);
      assert (first + second)[1..] == first[1..] + second;
    }
  }
}
