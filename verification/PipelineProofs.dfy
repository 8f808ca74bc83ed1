/** What every reachable state of the research pipeline keeps, that it cannot get stuck, and
    that it cannot run forever. */
module PipelineProofs {
  import opened Prelude
  import opened DependencyGraph
  import opened ComponentPipeline

  // ----- the invariant

  function Rank(phase: Phase): nat {
    match phase
    case Inventory => 0 case Plan => 1 case Contracts => 2 case Paradigm => 3
    case Pitfalls => 4 case Index => 5 case Synthesis => 6
  }

  ghost predicate UniqueTasks(tasks: seq<Work>) {
    forall i, j :: 0 <= i < j < |tasks| ==> tasks[i].id != tasks[j].id
  }

  /** Some task of an earlier phase carries this id. */
  ghost predicate Lower(tasks: seq<Work>, id: string, rank: nat) {
    exists j :: 0 <= j < |tasks| && tasks[j].id == id && Rank(tasks[j].phase) < rank
  }

  ghost predicate HasPlanFor(tasks: seq<Work>, c: string) {
    exists j :: 0 <= j < |tasks| && tasks[j].phase == Plan && tasks[j].component == Some(c)
  }

  /** A dependency of the synthesis may not exist yet, but the plan that will create it does. */
  ghost predicate Promised(tasks: seq<Work>, id: string) {
    exists c :: id == IndexId(c) && HasPlanFor(tasks, c)
  }

  ghost predicate Anchored(tasks: seq<Work>, t: Work) {
    && (t.phase != Inventory && t.phase != Synthesis ==> t.component.Some?)
    && forall i :: 0 <= i < |t.dependencies| ==>
         if t.phase == Synthesis then Promised(tasks, t.dependencies[i])
         else Lower(tasks, t.dependencies[i], Rank(t.phase))
  }

  predicate SameTask(a: Work, b: Work) {
    a.id == b.id && a.phase == b.phase && a.component == b.component && a.dependencies == b.dependencies
  }

  ghost predicate Present(tasks: seq<Work>, t: Work) {
    exists j :: 0 <= j < |tasks| && SameTask(tasks[j], t)
  }

  /** A task whose result passed the author's checks. */
  ghost predicate Accepted(repositoryIds: seq<string>, t: Work) {
    t.result.Some? && CompleteResult(t.result.value) && Expand(repositoryIds, t, t.result.value).Ok?
  }

  /** Every task that accepting the result adds is in the list. */
  ghost predicate ChildrenPresent(repositoryIds: seq<string>, tasks: seq<Work>, t: Work) {
    Accepted(repositoryIds, t) &&
    var children := Expand(repositoryIds, t, t.result.value).value;
    forall i :: 0 <= i < |children| ==> Present(tasks, children[i])
  }

  ghost predicate DependenciesDone(tasks: seq<Work>, t: Work) {
    forall i :: 0 <= i < |t.dependencies| ==> DoneWith(tasks, t.dependencies[i])
  }

  ghost predicate TaskInv(repositoryIds: seq<string>, tasks: seq<Work>, t: Work) {
    && Anchored(tasks, t)
    && (t.status == Pending ==> t.attempts < MAX_ATTEMPTS)
    && (t.status == Running ==> 1 <= t.attempts <= MAX_ATTEMPTS)
    && (t.status == Running || t.status == Done ==> DependenciesDone(tasks, t))
    && (t.status == Done ==> ChildrenPresent(repositoryIds, tasks, t))
  }

  ghost predicate TasksInv(repositoryIds: seq<string>, tasks: seq<Work>) {
    UniqueTasks(tasks) && forall k :: 0 <= k < |tasks| ==> TaskInv(repositoryIds, tasks, tasks[k])
  }

  ghost predicate ActiveInv(repositoryIds: seq<string>, s: State) {
    && (forall k :: k in s.active ==> k < |s.tasks|)
    && (forall k :: 0 <= k < |s.tasks| ==> (s.tasks[k].status == Running <==> k in s.active))
    && (forall k :: k in s.active && s.active[k] == Reviewing ==> Accepted(repositoryIds, s.tasks[k]))
  }

  ghost predicate Inv(repositoryIds: seq<string>, limit: nat, s: State) {
    TasksInv(repositoryIds, s.tasks) && ActiveInv(repositoryIds, s) && |s.active| <= limit
  }

  // ----- growing the list and replacing one task keep what was said about the others

  /** The list grew, and every task kept its identity; done tasks stayed done with their result. */
  ghost predicate Evolves(before: seq<Work>, after: seq<Work>) {
    |before| <= |after| &&
    forall k :: 0 <= k < |before| ==>
      SameTask(before[k], after[k]) &&
      (before[k].status == Done ==> after[k].status == Done && after[k].result == before[k].result)
  }

  lemma EvolvesKeeps(before: seq<Work>, after: seq<Work>, repositoryIds: seq<string>, t: Work)
    requires Evolves(before, after)
    ensures Anchored(before, t) ==> Anchored(after, t)
    ensures DependenciesDone(before, t) ==> DependenciesDone(after, t)
    ensures ChildrenPresent(repositoryIds, before, t) ==> ChildrenPresent(repositoryIds, after, t)
  {
    forall id, rank | Lower(before, id, rank) ensures Lower(after, id, rank) {
      var j :| 0 <= j < |before| && before[j].id == id && Rank(before[j].phase) < rank;
      assert SameTask(before[j], after[j]);
    }
    forall id | DoneWith(before, id) ensures DoneWith(after, id) {
      var j :| 0 <= j < |before| && before[j].id == id && before[j].status == Done;
      assert SameTask(before[j], after[j]);
    }
    forall c | HasPlanFor(before, c) ensures HasPlanFor(after, c) {
      var j :| 0 <= j < |before| && before[j].phase == Plan && before[j].component == Some(c);
      assert SameTask(before[j], after[j]);
    }
    forall id | Promised(before, id) ensures Promised(after, id) {}
    forall a | Present(before, a) ensures Present(after, a) {
      var j :| 0 <= j < |before| && SameTask(before[j], a);
      assert SameTask(before[j], after[j]);
    }
  }

  /** The tasks a checked result adds are anchored in the grown list. */
  lemma AdditionsAnchored(repositoryIds: seq<string>, tasks: seq<Work>, k: nat, r: WorkResult)
    requires k < |tasks| && Anchored(tasks, tasks[k]) && Expand(repositoryIds, tasks[k], r).Ok?
    ensures var additions := Expand(repositoryIds, tasks[k], r).value;
            forall i :: 0 <= i < |additions| ==> Anchored(tasks + additions, additions[i])
  {
    var t := tasks[k];
    var additions := Expand(repositoryIds, t, r).value;
    var grown := tasks + additions;
    assert grown[k] == t;
    assert forall j :: 0 <= j < |additions| ==> grown[|tasks| + j] == additions[j];
    if t.phase == Inventory {
      var cs := r.components.value;
      forall i | 0 <= i < |additions| ensures Anchored(grown, additions[i]) {
        if i < |cs| {
          assert Lower(grown, t.id, Rank(Plan));
        } else {
          forall d | 0 <= d < |cs| ensures Promised(grown, additions[i].dependencies[d]) {
            assert grown[|tasks| + d].phase == Plan && grown[|tasks| + d].component == Some(cs[d].id);
            assert HasPlanFor(grown, cs[d].id);
            assert additions[i].dependencies[d] == IndexId(cs[d].id);
          }
        }
      }
    } else if t.phase == Plan {
      PlanAdditionsAnchored(tasks, k, t.component.value, r.paradigms.value);
    }
  }

  lemma PlanAdditionsAnchored(tasks: seq<Work>, k: nat, c: string, ps: seq<Need>)
    requires k < |tasks| && tasks[k].phase == Plan
    ensures var additions := PlanAdditions(tasks[k].id, c, ps);
            forall i :: 0 <= i < |additions| ==> Anchored(tasks + additions, additions[i])
  {
    var additions := PlanAdditions(tasks[k].id, c, ps);
    forall i | 0 <= i < |additions| ensures Anchored(tasks + additions, additions[i]) {
      if i == 0 {
        LowerAt(tasks + additions, k, Rank(Contracts));
      } else if i <= |ps| {
        LowerAt(tasks + additions, |tasks|, Rank(Paradigm));
      } else if i == |ps| + 1 {
        forall d | 0 <= d < |ps|
          ensures Lower(tasks + additions, additions[i].dependencies[d], Rank(Pitfalls))
        {
          LowerAt(tasks + additions, |tasks| + 1 + d, Rank(Pitfalls));
        }
      } else {
        LowerAt(tasks + additions, |tasks| + |ps| + 1, Rank(Index));
      }
    }
  }

  lemma LowerAt(tasks: seq<Work>, j: nat, rank: nat)
    requires j < |tasks| && Rank(tasks[j].phase) < rank
    ensures Lower(tasks, tasks[j].id, rank)
  {
  }

  // ----- one event

  lemma UpdateEvolves(tasks: seq<Work>, k: nat, t: Work, additions: seq<Work>)
    requires k < |tasks| && SameTask(tasks[k], t) && tasks[k].status != Done
    ensures Evolves(tasks, tasks[k := t] + additions)
  {
  }

  /** Every event but a restart replaces one task that is not done and may append others. */
  lemma StepShape(repositoryIds: seq<string>, limit: nat, s: State, e: Event)
    requires Inv(repositoryIds, limit, s) && Enabled(limit, s, e) && !e.Restart?
    ensures var after := Next(repositoryIds, limit, s, e).tasks;
            && |s.tasks| <= |after| && s.tasks[e.k].status != Done && SameTask(s.tasks[e.k], after[e.k])
            && forall j :: 0 <= j < |s.tasks| && j != e.k ==> after[j] == s.tasks[j]
  {
    if e.Reviewed? {
      ReviewShape(repositoryIds, limit, s, e.k, e.verdict);
    }
  }

  lemma ReviewShape(repositoryIds: seq<string>, limit: nat, s: State, k: nat, verdict: Outcome<Option<string>, string>)
    requires Inv(repositoryIds, limit, s) && Enabled(limit, s, Reviewed(k, verdict))
    ensures var after := Next(repositoryIds, limit, s, Reviewed(k, verdict)).tasks;
            && |s.tasks| <= |after| && s.tasks[k].status != Done && SameTask(s.tasks[k], after[k])
            && forall j :: 0 <= j < |s.tasks| && j != k ==> after[j] == s.tasks[j]
  {
  }

  lemma StepEvolves(repositoryIds: seq<string>, limit: nat, s: State, e: Event)
    requires Inv(repositoryIds, limit, s) && Enabled(limit, s, e)
    ensures Evolves(s.tasks, Next(repositoryIds, limit, s, e).tasks)
  {
    if !e.Restart? {
      StepShape(repositoryIds, limit, s, e);
    }
  }

  /** Changing one task that is not done keeps the task list's invariant if the new task has it. */
  lemma ReplaceKeepsInv(repositoryIds: seq<string>, tasks: seq<Work>, k: nat, t: Work)
    requires TasksInv(repositoryIds, tasks) && k < |tasks|
    requires SameTask(tasks[k], t) && tasks[k].status != Done
    requires TaskInv(repositoryIds, tasks[k := t], t)
    ensures TasksInv(repositoryIds, tasks[k := t])
  {
    var after := tasks[k := t];
    assert Evolves(tasks, after);
    forall j | 0 <= j < |after| ensures TaskInv(repositoryIds, after, after[j]) {
      if j != k {
        EvolvesKeeps(tasks, after, repositoryIds, tasks[j]);
      }
    }
  }

  lemma FailureKeepsInv(repositoryIds: seq<string>, limit: nat, s: State, k: nat, keepResult: bool, problem: Problem)
    requires Inv(repositoryIds, limit, s) && k in s.active
    ensures Inv(repositoryIds, limit, AfterFailure(s, k, keepResult, problem))
  {
    var t := FailedAttempt(s.tasks[k], keepResult, problem);
    EvolvesKeeps(s.tasks, s.tasks[k := t], repositoryIds, s.tasks[k]);
    ReplaceKeepsInv(repositoryIds, s.tasks, k, t);
  }

  lemma StartKeepsInv(repositoryIds: seq<string>, limit: nat, s: State, k: nat)
    requires Inv(repositoryIds, limit, s) && Enabled(limit, s, Start(k))
    ensures Inv(repositoryIds, limit, Next(repositoryIds, limit, s, Start(k)))
  {
    var t := Begun(s.tasks[k]);
    assert DependenciesDone(s.tasks, s.tasks[k]);
    EvolvesKeeps(s.tasks, s.tasks[k := t], repositoryIds, s.tasks[k]);
    ReplaceKeepsInv(repositoryIds, s.tasks, k, t);
    StartKeepsActive(repositoryIds, limit, s, k);
  }

  lemma StartKeepsActive(repositoryIds: seq<string>, limit: nat, s: State, k: nat)
    requires ActiveInv(repositoryIds, s) && Enabled(limit, s, Start(k))
    ensures ActiveInv(repositoryIds, State(s.tasks[k := Begun(s.tasks[k])], s.active[k := Authoring]))
    ensures |s.active[k := Authoring]| <= limit
  {
    OneMoreEntry(s.active, k, Authoring);
  }

  lemma OneMoreEntry<T>(m: map<nat, T>, k: nat, v: T)
    ensures |m[k := v]| <= |m| + 1
  {
    assert m[k := v].Keys == m.Keys + {k};
  }

  /** What a result adds depends only on what the task is, not on how far it got. */
  lemma ExpansionOf(repositoryIds: seq<string>, a: Work, b: Work, r: WorkResult)
    requires SameTask(a, b)
    ensures Expand(repositoryIds, a, r) == Expand(repositoryIds, b, r)
  {
  }

  lemma SavedKeepsInv(repositoryIds: seq<string>, limit: nat, s: State, k: nat, r: WorkResult)
    requires Inv(repositoryIds, limit, s) && k in s.active
    requires Checked(repositoryIds, s.tasks, s.tasks[k], r).Ok?
    ensures Inv(repositoryIds, limit, State(s.tasks[k := s.tasks[k].(result := Some(r))], s.active[k := Reviewing]))
  {
    var t := s.tasks[k].(result := Some(r));
    ExpansionOf(repositoryIds, s.tasks[k], t, r);
    EvolvesKeeps(s.tasks, s.tasks[k := t], repositoryIds, s.tasks[k]);
    ReplaceKeepsInv(repositoryIds, s.tasks, k, t);
    SavedKeepsActive(repositoryIds, s, k, t);
  }

  lemma SavedKeepsActive(repositoryIds: seq<string>, s: State, k: nat, t: Work)
    requires ActiveInv(repositoryIds, s) && k in s.active && Accepted(repositoryIds, t) && t.status == Running
    ensures ActiveInv(repositoryIds, State(s.tasks[k := t], s.active[k := Reviewing]))
    ensures |s.active[k := Reviewing]| == |s.active|
  {
    assert s.active[k := Reviewing].Keys == s.active.Keys;
  }

  lemma CommitKeepsUnique(tasks: seq<Work>, k: nat, t: Work, additions: seq<Work>)
    requires UniqueTasks(tasks) && k < |tasks| && t.id == tasks[k].id && AdditionsAvailable(tasks, additions)
    ensures UniqueTasks(tasks[k := t] + additions)
  {
    var after := tasks[k := t] + additions;
    forall i, j | 0 <= i < j < |after| ensures after[i].id != after[j].id {
      if i < |tasks| <= j {
        assert !HasId(tasks, additions[j - |tasks|].id);
        assert after[i].id == tasks[i].id;
      }
    }
  }

  lemma AdditionsPresent(before: seq<Work>, additions: seq<Work>)
    ensures forall i :: 0 <= i < |additions| ==> Present(before + additions, additions[i])
  {
    forall i | 0 <= i < |additions| ensures Present(before + additions, additions[i]) {
      assert SameTask((before + additions)[|before| + i], additions[i]);
    }
  }

  lemma CommittedTaskInv(repositoryIds: seq<string>, tasks: seq<Work>, k: nat, after: seq<Work>)
    requires k < |tasks| && Accepted(repositoryIds, tasks[k]) && tasks[k].status == Running
    requires TaskInv(repositoryIds, tasks, tasks[k]) && Evolves(tasks, after)
    requires var additions := Expand(repositoryIds, tasks[k], tasks[k].result.value).value;
             forall i :: 0 <= i < |additions| ==> Present(after, additions[i])
    ensures TaskInv(repositoryIds, after, tasks[k].(status := Done, feedback := None))
  {
    var t := tasks[k].(status := Done, feedback := None);
    EvolvesKeeps(tasks, after, repositoryIds, tasks[k]);
    ExpansionOf(repositoryIds, tasks[k], t, t.result.value);
  }

  /** New pending tasks anchored in the grown list join it without disturbing the others. */
  lemma AppendKeepsTasks(repositoryIds: seq<string>, tasks: seq<Work>, k: nat, t: Work, additions: seq<Work>)
    requires TasksInv(repositoryIds, tasks) && k < |tasks| && tasks[k].status != Done && SameTask(tasks[k], t)
    requires AdditionsAvailable(tasks, additions)
    requires TaskInv(repositoryIds, tasks[k := t] + additions, t)
    requires forall i :: 0 <= i < |additions| ==>
               additions[i].status == Pending && additions[i].attempts == 0
               && Anchored(tasks[k := t] + additions, additions[i])
    ensures TasksInv(repositoryIds, tasks[k := t] + additions)
  {
    var after := tasks[k := t] + additions;
    CommitKeepsUnique(tasks, k, t, additions);
    UpdateEvolves(tasks, k, t, additions);
    forall j | 0 <= j < |after| ensures TaskInv(repositoryIds, after, after[j]) {
      if j < |tasks| && j != k {
        EvolvesKeeps(tasks, after, repositoryIds, tasks[j]);
        assert after[j] == tasks[j];
      } else if j >= |tasks| {
        assert after[j] == additions[j - |tasks|];
      }
    }
  }

  lemma CommitKeepsTasks(repositoryIds: seq<string>, tasks: seq<Work>, k: nat)
    requires TasksInv(repositoryIds, tasks) && k < |tasks| && tasks[k].status == Running
    requires Accepted(repositoryIds, tasks[k])
    requires AdditionsAvailable(tasks, Expand(repositoryIds, tasks[k], tasks[k].result.value).value)
    ensures var additions := Expand(repositoryIds, tasks[k], tasks[k].result.value).value;
            TasksInv(repositoryIds, tasks[k := tasks[k].(status := Done, feedback := None)] + additions)
  {
    var r := tasks[k].result.value;
    var additions := Expand(repositoryIds, tasks[k], r).value;
    var t := tasks[k].(status := Done, feedback := None);
    var marked := tasks[k := t];
    UpdateEvolves(tasks, k, t, []);
    assert marked + [] == marked;
    UpdateEvolves(tasks, k, t, additions);
    AdditionsPresent(marked, additions);
    CommittedTaskInv(repositoryIds, tasks, k, marked + additions);
    EvolvesKeeps(tasks, marked, repositoryIds, tasks[k]);
    ExpansionOf(repositoryIds, tasks[k], t, r);
    AdditionsAnchored(repositoryIds, marked, k, r);
    forall i | 0 <= i < |additions| ensures additions[i].status == Pending && additions[i].attempts == 0 {
      AdditionsAreNew(repositoryIds, tasks[k], r, i);
    }
    AppendKeepsTasks(repositoryIds, tasks, k, t, additions);
  }

  lemma AdditionsAreNew(repositoryIds: seq<string>, t: Work, r: WorkResult, i: nat)
    requires Expand(repositoryIds, t, r).Ok? && i < |Expand(repositoryIds, t, r).value|
    ensures var a := Expand(repositoryIds, t, r).value[i];
            a.status == Pending && a.attempts == 0 && a.result == None && a.phase != Inventory
  {
  }

  lemma CommitKeepsActive(repositoryIds: seq<string>, s: State, k: nat, t: Work, additions: seq<Work>)
    requires ActiveInv(repositoryIds, s) && k < |s.tasks| && t.status == Done
    requires forall i :: 0 <= i < |additions| ==> additions[i].status == Pending
    ensures ActiveInv(repositoryIds, State(s.tasks[k := t] + additions, s.active - {k}))
  {
  }

  lemma CommitKeepsInv(repositoryIds: seq<string>, limit: nat, s: State, k: nat)
    requires Inv(repositoryIds, limit, s) && Enabled(limit, s, Reviewed(k, Ok(None)))
    requires Checked(repositoryIds, s.tasks, s.tasks[k], s.tasks[k].result.value).Ok?
    ensures Inv(repositoryIds, limit, Next(repositoryIds, limit, s, Reviewed(k, Ok(None))))
  {
    var additions := Expand(repositoryIds, s.tasks[k], s.tasks[k].result.value).value;
    CommitKeepsTasks(repositoryIds, s.tasks, k);
    forall i | 0 <= i < |additions| ensures additions[i].status == Pending {
      AdditionsAreNew(repositoryIds, s.tasks[k], s.tasks[k].result.value, i);
    }
    CommitKeepsActive(repositoryIds, s, k, s.tasks[k].(status := Done, feedback := None), additions);
    assert (s.active - {k}).Keys == s.active.Keys - {k};
  }

  lemma RestartKeepsInv(repositoryIds: seq<string>, limit: nat, s: State)
    requires TasksInv(repositoryIds, s.tasks)
    ensures Inv(repositoryIds, limit, State(ResumedAll(s.tasks), map[]))
  {
    var after := ResumedAll(s.tasks);
    assert Evolves(s.tasks, after);
    forall j | 0 <= j < |after| ensures TaskInv(repositoryIds, after, after[j]) {
      EvolvesKeeps(s.tasks, after, repositoryIds, s.tasks[j]);
    }
  }

  lemma AuthoredKeepsInv(repositoryIds: seq<string>, limit: nat, s: State, k: nat, reply: Outcome<WorkResult, string>)
    requires Inv(repositoryIds, limit, s) && Enabled(limit, s, Authored(k, reply))
    ensures Inv(repositoryIds, limit, Next(repositoryIds, limit, s, Authored(k, reply)))
  {
    match reply
    case Refused(text) => FailureKeepsInv(repositoryIds, limit, s, k, false, Thrown(text));
    case Ok(r) =>
      var checked := Checked(repositoryIds, s.tasks, s.tasks[k], r);
      if checked.Ok? {
        SavedKeepsInv(repositoryIds, limit, s, k, r);
      } else {
        FailureKeepsInv(repositoryIds, limit, s, k, false, checked.error);
      }
  }

  lemma ReviewedKeepsInv(repositoryIds: seq<string>, limit: nat, s: State, k: nat,
                         verdict: Outcome<Option<string>, string>)
    requires Inv(repositoryIds, limit, s) && Enabled(limit, s, Reviewed(k, verdict))
    ensures Inv(repositoryIds, limit, Next(repositoryIds, limit, s, Reviewed(k, verdict)))
  {
    match verdict
    case Refused(text) => FailureKeepsInv(repositoryIds, limit, s, k, true, Thrown(text));
    case Ok(feedback) =>
      var checked := Checked(repositoryIds, s.tasks, s.tasks[k], s.tasks[k].result.value);
      if !Passed(Ok(feedback)) {
        FailureKeepsInv(repositoryIds, limit, s, k, false, ReviewFeedback(feedback.value));
      } else if checked.Ok? {
        CommitKeepsInv(repositoryIds, limit, s, k);
      } else {
        FailureKeepsInv(repositoryIds, limit, s, k, false, checked.error);
      }
  }

  /** Ids stay unique, done tasks keep all their children, what runs or is done has its
      dependencies done, and at most `limit` tasks are in flight. */
  lemma StepKeepsInv(repositoryIds: seq<string>, limit: nat, s: State, e: Event)
    requires Inv(repositoryIds, limit, s) && Enabled(limit, s, e)
    ensures Inv(repositoryIds, limit, Next(repositoryIds, limit, s, e))
  {
    match e
    case Start(k) => StartKeepsInv(repositoryIds, limit, s, k);
    case Authored(k, reply) => AuthoredKeepsInv(repositoryIds, limit, s, k, reply);
    case Reviewed(k, verdict) => ReviewedKeepsInv(repositoryIds, limit, s, k, verdict);
    case Restart => RestartKeepsInv(repositoryIds, limit, s);
  }

  // ----- whole runs, with interruptions and restarts anywhere

  ghost predicate Execution(repositoryIds: seq<string>, limit: nat, s: State, events: seq<Event>, last: State)
    decreases |events|
  {
    if events == [] then s == last
    else Enabled(limit, s, events[0])
         && Execution(repositoryIds, limit, Next(repositoryIds, limit, s, events[0]), events[1..], last)
  }

  lemma EvolvesTransitive(a: seq<Work>, b: seq<Work>, c: seq<Work>)
    requires Evolves(a, b) && Evolves(b, c)
    ensures Evolves(a, c)
  {
    forall k | 0 <= k < |a|
      ensures SameTask(a[k], c[k]) && (a[k].status == Done ==> c[k].status == Done && c[k].result == a[k].result)
    {
      assert SameTask(a[k], b[k]) && SameTask(b[k], c[k]);
    }
  }

  /** From a state that satisfies the invariant every execution keeps it, and the done set only grows. */
  lemma {:induction false} ExecutionKeepsInv(repositoryIds: seq<string>, limit: nat, s: State, events: seq<Event>,
                                             last: State)
    requires Inv(repositoryIds, limit, s) && Execution(repositoryIds, limit, s, events, last)
    ensures Inv(repositoryIds, limit, last) && Evolves(s.tasks, last.tasks)
    decreases |events|
  {
    if events != [] {
      var next := Next(repositoryIds, limit, s, events[0]);
      StepKeepsInv(repositoryIds, limit, s, events[0]);
      StepEvolves(repositoryIds, limit, s, events[0]);
      ExecutionKeepsInv(repositoryIds, limit, next, events[1..], last);
      EvolvesTransitive(s.tasks, next.tasks, last.tasks);
    }
  }

  lemma InitialInv(repositoryIds: seq<string>, limit: nat)
    ensures Inv(repositoryIds, limit, State(INITIAL_TASKS, map[]))
  {
  }

  /** The guarantees, spelled out, for every state a new pipeline can reach. */
  lemma {:induction false} ReachableStates(repositoryIds: seq<string>, limit: nat, events: seq<Event>, s: State)
    requires Execution(repositoryIds, limit, State(INITIAL_TASKS, map[]), events, s)
    ensures forall i, j :: 0 <= i < j < |s.tasks| ==> s.tasks[i].id != s.tasks[j].id
    ensures |s.active| <= limit && forall k :: 0 <= k < |s.tasks| ==> (s.tasks[k].status == Running <==> k in s.active)
    ensures forall k :: 0 <= k < |s.tasks| && s.tasks[k].status == Done ==>
              DependenciesDone(s.tasks, s.tasks[k]) && ChildrenPresent(repositoryIds, s.tasks, s.tasks[k])
  {
    InitialInv(repositoryIds, limit);
    ExecutionKeepsInv(repositoryIds, limit, State(INITIAL_TASKS, map[]), events, s);
  }

  // ----- no deadlock

  ghost predicate SomeReady(tasks: seq<Work>) {
    exists k :: 0 <= k < |tasks| && Ready(tasks, k)
  }

  ghost predicate SomeFailed(tasks: seq<Work>) {
    exists k :: 0 <= k < |tasks| && tasks[k].status == Failed
  }

  predicate AllDone(tasks: seq<Work>) {
    forall k :: 0 <= k < |tasks| ==> tasks[k].status == Done
  }

  /** A done plan has its index task in the list, under the id the synthesis waits for. */
  lemma PlanDoneHasIndex(repositoryIds: seq<string>, tasks: seq<Work>, j: nat, c: string)
    requires TasksInv(repositoryIds, tasks) && j < |tasks|
    requires tasks[j].phase == Plan && tasks[j].component == Some(c) && tasks[j].status == Done
    ensures Lower(tasks, IndexId(c), Rank(Synthesis))
  {
    var ps := tasks[j].result.value.paradigms.value;
    var children := PlanAdditions(tasks[j].id, c, ps);
    var index := children[|ps| + 2];
    assert Present(tasks, index);
    var m :| 0 <= m < |tasks| && SameTask(tasks[m], index);
    assert tasks[m].id == IndexId(c) && Rank(tasks[m].phase) < Rank(Synthesis);
  }

  /** With nothing in flight and nothing failed, below any pending task there is a ready one:
      an unmet dependency names a pending task of an earlier phase. */
  lemma {:induction false} PendingLeadsToReady(repositoryIds: seq<string>, tasks: seq<Work>, k: nat)
    requires TasksInv(repositoryIds, tasks) && k < |tasks| && tasks[k].status == Pending
    requires forall j :: 0 <= j < |tasks| ==> tasks[j].status == Pending || tasks[j].status == Done
    ensures SomeReady(tasks)
    decreases Rank(tasks[k].phase)
  {
    if !Ready(tasks, k) {
      var t := tasks[k];
      var i :| 0 <= i < |t.dependencies| && !DoneWith(tasks, t.dependencies[i]);
      var id := t.dependencies[i];
      assert TaskInv(repositoryIds, tasks, t);
      if t.phase == Synthesis {
        var c :| id == IndexId(c) && HasPlanFor(tasks, c);
        var j :| 0 <= j < |tasks| && tasks[j].phase == Plan && tasks[j].component == Some(c);
        if tasks[j].status == Done {
          PlanDoneHasIndex(repositoryIds, tasks, j, c);
        } else {
          PendingLeadsToReady(repositoryIds, tasks, j);
          return;
        }
      }
      assert Lower(tasks, id, Rank(t.phase));
      var j :| 0 <= j < |tasks| && tasks[j].id == id && Rank(tasks[j].phase) < Rank(t.phase);
      PendingLeadsToReady(repositoryIds, tasks, j);
    }
  }

  /** The pipeline stops only finished or failed: if nothing runs and nothing can start,
      then every task is done or some task failed. */
  lemma StopsOnlyFinishedOrFailed(repositoryIds: seq<string>, limit: nat, s: State)
    requires Inv(repositoryIds, limit, s) && s.active == map[]
    ensures SomeReady(s.tasks) || AllDone(s.tasks) || SomeFailed(s.tasks)
  {
    if !AllDone(s.tasks) && !SomeFailed(s.tasks) {
      var k :| 0 <= k < |s.tasks| && s.tasks[k].status != Done;
      PendingLeadsToReady(repositoryIds, s.tasks, k);
    }
  }

  /** After an interruption at any point, a restart has work to do unless everything was done. */
  lemma RestartResumes(repositoryIds: seq<string>, limit: nat, s: State)
    requires Inv(repositoryIds, limit, s)
    ensures AllDone(s.tasks) || SomeReady(Next(repositoryIds, limit, s, Restart).tasks)
  {
    var after := Next(repositoryIds, limit, s, Restart);
    RestartKeepsInv(repositoryIds, limit, s);
    StopsOnlyFinishedOrFailed(repositoryIds, limit, after);
    assert forall k :: 0 <= k < |s.tasks| ==> after.tasks[k] == Resumed(s.tasks[k]);
  }

  // ----- termination

  /** The largest weight of the tasks a task of this phase can still add. */
  function Budget(phase: Phase): nat {
    match phase
    case Inventory => MAX_COMPONENTS * (Fresh() + (MAX_PARADIGMS + 3) * Fresh()) + Fresh()
    case Plan => (MAX_PARADIGMS + 3) * Fresh()
    case _ => 0
  }

  function Fresh(): nat { 3 * MAX_ATTEMPTS }

  function StageWeight(stage: Option<Stage>): nat {
    match stage case None => 0 case Some(Authoring) => 2 case Some(Reviewing) => 1
  }

  function StageOf(s: State, k: nat): Option<Stage> {
    if k in s.active then Some(s.active[k]) else None
  }

  /** What one task can still cost: its remaining attempts, three steps each, and its expansion. */
  function Weight(t: Work, stage: Option<Stage>): nat {
    if t.status == Done || t.status == Failed || t.attempts > MAX_ATTEMPTS then 0
    else 3 * (MAX_ATTEMPTS - t.attempts) + StageWeight(stage) + Budget(t.phase)
  }

  function Total(s: State, n: nat): nat
    requires n <= |s.tasks|
  {
    if n == 0 then 0 else Total(s, n - 1) + Weight(s.tasks[n - 1], StageOf(s, n - 1))
  }

  lemma {:induction false} TotalChangesAt(s: State, after: State, k: nat, n: nat)
    requires n <= |s.tasks| && n <= |after.tasks|
    requires forall j :: 0 <= j < n && j != k ==>
               s.tasks[j] == after.tasks[j] && StageOf(s, j) == StageOf(after, j)
    ensures k >= n ==> Total(after, n) == Total(s, n)
    ensures k < n ==> Total(after, n) - Weight(after.tasks[k], StageOf(after, k))
                      == Total(s, n) - Weight(s.tasks[k], StageOf(s, k))
  {
    if n > 0 {
      TotalChangesAt(s, after, k, n - 1);
    }
  }

  lemma OneMore(n: nat, each: nat)
    ensures (n + 1) * each == n * each + each
  {
  }

  lemma {:induction false} TotalOfFresh(s: State, from: nat, n: nat, each: nat)
    requires from <= n <= |s.tasks|
    requires forall j :: from <= j < n ==> Weight(s.tasks[j], StageOf(s, j)) <= each
    ensures Total(s, n) <= Total(s, from) + (n - from) * each
    decreases n - from
  {
    if n > from {
      TotalOfFresh(s, from, n - 1, each);
      OneMore(n - 1 - from, each);
    }
  }

  lemma FewerWeighLess(n: nat, m: nat, each: nat)
    requires n <= m
    ensures n * each <= m * each
  {
  }

  lemma {:induction false} InventoryWithinBudget(s: State, parent: string, cs: seq<Component>, from: nat)
    requires from + |cs| + 1 == |s.tasks| && |cs| <= MAX_COMPONENTS
    requires forall j :: from <= j < |s.tasks| ==>
               j !in s.active && s.tasks[j] == InventoryAdditions(parent, cs)[j - from]
    ensures Total(s, |s.tasks|) <= Total(s, from) + Budget(Inventory)
  {
    var each := Fresh() + Budget(Plan);
    TotalOfFresh(s, from, from + |cs|, each);
    assert Total(s, |s.tasks|) == Total(s, from + |cs|) + Fresh();
    FewerWeighLess(|cs|, MAX_COMPONENTS, each);
  }

  lemma {:induction false} PlanWithinBudget(s: State, parent: string, c: string, ps: seq<Need>, from: nat)
    requires from + |ps| + 3 == |s.tasks| && |ps| <= MAX_PARADIGMS
    requires forall j :: from <= j < |s.tasks| ==>
               j !in s.active && s.tasks[j] == PlanAdditions(parent, c, ps)[j - from]
    ensures Total(s, |s.tasks|) <= Total(s, from) + Budget(Plan)
  {
    TotalOfFresh(s, from, |s.tasks|, Fresh());
  }

  /** The added tasks weigh no more than the budget set aside for them. */
  lemma {:induction false} AdditionsWithinBudget(repositoryIds: seq<string>, s: State, t: Work, r: WorkResult,
                                                 from: nat)
    requires from <= |s.tasks| && Expand(repositoryIds, t, r).Ok?
    requires s.tasks[from..] == Expand(repositoryIds, t, r).value
    requires forall j :: from <= j < |s.tasks| ==> j !in s.active
    ensures Total(s, |s.tasks|) <= Total(s, from) + Budget(t.phase)
  {
    var additions := Expand(repositoryIds, t, r).value;
    forall j | from <= j < |s.tasks| ensures s.tasks[j] == additions[j - from] {
      assert s.tasks[from..][j - from] == additions[j - from];
    }
    if t.phase == Inventory {
      InventoryWithinBudget(s, t.id, r.components.value, from);
    } else if t.phase == Plan {
      PlanWithinBudget(s, t.id, t.component.GetOr("undefined"), r.paradigms.value, from);
    }
  }

  lemma {:induction false} UpdateDecreases(s: State, k: nat, after: State)
    requires k < |s.tasks| && |after.tasks| == |s.tasks|
    requires forall j :: 0 <= j < |s.tasks| && j != k ==>
               s.tasks[j] == after.tasks[j] && StageOf(s, j) == StageOf(after, j)
    requires Weight(after.tasks[k], StageOf(after, k)) < Weight(s.tasks[k], StageOf(s, k))
    ensures Total(after, |after.tasks|) < Total(s, |s.tasks|)
  {
    TotalChangesAt(s, after, k, |s.tasks|);
  }

  lemma {:induction false} FailureDecreases(repositoryIds: seq<string>, limit: nat, s: State, k: nat, keepResult: bool,
                                            problem: Problem)
    requires Inv(repositoryIds, limit, s) && k in s.active
    ensures var after := AfterFailure(s, k, keepResult, problem); Total(after, |after.tasks|) < Total(s, |s.tasks|)
  {
    UpdateDecreases(s, k, AfterFailure(s, k, keepResult, problem));
  }

  lemma {:induction false} CommitDecreases(repositoryIds: seq<string>, limit: nat, s: State, k: nat)
    requires Inv(repositoryIds, limit, s) && Enabled(limit, s, Reviewed(k, Ok(None)))
    requires Checked(repositoryIds, s.tasks, s.tasks[k], s.tasks[k].result.value).Ok?
    ensures var after := Next(repositoryIds, limit, s, Reviewed(k, Ok(None)));
            Total(after, |after.tasks|) < Total(s, |s.tasks|)
  {
    var after := Next(repositoryIds, limit, s, Reviewed(k, Ok(None)));
    var n := |s.tasks|;
    var r := s.tasks[k].result.value;
    TotalChangesAt(s, after, k, n);
    assert after.tasks[n..] == Expand(repositoryIds, s.tasks[k], r).value;
    AdditionsWithinBudget(repositoryIds, after, s.tasks[k], r, n);
  }

  /** Every event but a restart uses up some of the remaining weight. */
  lemma {:induction false} StepDecreases(repositoryIds: seq<string>, limit: nat, s: State, e: Event)
    requires Inv(repositoryIds, limit, s) && Enabled(limit, s, e) && !e.Restart?
    ensures var after := Next(repositoryIds, limit, s, e); Total(after, |after.tasks|) < Total(s, |s.tasks|)
  {
    match e
    case Start(k) => UpdateDecreases(s, k, Next(repositoryIds, limit, s, e));
    case Authored(k, Refused(text)) => FailureDecreases(repositoryIds, limit, s, k, false, Thrown(text));
    case Authored(k, Ok(r)) =>
      var checked := Checked(repositoryIds, s.tasks, s.tasks[k], r);
      if checked.Ok? {
        UpdateDecreases(s, k, State(s.tasks[k := s.tasks[k].(result := Some(r))], s.active[k := Reviewing]));
      } else {
        FailureDecreases(repositoryIds, limit, s, k, false, checked.error);
      }
    case Reviewed(k, verdict) => ReviewDecreases(repositoryIds, limit, s, k, verdict);
  }

  lemma {:induction false} ReviewDecreases(repositoryIds: seq<string>, limit: nat, s: State, k: nat,
                                           verdict: Outcome<Option<string>, string>)
    requires Inv(repositoryIds, limit, s) && Enabled(limit, s, Reviewed(k, verdict))
    ensures var after := Next(repositoryIds, limit, s, Reviewed(k, verdict));
            Total(after, |after.tasks|) < Total(s, |s.tasks|)
  {
    match verdict
    case Refused(text) => FailureDecreases(repositoryIds, limit, s, k, true, Thrown(text));
    case Ok(feedback) =>
      var checked := Checked(repositoryIds, s.tasks, s.tasks[k], s.tasks[k].result.value);
      if !Passed(verdict) {
        FailureDecreases(repositoryIds, limit, s, k, false, ReviewFeedback(feedback.value));
      } else if checked.Ok? {
        CommitDecreases(repositoryIds, limit, s, k);
      } else {
        FailureDecreases(repositoryIds, limit, s, k, false, checked.error);
      }
  }

  /** An uninterrupted run takes at most as many events as the weight it starts with. */
  lemma {:induction false} RunsTerminate(repositoryIds: seq<string>, limit: nat, s: State, events: seq<Event>,
                                         last: State)
    requires Inv(repositoryIds, limit, s) && Execution(repositoryIds, limit, s, events, last)
    requires forall i :: 0 <= i < |events| ==> !events[i].Restart?
    ensures |events| + Total(last, |last.tasks|) <= Total(s, |s.tasks|)
    decreases |events|
  {
    if events != [] {
      StepKeepsInv(repositoryIds, limit, s, events[0]);
      StepDecreases(repositoryIds, limit, s, events[0]);
      RunsTerminate(repositoryIds, limit, Next(repositoryIds, limit, s, events[0]), events[1..], last);
    }
  }

  /** From a new pipeline no run takes more events than this, whatever is found and answered. */
  lemma {:induction false} NewRunBound(repositoryIds: seq<string>, limit: nat, events: seq<Event>, last: State)
    requires Execution(repositoryIds, limit, State(INITIAL_TASKS, map[]), events, last)
    requires forall i :: 0 <= i < |events| ==> !events[i].Restart?
    ensures |events| <= 9 + 100 * (9 + 53 * 9) + 9
  {
    InitialInv(repositoryIds, limit);
    RunsTerminate(repositoryIds, limit, State(INITIAL_TASKS, map[]), events, last);
    assert Total(State(INITIAL_TASKS, map[]), 1) == Total(State(INITIAL_TASKS, map[]), 0) + Fresh() + Budget(Inventory);
  }

  // ----- retries and saved results

  /** Events touch one task; only a start costs an attempt, and only the third failure is final. */
  lemma StepEffect(repositoryIds: seq<string>, limit: nat, s: State, e: Event)
    requires Inv(repositoryIds, limit, s) && Enabled(limit, s, e) && !e.Restart?
    ensures var after := Next(repositoryIds, limit, s, e).tasks;
            && (forall j :: 0 <= j < |s.tasks| && j != e.k ==> after[j] == s.tasks[j])
            && after[e.k].attempts == s.tasks[e.k].attempts + (if e.Start? then 1 else 0)
            && (after[e.k].status == Failed ==> after[e.k].attempts == MAX_ATTEMPTS && after[e.k].feedback.Some?)
            && (!e.Start? && after[e.k].status == Pending ==>
                  after[e.k].attempts < MAX_ATTEMPTS && after[e.k].feedback.Some?)
  {
    if e.Reviewed? {
      ReviewEffect(repositoryIds, limit, s, e.k, e.verdict);
    }
  }

  lemma ReviewEffect(repositoryIds: seq<string>, limit: nat, s: State, k: nat, verdict: Outcome<Option<string>, string>)
    requires Inv(repositoryIds, limit, s) && Enabled(limit, s, Reviewed(k, verdict))
    ensures var after := Next(repositoryIds, limit, s, Reviewed(k, verdict)).tasks;
            && (forall j :: 0 <= j < |s.tasks| && j != k ==> after[j] == s.tasks[j])
            && after[k].attempts == s.tasks[k].attempts && (after[k].status == Done || after[k].feedback.Some?)
            && (after[k].status == Failed ==> after[k].attempts == MAX_ATTEMPTS)
            && (after[k].status == Pending ==> after[k].attempts < MAX_ATTEMPTS)
  {
  }

  /** An attempt that ended badly leaves the reason for the next one, and the result only if `kept`. */
  ghost predicate Retried(before: Work, after: Work, kept: bool, problem: Problem) {
    && after.feedback == Some(problem) && after.result == (if kept then before.result else None)
    && after.status == (if before.attempts < 3 then Pending else Failed)
  }

  /** What an author's answer comes to: a result is saved for its review or refused, and what was thrown is kept
      as feedback. */
  lemma AuthorEffect(repositoryIds: seq<string>, limit: nat, s: State, k: nat, reply: Outcome<WorkResult, string>)
    requires Inv(repositoryIds, limit, s) && Enabled(limit, s, Authored(k, reply))
    ensures var before := s.tasks[k];
            var after := Next(repositoryIds, limit, s, Authored(k, reply)).tasks[k];
            && (reply.Refused? ==> Retried(before, after, false, Thrown(reply.error)))
            && (reply.Ok? ==> after == before.(result := Some(reply.value))
                              || exists problem: Problem :: Retried(before, after, false, problem))
            && (reply.Ok? && (Blank(reply.value.findings) || reply.value.openQuestions.None?) ==>
                  Retried(before, after, false, IncompleteResult))
  {
    var after := Next(repositoryIds, limit, s, Authored(k, reply)).tasks[k];
    if reply.Ok? && after != s.tasks[k].(result := Some(reply.value)) {
      var checked := Checked(repositoryIds, s.tasks, s.tasks[k], reply.value);
      assert Retried(s.tasks[k], after, false, checked.error);
    }
  }

  /** What a review comes to: only its own feedback discards the result; without any, nothing but a task id taken
      meanwhile keeps the task from being done with the result that was reviewed. */
  lemma VerdictEffect(repositoryIds: seq<string>, limit: nat, s: State, k: nat,
                      verdict: Outcome<Option<string>, string>)
    requires Inv(repositoryIds, limit, s) && Enabled(limit, s, Reviewed(k, verdict))
    ensures var before := s.tasks[k];
            var after := Next(repositoryIds, limit, s, Reviewed(k, verdict)).tasks[k];
            match verdict
            case Refused(text) => Retried(before, after, true, Thrown(text))
            case Ok(feedback) =>
              if feedback.Some? && feedback.value != "" then
                Retried(before, after, false, ReviewFeedback(feedback.value))
              else if after.status == Done then after.result == before.result && after.feedback.None?
              else Retried(before, after, false, TaskIdTaken)
  {
  }

  /** A result saved before its review is lost only to the review's own feedback or to a task id
      taken meanwhile; an interrupted or failing review leaves it to be reviewed again. */
  lemma SavedResultSurvives(repositoryIds: seq<string>, limit: nat, s: State, e: Event, k: nat)
    requires Inv(repositoryIds, limit, s) && Enabled(limit, s, e)
    requires k < |s.tasks| && s.tasks[k].result.Some? && Accepted(repositoryIds, s.tasks[k])
    ensures var after := Next(repositoryIds, limit, s, e).tasks[k];
            after.result == s.tasks[k].result
            || (after.result == None && (after.feedback == Some(TaskIdTaken)
                                         || (e.Reviewed? && e.k == k && e.verdict.Ok? && !Passed(e.verdict)
                                             && after.feedback == Some(ReviewFeedback(e.verdict.value.value)))))
  {
    if !e.Restart? && e.k == k && e.Authored? {
      assert Checked(repositoryIds, s.tasks, s.tasks[k], s.tasks[k].result.value)
             == if AdditionsAvailable(s.tasks, Expand(repositoryIds, s.tasks[k], s.tasks[k].result.value).value)
                then Ok(Expand(repositoryIds, s.tasks[k], s.tasks[k].result.value).value) else Refused(TaskIdTaken);
    }
  }
}
