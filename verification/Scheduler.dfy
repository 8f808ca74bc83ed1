/** The bounded priority queue in front of the single owner of a database: requests are executed one inside
    another, and each step here is what runs without waiting. */
module RequestScheduler {
  import opened Prelude

  const READS_PER_CHECKPOINT := 8

  datatype Op = Search | Health | Expand | Ingest | Reindex | Remove | Unknown

  /** What the time fields of a request are: finite, something else, or an integer no float can hold. */
  datatype Times = Finite | Invalid | BeyondFloat

  datatype Request = Request(op: Op, path: string, background: bool, times: Times, id: string)

  datatype Item = Item(priority: nat, sequence: nat, request: Request)

  /** Requests being executed one inside another: each with what was current before it, how many reads its
      open checkpoint let in, and what goes on when it is done. */
  datatype Stack = Idle | Running(request: Request, outer: Option<Request>, checkpoint: Option<nat>, below: Stack)

  datatype State = State(
    queue: seq<Item>,
    nextSequence: nat,
    indexing: set<string>,
    closed: bool,
    lost: Option<Request>,
    stack: Stack,
    current: Option<Request>,
    submitted: multiset<Request>,
    replied: multiset<Request>,
    started: seq<Item>)

  function Start(): State {
    State([], 0, {}, false, None, Idle, None, multiset{}, multiset{}, [])
  }

  function PriorityOf(op: Op): nat {
    if op.Search? || op.Health? || op.Expand? then 0 else 1
  }

  // ----- the queue

  /** A capacity of zero means no limit. */
  predicate Full(queue: seq<Item>, capacity: nat) {
    0 < capacity <= |queue|
  }

  predicate Before(a: Item, b: Item) {
    a.priority < b.priority || (a.priority == b.priority && a.sequence < b.sequence)
  }

  predicate Ordered(queue: seq<Item>) {
    forall i, j :: 0 <= i < j < |queue| ==> Before(queue[i], queue[j])
  }

  function Insert(queue: seq<Item>, item: Item): (q: seq<Item>)
    ensures |q| == |queue| + 1
  {
    if queue == [] || Before(item, queue[0]) then [item] + queue
    else [queue[0]] + Insert(queue[1..], item)
  }

  lemma {:induction false} InsertHas(queue: seq<Item>, item: Item, x: Item)
    ensures x in Insert(queue, item) <==> x == item || x in queue
  {
    if queue != [] && !Before(item, queue[0]) {
      InsertHas(queue[1..], item, x);
      assert x in queue <==> x == queue[0] || x in queue[1..];
    }
  }

  lemma {:induction false} InsertOrders(queue: seq<Item>, item: Item)
    requires Ordered(queue) && forall x :: x in queue ==> x.sequence != item.sequence
    ensures Ordered(Insert(queue, item))
  {
    if queue != [] && !Before(item, queue[0]) {
      InsertOrders(queue[1..], item);
      forall x | x in Insert(queue[1..], item) ensures Before(queue[0], x) {
        InsertHas(queue[1..], item, x);
        assert x in queue[1..] ==> Before(queue[0], x);
      }
    } else if queue != [] {
      forall x | x in queue ensures Before(item, x) {
        assert x == queue[0] || Before(queue[0], x);
      }
    }
  }

  /** The requests of the queue that wait for a reply. */
  function Waiting(queue: seq<Item>): multiset<Request> {
    if queue == [] then multiset{}
    else Waiting(queue[1..]) + Asked(queue[0].request)
  }

  function Asked(r: Request): multiset<Request> {
    if r.background then multiset{} else multiset{r}
  }

  lemma {:induction false} InsertWaits(queue: seq<Item>, item: Item)
    ensures Waiting(Insert(queue, item)) == Waiting(queue) + Asked(item.request)
  {
    if queue != [] && !Before(item, queue[0]) {
      InsertWaits(queue[1..], item);
      assert Insert(queue, item)[1..] == Insert(queue[1..], item);
    } else {
      assert Insert(queue, item)[1..] == queue;
    }
  }

  function Executing(stack: Stack): multiset<Request> {
    if stack.Idle? then multiset{} else Executing(stack.below) + Asked(stack.request)
  }

  // ----- the steps

  datatype Event =
    | Submit(request: Request)
    | Close
    | Schedule(path: string)
    | Take
    | OpenCheckpoint
    | TakeRead
    | CloseCheckpoint
    | Finish

  predicate ReadIsNext(s: State) {
    s.queue != [] && s.queue[0].priority == 0
  }

  /** When each event can happen; a client sends no background requests, and none after it has closed. A
      request that made the reader fail is the last one read, and the input is never seen to end. */
  predicate Enabled(s: State, e: Event) {
    match e
    case Submit(r) => !s.closed && s.lost.None? && !r.background
    case Close => s.lost.None?
    case Schedule(_) => s.stack.Running? && s.stack.checkpoint.None?
    case Take => s.stack.Idle? && s.queue != []
    case OpenCheckpoint => s.stack.Running? && s.stack.checkpoint.None?
    case TakeRead => s.stack.Running? && s.stack.checkpoint.Some? && s.stack.checkpoint.value < READS_PER_CHECKPOINT
        && ReadIsNext(s)
    case CloseCheckpoint =>
      s.stack.Running? && s.stack.checkpoint.Some?
          && (s.stack.checkpoint.value >= READS_PER_CHECKPOINT || !ReadIsNext(s))
    case Finish => s.stack.Running? && s.stack.checkpoint.None?
  }

  function Submitted(s: State, capacity: nat, r: Request): State {
    var asked := s.(submitted := s.submitted + multiset{r});
    if r.times.BeyondFloat? then s.(lost := Some(r))
    else if r.times.Invalid? then asked.(replied := s.replied + multiset{r})
    else if Full(s.queue, capacity) then asked.(nextSequence := s.nextSequence + 1, replied := s.replied + multiset{r})
    else asked.(nextSequence := s.nextSequence + 1,
                queue := Insert(s.queue, Item(PriorityOf(r.op), s.nextSequence, r)))
  }

  function BackgroundIngest(path: string): Request {
    Request(Ingest, path, true, Finite, "")
  }

  function Scheduled(s: State, capacity: nat, path: string): State {
    if path in s.indexing then s
    else if Full(s.queue, capacity) then s.(nextSequence := s.nextSequence + 1)
    else s.(nextSequence := s.nextSequence + 1, indexing := s.indexing + {path},
            queue := Insert(s.queue, Item(2, s.nextSequence, BackgroundIngest(path))))
  }

  /** Execution of the first item of the queue begins inside what is executing. */
  function Began(s: State, below: Stack): State
    requires s.queue != []
  {
    var item := s.queue[0];
    s.(queue := s.queue[1..], stack := Running(item.request, s.current, None, below),
       current := Some(item.request), started := s.started + [item])
  }

  function WithReads(s: State, count: Option<nat>): State
    requires s.stack.Running?
  {
    s.(stack := s.stack.(checkpoint := count))
  }

  function Finished(s: State): State
    requires s.stack.Running?
  {
    var done := s.stack;
    s.(stack := done.below, current := done.outer,
       replied := s.replied + Asked(done.request),
       indexing := if done.request.background then s.indexing - {done.request.path} else s.indexing)
  }

  function Next(s: State, capacity: nat, e: Event): State
    requires Enabled(s, e)
  {
    match e
    case Submit(r) => Submitted(s, capacity, r)
    case Close => s.(closed := true)
    case Schedule(path) => Scheduled(s, capacity, path)
    case Take =>
      if s.closed && s.queue[0].request.background then s.(queue := s.queue[1..])
      else Began(s, Idle)
    case OpenCheckpoint => WithReads(s, Some(0))
    case TakeRead => Began(s, WithReads(s, Some(s.stack.checkpoint.value + 1)).stack)
    case CloseCheckpoint => WithReads(s, None)
    case Finish => Finished(s)
  }

  // ----- what every step keeps

  ghost predicate QueueInv(s: State) {
    && Ordered(s.queue)
    && (forall x :: x in s.queue ==> x.sequence < s.nextSequence && x.priority <= 2)
    && forall x :: x in s.queue && x.request.background ==> x.priority == 2
  }

  function Lost(s: State): multiset<Request> {
    if s.lost.Some? then multiset{s.lost.value} else multiset{}
  }

  /** All requests that were read: those submitted, and the one that made the reader fail. */
  function Received(s: State): multiset<Request> {
    s.submitted + Lost(s)
  }

  /** Each submitted request is answered, waiting or executing, and only one of these. */
  ghost predicate AnswersInv(s: State) {
    s.submitted == s.replied + Waiting(s.queue) + Executing(s.stack)
  }

  /** The reader fails at the first request with a time beyond every float, and only there. */
  ghost predicate ReaderInv(s: State) {
    && (forall r :: r in s.submitted ==> !r.times.BeyondFloat?)
    && (s.lost.Some? ==> s.lost.value.times.BeyondFloat? && !s.closed)
  }

  predicate SamePath(x: Item, y: Item) {
    x.request.background && y.request.background && x.request.path == y.request.path
  }

  /** The path that is ingested in the background, below whatever reads its checkpoint let in. */
  function IngestedPath(stack: Stack): Option<string> {
    if stack.Idle? then None
    else if stack.below.Idle? then if stack.request.background then Some(stack.request.path) else None
    else IngestedPath(stack.below)
  }

  /** No two background ingests of a path are queued or executing. */
  ghost predicate IndexingInv(s: State) {
    && (forall x :: x in s.queue && x.request.background ==> x.request.path in s.indexing)
    && (forall x, y :: x in s.queue && y in s.queue && SamePath(x, y) ==> x == y)
    && (IngestedPath(s.stack).Some? ==>
          && IngestedPath(s.stack).value in s.indexing
          && forall x :: x in s.queue && x.request.background ==> x.request.path != IngestedPath(s.stack).value)
  }

  function Innermost(stack: Stack): Option<Request> {
    if stack.Idle? then None else Some(stack.request)
  }

  /** Each request began while the one around it was at a checkpoint, and will restore it as current; a
      checkpoint lets at most eight reads in, and no background request is one. */
  ghost predicate Nested(stack: Stack) {
    stack.Running? ==>
      && stack.outer == Innermost(stack.below) && stack.checkpoint.GetOr(0) <= READS_PER_CHECKPOINT
      && (stack.below.Running? ==> stack.below.checkpoint.Some? && !stack.request.background)
      && Nested(stack.below)
  }

  ghost predicate StackInv(s: State) {
    s.current == Innermost(s.stack) && Nested(s.stack)
  }

  /** Requests of one priority start in the order they arrived. */
  ghost predicate OrderInv(s: State) {
    && (forall i, j :: 0 <= i < j < |s.started| && s.started[i].priority == s.started[j].priority ==>
          s.started[i].sequence < s.started[j].sequence)
    && (forall i, x :: 0 <= i < |s.started| && x in s.queue && s.started[i].priority == x.priority ==>
          s.started[i].sequence < x.sequence)
    && forall i :: 0 <= i < |s.started| ==> s.started[i].sequence < s.nextSequence
  }

  ghost predicate Inv(s: State) {
    QueueInv(s) && AnswersInv(s) && ReaderInv(s) && IndexingInv(s) && StackInv(s) && OrderInv(s)
  }

  // ----- a request arrives

  lemma {:induction false} QueueGrows(s: State, item: Item, next: nat)
    requires QueueInv(s) && item.sequence == s.nextSequence < next && item.priority <= 2
    requires item.request.background ==> item.priority == 2
    ensures QueueInv(s.(queue := Insert(s.queue, item), nextSequence := next))
  {
    InsertOrders(s.queue, item);
    forall x ensures x in Insert(s.queue, item) <==> x == item || x in s.queue {
      InsertHas(s.queue, item, x);
    }
  }

  lemma {:induction false} OrderGrows(s: State, item: Item, next: nat)
    requires OrderInv(s) && item.sequence == s.nextSequence < next
    ensures OrderInv(s.(queue := Insert(s.queue, item), nextSequence := next))
  {
    forall x ensures x in Insert(s.queue, item) <==> x == item || x in s.queue {
      InsertHas(s.queue, item, x);
    }
  }

  lemma {:induction false} IndexingGrows(s: State, item: Item, indexing: set<string>, after: State)
    requires IndexingInv(s) && after.queue == Insert(s.queue, item) && after.stack == s.stack
             && after.indexing == indexing
    requires indexing == if item.request.background then s.indexing + {item.request.path} else s.indexing
    requires item.request.background ==> item.request.path !in s.indexing
    ensures IndexingInv(after)
  {
    forall x ensures x in after.queue <==> x == item || x in s.queue {
      InsertHas(s.queue, item, x);
    }
  }

  lemma {:induction false} ItemAnswers(s: State, after: State, item: Item)
    requires AnswersInv(s) && after.queue == Insert(s.queue, item) && after.stack == s.stack
             && after.replied == s.replied
    requires after.submitted == s.submitted + Asked(item.request)
    ensures AnswersInv(after)
  {
    InsertWaits(s.queue, item);
  }

  lemma {:induction false} ItemOrdered(s: State, after: State, item: Item)
    requires QueueInv(s) && OrderInv(s) && after.queue == Insert(s.queue, item) && after.started == s.started
    requires item.sequence == s.nextSequence && item.priority <= 2 && (item.request.background ==> item.priority == 2)
    requires after.nextSequence == s.nextSequence + 1
    ensures QueueInv(after) && OrderInv(after)
  {
    QueueGrows(s, item, s.nextSequence + 1);
    OrderGrows(s, item, s.nextSequence + 1);
  }

  lemma {:induction false} ItemKeeps(s: State, after: State, item: Item)
    requires Inv(s) && after.queue == Insert(s.queue, item) && after.nextSequence == s.nextSequence + 1
    requires item.sequence == s.nextSequence && item.priority <= 2 && (item.request.background ==> item.priority == 2)
    requires after.stack == s.stack && after.current == s.current && after.started == s.started
             && after.replied == s.replied
    requires after.submitted == s.submitted + Asked(item.request) && IndexingInv(after)
    requires after.lost == s.lost && after.closed == s.closed && item.request.times.Finite?
    ensures Inv(after)
  {
    ItemAnswers(s, after, item);
    ItemOrdered(s, after, item);
    assert ReaderInv(after) by {
      assert forall r :: r in after.submitted ==> r in s.submitted || r == item.request;
    }
    assert StackInv(after);
  }

  lemma SubmitKeeps(s: State, capacity: nat, r: Request)
    requires Inv(s) && Enabled(s, Submit(r))
    ensures Inv(Submitted(s, capacity, r))
  {
    if r.times.BeyondFloat? {
      SameKeeps(s, Submitted(s, capacity, r), multiset{});
    } else if r.times.Invalid? || Full(s.queue, capacity) {
      SameKeeps(s, Submitted(s, capacity, r), multiset{r});
    } else {
      QueuedKeeps(s, capacity, r);
    }
  }

  lemma QueuedKeeps(s: State, capacity: nat, r: Request)
    requires Inv(s) && Enabled(s, Submit(r)) && r.times.Finite? && !Full(s.queue, capacity)
    ensures Inv(Submitted(s, capacity, r))
  {
    var after := Submitted(s, capacity, r);
    var item := Item(PriorityOf(r.op), s.nextSequence, r);
    IndexingGrows(s, item, s.indexing, after);
    ItemKeeps(s, after, item);
  }

  /** A step that leaves queue and executions alone answers what it takes in. */
  lemma SameKeeps(s: State, after: State, more: multiset<Request>)
    requires Inv(s) && after.queue == s.queue && after.stack == s.stack && after.indexing == s.indexing
    requires after.started == s.started && after.current == s.current && after.nextSequence >= s.nextSequence
    requires after.submitted == s.submitted + more && after.replied == s.replied + more
    requires ReaderInv(after)
    ensures Inv(after)
  {
    SameAnswers(s, after, more);
    assert QueueInv(after) && IndexingInv(after) && StackInv(after) && OrderInv(after);
  }

  lemma SameAnswers(s: State, after: State, more: multiset<Request>)
    requires AnswersInv(s) && after.queue == s.queue && after.stack == s.stack
    requires after.submitted == s.submitted + more && after.replied == s.replied + more
    ensures AnswersInv(after)
  {
  }

  lemma ScheduleKeeps(s: State, capacity: nat, path: string)
    requires Inv(s) && Enabled(s, Schedule(path))
    ensures Inv(Scheduled(s, capacity, path))
  {
    var after := Scheduled(s, capacity, path);
    if path !in s.indexing && !Full(s.queue, capacity) {
      var item := Item(2, s.nextSequence, BackgroundIngest(path));
      IndexingGrows(s, item, s.indexing + {path}, after);
      ItemKeeps(s, after, item);
    } else {
      SameKeeps(s, after, multiset{});
    }
  }

  // ----- a request starts and ends

  lemma QueueShrinks(s: State, after: State)
    requires QueueInv(s) && s.queue != []
    requires after.queue == s.queue[1..] && after.nextSequence == s.nextSequence
    ensures QueueInv(after)
    ensures forall x :: x in after.queue ==> x in s.queue && Before(s.queue[0], x)
  {
    forall x | x in after.queue ensures x in s.queue && Before(s.queue[0], x) {
      var i :| 0 <= i < |after.queue| && after.queue[i] == x;
      assert s.queue[i + 1] == x;
    }
  }

  lemma OrderMoves(s: State, after: State)
    requires OrderInv(s) && QueueInv(s) && s.queue != []
    requires after.queue == s.queue[1..] && after.nextSequence == s.nextSequence
             && after.started == s.started + [s.queue[0]]
    ensures OrderInv(after)
  {
    QueueShrinks(s, after);
    assert s.queue[0] in s.queue;
  }

  lemma {:induction false} IndexingMoves(s: State, below: Stack)
    requires IndexingInv(s) && QueueInv(s) && s.queue != [] && IngestedPath(below) == IngestedPath(s.stack)
    requires below.Running? ==> !s.queue[0].request.background
    ensures IndexingInv(Began(s, below))
  {
    QueueShrinks(s, Began(s, below));
    assert s.queue[0] in s.queue;
  }

  lemma TakeKeeps(s: State)
    requires Inv(s) && Enabled(s, Take)
    ensures Inv(Next(s, 0, Take))
  {
    if s.closed && s.queue[0].request.background {
      DropKeeps(s);
    } else {
      BeganKeeps(s, Idle);
    }
  }

  lemma DropKeeps(s: State)
    requires Inv(s) && s.queue != [] && s.stack.Idle? && s.queue[0].request.background
    ensures Inv(s.(queue := s.queue[1..]))
  {
    QueueShrinks(s, s.(queue := s.queue[1..]));
  }

  /** Execution begins inside a stack that holds the same requests as before. */
  lemma {:induction false} BeganKeeps(s: State, below: Stack)
    requires Inv(s) && s.queue != [] && Nested(below) && Innermost(below) == s.current
    requires Executing(below) == Executing(s.stack) && IngestedPath(below) == IngestedPath(s.stack)
    requires below.Running? ==> below.checkpoint.Some? && !s.queue[0].request.background
    ensures Inv(Began(s, below))
  {
    QueueShrinks(s, Began(s, below));
    OrderMoves(s, Began(s, below));
    IndexingMoves(s, below);
    BeganAnswers(s, below);
  }

  lemma {:induction false} BeganAnswers(s: State, below: Stack)
    requires AnswersInv(s) && s.queue != [] && Executing(below) == Executing(s.stack)
    ensures AnswersInv(Began(s, below))
  {
  }

  lemma TakeReadKeeps(s: State)
    requires Inv(s) && Enabled(s, TakeRead)
    ensures Inv(Next(s, 0, TakeRead))
  {
    assert s.queue[0] in s.queue;
    BeganKeeps(s, WithReads(s, Some(s.stack.checkpoint.value + 1)).stack);
  }

  lemma WithReadsKeeps(s: State, count: Option<nat>)
    requires Inv(s) && s.stack.Running? && count.GetOr(0) <= READS_PER_CHECKPOINT
    ensures Inv(WithReads(s, count))
  {
  }

  lemma {:induction false} FinishedIndexing(s: State)
    requires IndexingInv(s) && Nested(s.stack) && s.stack.Running?
    ensures IndexingInv(Finished(s))
  {
  }

  lemma FinishKeeps(s: State)
    requires Inv(s) && Enabled(s, Finish)
    ensures Inv(Finished(s))
  {
    FinishedIndexing(s);
  }

  /** Every step keeps the invariants. */
  lemma StepKeepsInv(s: State, capacity: nat, e: Event)
    requires Inv(s) && Enabled(s, e)
    ensures Inv(Next(s, capacity, e))
  {
    match e
    case Submit(r) => SubmitKeeps(s, capacity, r);
    case Close => SameKeeps(s, Next(s, capacity, e), multiset{});
    case Schedule(path) => ScheduleKeeps(s, capacity, path);
    case Take => TakeKeeps(s);
    case OpenCheckpoint => WithReadsKeeps(s, Some(0));
    case TakeRead => TakeReadKeeps(s);
    case CloseCheckpoint => WithReadsKeeps(s, None);
    case Finish => FinishKeeps(s);
  }

  // ----- every run

  /** The state after some events, if each could happen when its turn came. */
  function RunOf(capacity: nat, events: seq<Event>): Option<State> {
    if events == [] then Some(Start())
    else match RunOf(capacity, events[..|events| - 1])
      case None => None
      case Some(s) => if Enabled(s, events[|events| - 1]) then Some(Next(s, capacity, events[|events| - 1])) else None
  }

  lemma {:induction false} RunKeepsInv(capacity: nat, events: seq<Event>)
    requires RunOf(capacity, events).Some?
    ensures Inv(RunOf(capacity, events).value)
  {
    if events != [] {
      RunKeepsInv(capacity, events[..|events| - 1]);
      StepKeepsInv(RunOf(capacity, events[..|events| - 1]).value, capacity, events[|events| - 1]);
    }
  }

  /** When nothing waits or executes any more, every request that was submitted has had exactly one reply, but
      for one with a time beyond every float: that one is never answered, and nothing after it is read. */
  lemma {:induction false} EachAnsweredOnce(capacity: nat, events: seq<Event>)
    requires RunOf(capacity, events).Some?
    ensures var s := RunOf(capacity, events).value;
            s.queue == [] && s.stack.Idle? ==>
              && Received(s) == s.replied + Lost(s)
              && (Received(s) == s.replied <==> forall r :: r in Received(s) ==> !r.times.BeyondFloat?)
  {
    RunKeepsInv(capacity, events);
    var s := RunOf(capacity, events).value;
    if s.lost.Some? {
      assert s.lost.value in Received(s);
    }
  }

  /** One such request is enough: the run ends idle with a request that was never answered. */
  lemma {:induction false} RequestCanBeLost(capacity: nat, r: Request)
    requires r.times.BeyondFloat? && !r.background
    ensures RunOf(capacity, [Submit(r)]).Some?
    ensures var s := RunOf(capacity, [Submit(r)]).value;
            s.queue == [] && s.stack.Idle? && Received(s) == multiset{r} && s.replied == multiset{}
  {
    assert [Submit(r)][..0] == [];
    assert RunOf(capacity, []) == Some(Start());
  }

  /** Once the reader has failed no step reads anything, ends the input or answers the request. */
  lemma ReaderStaysLost(s: State, capacity: nat, e: Event)
    requires ReaderInv(s) && Enabled(s, e) && s.lost.Some?
    ensures var after := Next(s, capacity, e);
            after.lost == s.lost && Received(after) == Received(s) && !after.closed
  {
  }

  /** What starts goes before everything left in the queue, and after all of its priority that came earlier. */
  lemma {:induction false} StartsInOrder(capacity: nat, events: seq<Event>, e: Event)
    requires RunOf(capacity, events).Some? && Enabled(RunOf(capacity, events).value, e)
    ensures var s := RunOf(capacity, events).value;
            var after := Next(s, capacity, e);
            |after.started| > |s.started| ==> NextInOrder(s, after)
  {
    RunKeepsInv(capacity, events);
    var s := RunOf(capacity, events).value;
    if |Next(s, capacity, e).started| > |s.started| {
      OnlyTakingStarts(s, capacity, e);
      BeganInOrder(s, Next(s, capacity, e));
    }
  }

  lemma OnlyTakingStarts(s: State, capacity: nat, e: Event)
    requires Enabled(s, e) && |Next(s, capacity, e).started| > |s.started|
    ensures var after := Next(s, capacity, e);
            && s.queue != [] && after.queue == s.queue[1..] && after.nextSequence == s.nextSequence
            && after.started == s.started + [s.queue[0]]
  {
  }

  ghost predicate NextInOrder(s: State, after: State) {
    && after.started != []
    && var item := after.started[|after.started| - 1];
       && item in s.queue && after.started == s.started + [item]
       && (forall x :: x in after.queue ==> Before(item, x))
       && forall i :: 0 <= i < |s.started| && s.started[i].priority == item.priority ==>
            s.started[i].sequence < item.sequence
  }

  lemma BeganInOrder(s: State, after: State)
    requires QueueInv(s) && OrderInv(s) && s.queue != []
    requires after.queue == s.queue[1..] && after.nextSequence == s.nextSequence
    requires after.started == s.started + [s.queue[0]]
    ensures NextInOrder(s, after)
  {
    QueueShrinks(s, after);
    assert s.queue[0] in s.queue;
  }

  // ----- what the steps do

  /** A client's request with valid times waits exactly if there is room - always, without a limit - and is
      answered at once otherwise; one with invalid times is answered at once. */
  lemma {:induction false} SubmissionWaitsOrIsAnswered(s: State, capacity: nat, r: Request)
    requires Inv(s) && Enabled(s, Submit(r))
    ensures var after := Next(s, capacity, Submit(r));
            var waits := r.times.Finite? && (capacity == 0 || |s.queue| < capacity);
            && after.stack == s.stack && after.current == s.current && after.started == s.started
            && after.indexing == s.indexing && after.closed == s.closed
            && (waits ==> after.replied == s.replied && |after.queue| == |s.queue| + 1
                          && exists x :: x in after.queue && x !in s.queue && x.request == r
                                         && forall y :: y in after.queue <==> y in s.queue || y == x)
            && (!waits ==> after.queue == s.queue
                           && after.replied == s.replied + if r.times.BeyondFloat? then multiset{} else multiset{r})
            && after.lost == if r.times.BeyondFloat? then Some(r) else s.lost
  {
    var item := Item(PriorityOf(r.op), s.nextSequence, r);
    forall y ensures y in Insert(s.queue, item) <==> y in s.queue || y == item {
      InsertHas(s.queue, item, y);
    }
    assert item !in s.queue;
  }

  /** A path is ingested in the background once at a time: it is queued unless it is scheduled or there is no room,
      and after its ingest has ended it can be scheduled again. */
  lemma {:induction false} ScheduledOnceAtATime(s: State, capacity: nat, path: string)
    requires Inv(s) && Enabled(s, Schedule(path))
    ensures var after := Next(s, capacity, Schedule(path));
            if path !in s.indexing && (capacity == 0 || |s.queue| < capacity) then
              && after.indexing == s.indexing + {path} && |after.queue| == |s.queue| + 1
              && exists x :: x in after.queue && x.request.background && x.request.path == path
                             && x.request.op == Ingest
                             && forall y :: y in after.queue <==> y in s.queue || y == x
            else after.indexing == s.indexing && after.queue == s.queue
  {
    var item := Item(2, s.nextSequence, BackgroundIngest(path));
    forall y ensures y in Insert(s.queue, item) <==> y in s.queue || y == item {
      InsertHas(s.queue, item, y);
    }
  }

  /** What executes: the main loop begins the first request alone, and drops it if it is a background one and the
      input has closed; a checkpoint starts at none, counts each read it lets in on top of what executes, lets in at
      most eight, and ends only then or when no read is first; the end of a request brings back what was below it, and
      frees its path if it was a background ingest. */
  lemma ExecutionSteps(s: State, capacity: nat, e: Event)
    requires Enabled(s, e)
    ensures var after := Next(s, capacity, e);
            match e
            case Take =>
              var r := s.queue[0].request;
              if s.closed && r.background then after == s.(queue := s.queue[1..])
              else after.stack == Running(r, s.current, None, Idle) && after.current == Some(r)
            case OpenCheckpoint => after == s.(stack := s.stack.(checkpoint := Some(0)))
            case TakeRead =>
              && s.stack.checkpoint.value < 8 && after.current == Some(s.queue[0].request)
              && after.stack == Running(s.queue[0].request, s.current, None,
                                        s.stack.(checkpoint := Some(s.stack.checkpoint.value + 1)))
            case CloseCheckpoint =>
              && after == s.(stack := s.stack.(checkpoint := None))
              && (s.stack.checkpoint.value >= 8 || s.queue == [] || s.queue[0].priority != 0)
            case Finish =>
              && after.stack == s.stack.below && after.current == s.stack.outer && after.queue == s.queue
              && (if s.stack.request.background then
                    after.indexing == s.indexing - {s.stack.request.path} && after.replied == s.replied
                  else after.indexing == s.indexing && after.replied == s.replied + multiset{s.stack.request})
            case Close => after == s.(closed := true)
            case _ => after.stack == s.stack && after.current == s.current
  {
  }

  /** With a limit the queue never holds more. */
  lemma {:induction false} QueueStaysWithin(capacity: nat, events: seq<Event>)
    requires capacity > 0 && RunOf(capacity, events).Some?
    ensures |RunOf(capacity, events).value.queue| <= capacity
  {
    if events != [] {
      QueueStaysWithin(capacity, events[..|events| - 1]);
    }
  }

  // ----- who goes first

  /** The operations that only read. */
  predicate Reads(r: Request) {
    r.op in {Search, Health, Expand}
  }

  predicate SameClass(a: Request, b: Request) {
    a.background == b.background && Reads(a) == Reads(b)
  }

  /** A client's reads come first, what the scheduler does on its own last. */
  ghost predicate Ranked(x: Item) {
    x.priority == if x.request.background then 2 else if Reads(x.request) then 0 else 1
  }

  ghost predicate ClassInv(s: State) {
    && (forall x :: x in s.queue ==> Ranked(x) && (x.request.background ==> !Reads(x.request)))
    && forall x :: x in s.started ==> Ranked(x) && (x.request.background ==> !Reads(x.request))
  }

  lemma {:induction false} InsertKeepsClass(s: State, after: State, item: Item)
    requires ClassInv(s) && Ranked(item) && (item.request.background ==> !Reads(item.request))
    requires after.queue == Insert(s.queue, item) && after.started == s.started
    ensures ClassInv(after)
  {
    forall x | x in after.queue ensures Ranked(x) && (x.request.background ==> !Reads(x.request)) {
      InsertHas(s.queue, item, x);
    }
  }

  lemma StepKeepsClass(s: State, capacity: nat, e: Event)
    requires ClassInv(s) && Enabled(s, e)
    ensures ClassInv(Next(s, capacity, e))
  {
    var after := Next(s, capacity, e);
    if e.Submit? && after.queue != s.queue {
      InsertKeepsClass(s, after, Item(PriorityOf(e.request.op), s.nextSequence, e.request));
    } else if e.Schedule? && after.queue != s.queue {
      InsertKeepsClass(s, after, Item(2, s.nextSequence, BackgroundIngest(e.path)));
    } else if s.queue != [] {
      assert forall x :: x in s.queue[1..] ==> x in s.queue;
      assert s.queue[0] in s.queue;
    }
  }

  lemma {:induction false} RunKeepsClass(capacity: nat, events: seq<Event>)
    requires RunOf(capacity, events).Some?
    ensures ClassInv(RunOf(capacity, events).value)
  {
    if events != [] {
      RunKeepsClass(capacity, events[..|events| - 1]);
      StepKeepsClass(RunOf(capacity, events[..|events| - 1]).value, capacity, events[|events| - 1]);
    }
  }

  /** In every run: a checkpoint lets in searches, health checks and expansions only; while one of those waits
      nothing else starts; no background ingest starts while a client waits; and of the reads, of the clients' other
      requests and of the background ingests each start in the order they arrived. */
  lemma {:induction false} ReadsGoFirst(capacity: nat, events: seq<Event>, e: Event)
    requires RunOf(capacity, events).Some? && Enabled(RunOf(capacity, events).value, e)
    ensures var s := RunOf(capacity, events).value;
            var after := Next(s, capacity, e);
            |after.started| > |s.started| ==>
              var item := after.started[|after.started| - 1];
              var r := item.request;
              && after.started == s.started + [item] && item in s.queue
              && (e.TakeRead? ==> r.op == Search || r.op == Health || r.op == Expand)
              && ((exists x :: x in s.queue && Reads(x.request)) ==> r.op == Search || r.op == Health || r.op == Expand)
              && ((exists x :: x in s.queue && !x.request.background) ==> !r.background)
              && (forall x :: x in after.queue && SameClass(x.request, r) ==> item.sequence < x.sequence)
              && forall x :: x in s.started && SameClass(x.request, r) ==> x.sequence < item.sequence
  {
    var s := RunOf(capacity, events).value;
    var after := Next(s, capacity, e);
    if |after.started| > |s.started| {
      RunKeepsClass(capacity, events);
      StartsInOrder(capacity, events, e);
      OnlyTakingStarts(s, capacity, e);
      FirstIsBest(s, after, e);
    }
  }

  lemma FirstIsBest(s: State, after: State, e: Event)
    requires ClassInv(s) && NextInOrder(s, after) && s.queue != [] && after.queue == s.queue[1..]
    requires after.started == s.started + [s.queue[0]] && (e.TakeRead? ==> ReadIsNext(s))
    ensures var item := s.queue[0];
            var r := item.request;
            && (e.TakeRead? ==> Reads(r))
            && ((exists x :: x in s.queue && Reads(x.request)) ==> Reads(r))
            && ((exists x :: x in s.queue && !x.request.background) ==> !r.background)
            && (forall x :: x in after.queue && SameClass(x.request, r) ==> item.sequence < x.sequence)
            && forall x :: x in s.started && SameClass(x.request, r) ==> x.sequence < item.sequence
  {
    var item := s.queue[0];
    assert item in s.queue && after.started[|after.started| - 1] == item;
    forall x | x in s.queue ensures x == item || Before(item, x) {
      assert x == item || x in after.queue;
    }
  }

  /** At most one background ingest of a path is queued or executing. */
  lemma {:induction false} OneIngestPerPath(capacity: nat, events: seq<Event>, x: Item, y: Item)
    requires RunOf(capacity, events).Some?
    ensures var s := RunOf(capacity, events).value;
            x in s.queue && x.request.background ==>
              && x.request.path in s.indexing && IngestedPath(s.stack) != Some(x.request.path)
              && (y in s.queue && SamePath(x, y) ==> x == y)
  {
    RunKeepsInv(capacity, events);
  }

  /** While anything is queued or executing, the scheduler can go on. */
  lemma NeverStuck(s: State)
    ensures s.queue != [] || s.stack.Running? ==>
              Enabled(s, Take) || Enabled(s, TakeRead) || Enabled(s, CloseCheckpoint) || Enabled(s, Finish)
  {
  }

  /** The scheduler as it runs. Each method takes one step, so what every step keeps holds of it. */
  class Scheduler {
    const capacity: nat
    var queue: seq<Item>
    var nextSequence: nat
    var indexing: set<string>
    var closed: bool
    var lost: Option<Request>
    var stack: Stack
    var current: Option<Request>
    var replies: multiset<Request>
    ghost var submitted: multiset<Request>
    ghost var started: seq<Item>

    ghost function Contents(): State
      reads this
    {
      State(queue, nextSequence, indexing, closed, lost, stack, current, submitted, replies, started)
    }

    constructor (capacity: nat)
      ensures Contents() == Start() && this.capacity == capacity
    {
      this.capacity := capacity;
      queue, nextSequence, indexing, closed, lost := [], 0, {}, false, None;
      stack, current, replies, submitted, started := Idle, None, multiset{}, multiset{}, [];
    }

    /** A client's request is queued, or answered at once if its times are invalid or the queue is full; a time
        beyond every float ends the reader instead. */
    method SubmitRequest(r: Request)
      requires Enabled(Contents(), Submit(r))
      modifies this
      ensures Contents() == Next(old(Contents()), capacity, Submit(r))
    {
      if r.times.BeyondFloat? {
        lost := Some(r);
        return;
      }
      submitted := submitted + multiset{r};
      if r.times.Invalid? {
        replies := replies + multiset{r};
      } else {
        Enqueue(r);
      }
    }

    method Enqueue(r: Request)
      modifies this
      ensures nextSequence == old(nextSequence) + 1
      ensures queue == if !Full(old(queue), capacity)
              then Insert(old(queue), Item(PriorityOf(r.op), old(nextSequence), r)) else old(queue)
      ensures replies == if !Full(old(queue), capacity) then old(replies) else old(replies) + multiset{r}
      ensures unchanged(this`indexing, this`closed, this`lost, this`stack, this`current, this`submitted, this`started)
    {
      var sequence := nextSequence;
      nextSequence := nextSequence + 1;
      if Full(queue, capacity) {
        replies := replies + multiset{r};
      } else {
        queue := Insert(queue, Item(PriorityOf(r.op), sequence, r));
      }
    }

    method ScheduleIndex(path: string)
      requires Enabled(Contents(), Schedule(path))
      modifies this
      ensures Contents() == Next(old(Contents()), capacity, Schedule(path))
    {
      if path !in indexing {
        var sequence := nextSequence;
        nextSequence := nextSequence + 1;
        if !Full(queue, capacity) {
          queue := Insert(queue, Item(2, sequence, BackgroundIngest(path)));
          indexing := indexing + {path};
        }
      }
    }

    method Begin(item: Item)
      modifies this
      ensures stack == Running(item.request, old(current), None, old(stack)) && current == Some(item.request)
      ensures started == old(started) + [item]
      ensures unchanged(this`queue, this`nextSequence, this`indexing, this`closed, this`lost, this`replies,
              this`submitted)
    {
      stack := Running(item.request, current, None, stack);
      current := Some(item.request);
      started := started + [item];
    }

    /** The input has ended. */
    method CloseInput()
      requires Enabled(Contents(), Close)
      modifies this
      ensures Contents() == Next(old(Contents()), capacity, Close)
    {
      closed := true;
    }

    /** An execution reaches a point where waiting reads may go first. */
    method BeginCheckpoint()
      requires Enabled(Contents(), OpenCheckpoint)
      modifies this
      ensures Contents() == Next(old(Contents()), capacity, OpenCheckpoint)
    {
      stack := stack.(checkpoint := Some(0));
    }

    /** The main loop takes the next request; a background one is dropped once the input has closed. */
    method TakeNext()
      requires Enabled(Contents(), Take)
      modifies this
      ensures Contents() == Next(old(Contents()), capacity, Take)
    {
      var item := queue[0];
      queue := queue[1..];
      if closed && item.request.background {
        return;
      }
      Begin(item);
    }

    /** One round of a checkpoint: a read is let in, or the checkpoint is over. */
    method YieldRead() returns (more: bool)
      requires stack.Running? && stack.checkpoint.Some?
      modifies this
      ensures more == Enabled(old(Contents()), TakeRead)
      ensures Contents() == Next(old(Contents()), capacity, if more then TakeRead else CloseCheckpoint)
    {
      more := stack.checkpoint.value < READS_PER_CHECKPOINT && queue != [] && queue[0].priority == 0;
      if !more {
        stack := stack.(checkpoint := None);
        return;
      }
      stack := stack.(checkpoint := Some(stack.checkpoint.value + 1));
      var item := queue[0];
      queue := queue[1..];
      Begin(item);
    }

    /** Whatever an execution comes to, a client's request is answered and what was current before is again. */
    method FinishExecution()
      requires Enabled(Contents(), Finish)
      modifies this
      ensures Contents() == Next(old(Contents()), capacity, Finish)
    {
      var done := stack.request;
      if !done.background {
        replies := replies + multiset{done};
      } else {
        indexing := indexing - {done.path};
      }
      current := stack.outer;
      stack := stack.below;
    }
  }
}
