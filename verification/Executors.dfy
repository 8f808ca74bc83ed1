/** Running research in the background: executors that may outlive their run, stopping them, releasing
    their slot after a time limit, and starting again. */
module ResearchExecutors {
  import opened Prelude

  datatype Status = Queued | Running | Done | Failed | Cancelled

  /** A research record: `turns` are the states of its review turns, `content` everything executors write, and
      `published` says that it has a formal document or a publication that is not complete. */
  datatype Record = Record(status: Status, deleted: bool, turns: seq<Status>, content: string,
                           joint: bool, hasDocument: bool, published: bool)

  /** One started executor; `review` is the turn it works on, `settled` says its work has returned. */
  datatype Executor = Executor(record: nat, review: Option<nat>, aborted: bool, settled: bool)

  /** Records in the order they were created, the executors ever started, the run each record has now,
      and the pending stop timers. */
  datatype State = State(records: map<nat, Record>, order: seq<nat>, executors: map<nat, Executor>, next: nat,
                         running: map<nat, nat>, timers: set<nat>, stopped: bool)

  predicate Live(status: Status) {
    status == Queued || status == Running
  }

  // ----- starting

  function FirstQueued(turns: seq<Status>): (r: Option<nat>)
    ensures r.Some? ==> r.value < |turns| && turns[r.value] == Queued
    ensures r.None? ==> Queued !in turns
  {
    if turns == [] then None
    else if turns[0] == Queued then Some(0)
    else match FirstQueued(turns[1..]) case None => None case Some(i) => Some(i + 1)
  }

  predicate MayStart(s: State, id: nat) {
    id in s.records && !s.records[id].deleted && s.records[id].status == Queued && id !in s.running
  }

  /** Starts one record: its first queued review turn, if any, is what the executor works on. */
  function Started(s: State, id: nat): State
    requires MayStart(s, id)
  {
    var r := s.records[id];
    var review := FirstQueued(r.turns);
    var turns := if review.Some? then r.turns[review.value := Running] else r.turns;
    s.(records := s.records[id := r.(status := Running, turns := turns)],
       executors := s.executors[s.next := Executor(id, review, false, false)],
       next := s.next + 1, running := s.running[id := s.next])
  }

  /** One pass over the first `n` records while the capacity lasts. */
  function PumpUpTo(s: State, limit: nat, n: nat): State
    requires n <= |s.order|
    ensures PumpUpTo(s, limit, n).order == s.order
  {
    if n == 0 then s
    else
      var before := PumpUpTo(s, limit, n - 1);
      if |before.running| < limit && MayStart(before, s.order[n - 1]) then Started(before, s.order[n - 1]) else before
  }

  function Pump(s: State, limit: nat): State {
    if s.stopped then s else PumpUpTo(s, limit, |s.order|)
  }

  // ----- what executors do

  /** A callback is heard only from an executor that was not aborted, for a record that is neither
      deleted nor cancelled; editing also needs the record to be running. */
  predicate Heard(s: State, e: nat, edits: bool) {
    e in s.executors && s.executors[e].record in s.records && !s.executors[e].aborted
    && var r := s.records[s.executors[e].record];
       !r.deleted && r.status != Cancelled && (edits ==> r.status == Running)
  }

  function Callback(s: State, e: nat, edits: bool, content: string): State {
    if !Heard(s, e, edits) then s
    else
      var id := s.executors[e].record;
      s.(records := s.records[id := s.records[id].(content := content)])
  }

  function TurnEnded(turns: seq<Status>, review: Option<nat>, status: Status): seq<Status> {
    if review.Some? && review.value < |turns| then turns[review.value := status] else turns
  }

  /** The executor's work returned or threw: the record ends with it unless the run was stopped meanwhile. */
  function Returned(s: State, e: nat, ok: bool, content: string): State
    requires e in s.executors
  {
    var x := s.executors[e];
    var t := s.(executors := s.executors[e := x.(settled := true)]);
    if !Heard(s, e, false) then t
    else
      var r := s.records[x.record];
      var status := if ok then Done else Failed;
      var turns := TurnEnded(r.turns, x.review, status);
      t.(records := t.records[x.record := r.(status := status, turns := turns, content := content)])
  }

  predicate IsCurrent(s: State, e: nat) {
    e in s.executors && s.executors[e].record in s.running && s.running[s.executors[e].record] == e
  }

  /** What follows the executor's work in any case: only the record's current run gives up the slot. */
  function Finalized(s: State, e: nat): State {
    if !IsCurrent(s, e) then s
    else s.(running := s.running - {s.executors[e].record}, timers := s.timers - {e})
  }

  // ----- what people do

  function TurnsStopped(turns: seq<Status>, status: Status): (r: seq<Status>)
    ensures |r| == |turns|
    ensures forall i :: 0 <= i < |turns| ==> r[i] == if Live(turns[i]) then status else turns[i]
  {
    seq(|turns|, i requires 0 <= i < |turns| => if Live(turns[i]) then status else turns[i])
  }

  function AbortRunning(s: State, id: nat): State {
    if id !in s.running then s
    else
      var e := s.running[id];
      s.(executors := if e in s.executors then s.executors[e := s.executors[e].(aborted := true)] else s.executors,
         timers := s.timers + {e})
  }

  function Stop(s: State, id: nat): State {
    if id !in s.records || s.records[id].deleted || !Live(s.records[id].status) then s
    else
      var r := s.records[id];
      var stopped := r.(status := Cancelled, turns := TurnsStopped(r.turns, Cancelled));
      AbortRunning(s.(records := s.records[id := stopped]), id)
  }

  /** The time limit of a stop passed: the slot is released if the stopped run still holds it. */
  function TimedOut(s: State, e: nat): State {
    var t := s.(timers := s.timers - {e});
    if !IsCurrent(s, e) || s.executors[e].record !in s.records then t
    else
      var id := s.executors[e].record;
      var r := s.records[id];
      t.(records := t.records[id := r.(status := Failed, turns := TurnEnded(r.turns, s.executors[e].review, Failed))],
         running := t.running - {id})
  }

  function Remove(s: State, id: nat): State {
    if id !in s.records || s.records[id].deleted then s
    else
      var t := Stop(s, id);
      if id in t.records then t.(records := t.records[id := t.records[id].(deleted := true)]) else t
  }

  predicate MayReview(s: State, id: nat) {
    !s.stopped && id in s.records && s.records[id].hasDocument && !s.records[id].deleted && !s.records[id].published
    && id !in s.running && !Live(s.records[id].status)
  }

  function Review(s: State, id: nat): State {
    if !MayReview(s, id) then s
    else s.(records := s.records[id := s.records[id].(turns := s.records[id].turns + [Queued], status := Queued)])
  }

  predicate MayRetry(s: State, id: nat) {
    !s.stopped && id in s.records && !s.records[id].deleted && s.records[id].joint && !Live(s.records[id].status)
    && !s.records[id].published && id !in s.running
  }

  function LastTurnEndedBadly(r: Record): bool {
    r.turns != [] && r.turns[|r.turns| - 1] in {Failed, Cancelled}
  }

  /** A retry repeats a failed or stopped review turn, and otherwise queues the research again. */
  function Retry(s: State, id: nat): State {
    if !MayRetry(s, id) then s
    else if LastTurnEndedBadly(s.records[id]) then Review(s, id)
    else s.(records := s.records[id := s.records[id].(status := Queued)])
  }

  /** People edit a record only while nothing is queued or running for it. */
  function HumanEdit(s: State, id: nat, content: string): State {
    if id !in s.records || Live(s.records[id].status) then s
    else s.(records := s.records[id := s.records[id].(content := content)])
  }

  function QueueAgain(r: Record): Record {
    if !r.deleted && Live(r.status) then r.(status := Queued, turns := TurnsStopped(r.turns, Queued)) else r
  }

  /** The service stops: what was running is queued for the next start, and every run is aborted. */
  function Shutdown(s: State): State {
    var aborted := set id | id in s.running :: s.running[id];
    s.(stopped := true,
       records := map id | id in s.records :: QueueAgain(s.records[id]),
       executors := map e | e in s.executors ::
         if e in aborted then s.executors[e].(aborted := true) else s.executors[e],
       timers := s.timers + aborted)
  }

  datatype Event =
    | Create(id: nat, record: Record)
    | Pumps
    | Calls(e: nat, edits: bool, content: string)
    | Returns(e: nat, ok: bool, content: string)
    | Finalizes(e: nat)
    | Stops(id: nat)
    | TimesOut(e: nat)
    | Removes(id: nat)
    | Reviews(id: nat)
    | Retries(id: nat)
    | HumanEdits(id: nat, content: string)
    | Shuts

  predicate Enabled(s: State, e: Event) {
    match e
    case Create(id, record) => !s.stopped && id !in s.records && record.status == Queued && !record.deleted
    case Calls(x, _, _) => x in s.executors
    case Returns(x, _, _) => x in s.executors && !s.executors[x].settled
    case Finalizes(x) => x in s.executors && s.executors[x].settled
    case TimesOut(x) => x in s.timers
    case _ => true
  }

  function Next(s: State, limit: nat, e: Event): State
    requires Enabled(s, e)
  {
    match e
    case Create(id, record) => s.(records := s.records[id := record], order := s.order + [id])
    case Pumps => Pump(s, limit)
    case Calls(x, edits, content) => Callback(s, x, edits, content)
    case Returns(x, ok, content) => Returned(s, x, ok, content)
    case Finalizes(x) => Finalized(s, x)
    case Stops(id) => Stop(s, id)
    case TimesOut(x) => TimedOut(s, x)
    case Removes(id) => Remove(s, id)
    case Reviews(id) => Review(s, id)
    case Retries(id) => Retry(s, id)
    case HumanEdits(id, content) => HumanEdit(s, id, content)
    case Shuts => Shutdown(s)
  }

  // ----- the invariant

  predicate Working(s: State, e: nat) {
    e in s.executors && !s.executors[e].aborted && !s.executors[e].settled
  }

  ghost predicate RunningInv(s: State) {
    forall id :: id in s.running ==>
      var e := s.running[id];
      e in s.executors && s.executors[e].record == id && id in s.records
      // A stopped run that still holds its slot will lose it to the timer at the latest.
      && (s.executors[e].aborted ==> e in s.timers)
  }

  /** An executor at work is its record's current run, and its record is running and not deleted. */
  ghost predicate WorkingInv(s: State) {
    forall e :: Working(s, e) ==>
      && IsCurrent(s, e) && s.executors[e].record in s.records
      && s.records[s.executors[e].record].status == Running && !s.records[s.executors[e].record].deleted
  }

  /** A record says it is running only while an executor works for it. */
  ghost predicate StatusInv(s: State) {
    forall id :: id in s.records && s.records[id].status == Running ==> id in s.running && Working(s, s.running[id])
  }

  ghost predicate TimersInv(s: State) {
    forall e :: e in s.timers ==> e in s.executors && s.executors[e].aborted && s.executors[e].record in s.records
  }

  ghost predicate Inv(s: State, limit: nat) {
    && (forall e :: e in s.executors ==> e < s.next)
    && TimersInv(s) && RunningInv(s) && WorkingInv(s) && StatusInv(s) && |s.running| <= limit
  }

  lemma StartedKeepsParts(s: State, id: nat)
    requires RunningInv(s) && WorkingInv(s) && TimersInv(s) && MayStart(s, id)
    requires forall e :: e in s.executors ==> e < s.next
    ensures RunningInv(Started(s, id)) && TimersInv(Started(s, id))
    ensures WorkingInv(Started(s, id))
  {
  }

  lemma StartedKeepsStatus(s: State, id: nat)
    requires StatusInv(s) && MayStart(s, id) && forall e :: e in s.executors ==> e < s.next
    ensures StatusInv(Started(s, id))
  {
  }

  lemma StartedKeepsInv(s: State, limit: nat, id: nat)
    requires Inv(s, limit) && MayStart(s, id) && |s.running| < limit
    ensures Inv(Started(s, id), limit)
  {
    StartedKeepsParts(s, id);
    StartedKeepsStatus(s, id);
    assert s.running[id := s.next].Keys == s.running.Keys + {id};
  }

  lemma {:induction false} PumpKeepsInv(s: State, limit: nat, n: nat)
    requires Inv(s, limit) && n <= |s.order|
    ensures Inv(PumpUpTo(s, limit, n), limit)
  {
    if n > 0 {
      PumpKeepsInv(s, limit, n - 1);
      var before := PumpUpTo(s, limit, n - 1);
      if |before.running| < limit && MayStart(before, s.order[n - 1]) {
        StartedKeepsInv(before, limit, s.order[n - 1]);
      }
    }
  }

  lemma FewerRunning(s: State, id: nat)
    ensures |s.running - {id}| <= |s.running|
  {
    assert (s.running - {id}).Keys == s.running.Keys - {id};
  }

  lemma ReturnedKeepsInv(s: State, limit: nat, e: nat, ok: bool, content: string)
    requires Inv(s, limit) && e in s.executors && !s.executors[e].settled
    ensures Inv(Returned(s, e, ok, content), limit)
  {
    assert Heard(s, e, false) ==> Working(s, e);
  }

  lemma FinalizedKeepsInv(s: State, limit: nat, e: nat)
    requires Inv(s, limit) && e in s.executors && s.executors[e].settled
    ensures Inv(Finalized(s, e), limit)
  {
    FewerRunning(s, s.executors[e].record);
  }

  lemma TimedOutKeepsParts(s: State, e: nat)
    requires RunningInv(s) && WorkingInv(s) && TimersInv(s) && e in s.timers
    ensures RunningInv(TimedOut(s, e)) && TimersInv(TimedOut(s, e))
    ensures WorkingInv(TimedOut(s, e))
  {
  }

  lemma TimedOutKeepsStatus(s: State, e: nat)
    requires StatusInv(s) && e in s.timers
    ensures StatusInv(TimedOut(s, e))
  {
  }

  lemma TimedOutKeepsInv(s: State, limit: nat, e: nat)
    requires Inv(s, limit) && e in s.timers
    ensures Inv(TimedOut(s, e), limit)
  {
    TimedOutKeepsParts(s, e);
    TimedOutKeepsStatus(s, e);
    FewerRunning(s, s.executors[e].record);
  }

  lemma StopKeepsInv(s: State, limit: nat, id: nat)
    requires Inv(s, limit)
    ensures Inv(Stop(s, id), limit)
    ensures id in s.records && !s.records[id].deleted ==>
              id in Stop(s, id).records && !Live(Stop(s, id).records[id].status)
  {
    StopKeepsParts(s, id);
    StopKeepsStatus(s, id);
  }

  lemma StopKeepsParts(s: State, id: nat)
    requires RunningInv(s) && WorkingInv(s) && TimersInv(s)
    ensures RunningInv(Stop(s, id)) && WorkingInv(Stop(s, id)) && TimersInv(Stop(s, id))
  {
  }

  lemma StopKeepsStatus(s: State, id: nat)
    requires StatusInv(s) && RunningInv(s)
    ensures StatusInv(Stop(s, id))
  {
  }

  lemma RemoveKeepsInv(s: State, limit: nat, id: nat)
    requires Inv(s, limit)
    ensures Inv(Remove(s, id), limit)
  {
    StopKeepsInv(s, limit, id);
  }

  lemma QueuedKeepsInv(s: State, limit: nat, id: nat, r: Record)
    requires Inv(s, limit) && id in s.records && !Live(s.records[id].status)
    requires r.status == Queued || r.status == s.records[id].status
    ensures Inv(s.(records := s.records[id := r]), limit)
  {
  }

  lemma RequestsKeepInv(s: State, limit: nat, id: nat)
    requires Inv(s, limit)
    ensures Inv(Review(s, id), limit) && Inv(Retry(s, id), limit)
  {
    if MayReview(s, id) {
      QueuedKeepsInv(s, limit, id, s.records[id].(turns := s.records[id].turns + [Queued], status := Queued));
    }
    if MayRetry(s, id) {
      QueuedKeepsInv(s, limit, id, s.records[id].(status := Queued));
    }
  }

  lemma CreateKeepsInv(s: State, limit: nat, id: nat, record: Record)
    requires Inv(s, limit) && Enabled(s, Create(id, record))
    ensures Inv(Next(s, limit, Create(id, record)), limit)
  {
  }

  lemma CallbackKeepsInv(s: State, limit: nat, e: nat, edits: bool, content: string)
    requires Inv(s, limit)
    ensures Inv(Callback(s, e, edits, content), limit)
  {
  }

  lemma ShutdownKeepsInv(s: State, limit: nat)
    requires Inv(s, limit)
    ensures Inv(Shutdown(s), limit)
  {
  }

  lemma StepKeepsInv(s: State, limit: nat, e: Event)
    requires Inv(s, limit) && Enabled(s, e)
    ensures Inv(Next(s, limit, e), limit)
  {
    match e
    case Create(id, record) => CreateKeepsInv(s, limit, id, record);
    case Pumps => PumpKeepsInv(s, limit, |s.order|);
    case Calls(x, edits, content) => CallbackKeepsInv(s, limit, x, edits, content);
    case Returns(x, ok, content) => ReturnedKeepsInv(s, limit, x, ok, content);
    case Finalizes(x) => FinalizedKeepsInv(s, limit, x);
    case Stops(id) => StopKeepsInv(s, limit, id);
    case TimesOut(x) => TimedOutKeepsInv(s, limit, x);
    case Removes(id) => RemoveKeepsInv(s, limit, id);
    case Reviews(id) => RequestsKeepInv(s, limit, id);
    case Retries(id) => RequestsKeepInv(s, limit, id);
    case HumanEdits(id, content) =>
      if id in s.records && !Live(s.records[id].status) {
        QueuedKeepsInv(s, limit, id, s.records[id].(content := content));
      }
    case Shuts => ShutdownKeepsInv(s, limit);
  }

  // ----- whole runs

  const EMPTY := State(map[], [], map[], 0, map[], {}, false)

  ghost predicate Execution(s: State, limit: nat, events: seq<Event>, last: State)
    decreases |events|
  {
    if events == [] then s == last
    else Enabled(s, events[0]) && Execution(Next(s, limit, events[0]), limit, events[1..], last)
  }

  lemma {:induction false} ExecutionKeepsInv(s: State, limit: nat, events: seq<Event>, last: State)
    requires Inv(s, limit) && Execution(s, limit, events, last)
    ensures Inv(last, limit)
    decreases |events|
  {
    if events != [] {
      StepKeepsInv(s, limit, events[0]);
      ExecutionKeepsInv(Next(s, limit, events[0]), limit, events[1..], last);
    }
  }

  /** Whatever was started, stopped, released, retried and reviewed: a record never has two executors at
      work, at most `limit` slots are taken, and a record is marked running exactly while one is at work. */
  lemma {:induction false} OneExecutorPerRecord(limit: nat, events: seq<Event>, s: State)
    requires Execution(EMPTY, limit, events, s)
    ensures forall d, e :: Working(s, d) && Working(s, e) && s.executors[d].record == s.executors[e].record ==> d == e
    ensures |s.running| <= limit
    ensures forall id :: id in s.records ==>
              (s.records[id].status == Running <==> exists e :: Working(s, e) && s.executors[e].record == id)
  {
    ExecutionKeepsInv(EMPTY, limit, events, s);
    forall id | id in s.records && s.records[id].status == Running
      ensures exists e :: Working(s, e) && s.executors[e].record == id
    {
      assert Working(s, s.running[id]);
    }
  }

  lemma {:induction false} PumpAddsExecutors(s: State, limit: nat, n: nat, e: nat)
    requires n <= |s.order| && e in s.executors && e < s.next
    ensures e in PumpUpTo(s, limit, n).executors && PumpUpTo(s, limit, n).executors[e] == s.executors[e]
    ensures PumpUpTo(s, limit, n).next >= s.next
  {
    if n > 0 {
      PumpAddsExecutors(s, limit, n - 1, e);
    }
  }

  lemma StepKeepsAborted(s: State, limit: nat, event: Event, e: nat)
    requires Enabled(s, event) && e in s.executors && s.executors[e].aborted && e < s.next
    ensures var after := Next(s, limit, event);
            e in after.executors && after.executors[e].aborted && after.executors[e].record == s.executors[e].record
  {
    match event
    case Pumps => PumpAddsExecutors(s, limit, |s.order|, e);
    case Stops(id) => StopKeepsAborted(s, id, e);
    case Removes(id) => StopKeepsAborted(s, id, e);
    case _ =>
  }

  lemma StopKeepsAborted(s: State, id: nat, e: nat)
    requires e in s.executors && s.executors[e].aborted
    ensures e in Stop(s, id).executors && Stop(s, id).executors[e] == s.executors[e]
  {
  }

  /** An aborted executor stays aborted. */
  lemma {:induction false} AbortedForGood(s: State, limit: nat, events: seq<Event>, last: State, e: nat)
    requires Inv(s, limit) && Execution(s, limit, events, last) && e in s.executors && s.executors[e].aborted
    ensures e in last.executors && last.executors[e].aborted && last.executors[e].record == s.executors[e].record
    decreases |events|
  {
    if events != [] {
      StepKeepsInv(s, limit, events[0]);
      StepKeepsAborted(s, limit, events[0], e);
      AbortedForGood(Next(s, limit, events[0]), limit, events[1..], last, e);
    }
  }

  /** From its abort on, nothing an executor does - callbacks, returning, throwing - changes any record,
      and what follows its work takes no slot from a newer run. */
  lemma {:induction false} AbortedExecutorIsHarmless(s: State, limit: nat, events: seq<Event>, last: State, e: nat,
                                                     action: Event)
    requires Inv(s, limit) && Execution(s, limit, events, last) && e in s.executors && s.executors[e].aborted
    requires Enabled(last, action)
    requires (action.Calls? && action.e == e) || (action.Returns? && action.e == e)
             || (action.Finalizes? && action.e == e)
    ensures Next(last, limit, action).records == last.records
    ensures forall id :: id in last.running && last.running[id] != e ==>
              id in Next(last, limit, action).running && Next(last, limit, action).running[id] == last.running[id]
  {
    AbortedForGood(s, limit, events, last, e);
    ExecutionKeepsInv(s, limit, events, last);
  }

  /** What follows the work frees the slot and stops the timer of its own run, and changes nothing for any other. */
  lemma FinalReleaseFrees(s: State, limit: nat, e: nat)
    requires Inv(s, limit) && e in s.executors && s.executors[e].settled
    ensures var after := Next(s, limit, Finalizes(e));
            && after == s.(running := after.running, timers := after.timers)
            && e !in after.running.Values
            && (e in s.running.Values ==>
                  after.running == s.running - {s.executors[e].record} && after.timers == s.timers - {e})
            && (e !in s.running.Values ==> after == s)
  {
    if e in s.running.Values {
      var id :| id in s.running && s.running[id] == e;
      assert IsCurrent(s, e);
    }
  }

  /** A stop timer ends only the run it was set for: while another run holds the record's slot it changes nothing. */
  lemma TimerSparesNewerRuns(s: State, limit: nat, e: nat)
    requires Inv(s, limit) && e in s.timers
    ensures !IsCurrent(s, e) ==> TimedOut(s, e).records == s.records && TimedOut(s, e).running == s.running
    ensures IsCurrent(s, e) ==>
              var id := s.executors[e].record;
              && TimedOut(s, e).running == s.running - {id} && TimedOut(s, e).records[id].status == Failed
              && !Working(s, e)
              && forall other :: other in s.records && other != id ==> TimedOut(s, e).records[other] == s.records[other]
  {
  }

  /** After a stop the slot is given back at the latest by the timer, and then the record can be retried. */
  lemma StoppedRunIsReleased(s: State, limit: nat, id: nat)
    requires Inv(s, limit) && id in s.records && !s.records[id].deleted && s.records[id].status == Running
    ensures var e := s.running[id];
            var t := Stop(s, id);
            && t.records[id].status == Cancelled && t.running == s.running && e in t.timers
            && !MayRetry(t, id) && !MayReview(t, id)
            && id !in TimedOut(t, e).running
            && (s.records[id].joint && !s.records[id].published && !s.stopped ==> MayRetry(TimedOut(t, e), id))
  {
    assert Working(s, s.running[id]);
  }

  /** How a run that returned or threw is recorded. Unless it was stopped, its record is done exactly if it did not
      throw and failed exactly if it did, with the content that was returned, and so is the turn it worked on;
      nothing else changes. After a stop nothing changes at all. */
  lemma ReturnRecorded(s: State, limit: nat, e: nat, ok: bool, content: string)
    requires Inv(s, limit) && e in s.executors && !s.executors[e].settled
    ensures var x := s.executors[e];
            var after := Next(s, limit, Returns(e, ok, content));
            && after == s.(records := after.records, executors := s.executors[e := x.(settled := true)])
            && (x.aborted ==> after.records == s.records)
            && (!x.aborted ==>
                  && x.record in s.records && after.records.Keys == s.records.Keys
                  && (forall id :: id in s.records && id != x.record ==> after.records[id] == s.records[id])
                  && RecordEnded(s.records[x.record], after.records[x.record], x.review, ok, content))
  {
    assert !s.executors[e].aborted ==> Working(s, e);
  }

  ghost predicate RecordEnded(before: Record, after: Record, review: Option<nat>, ok: bool, content: string) {
    && (ok ==> after.status == Done) && (!ok ==> after.status == Failed) && after.content == content
    && |after.turns| == |before.turns|
    && (forall i :: 0 <= i < |before.turns| ==>
          after.turns[i] == if review == Some(i) then after.status else before.turns[i])
    && after == before.(status := after.status, turns := after.turns, content := after.content)
  }

  // ----- what requests change

  /** Only this record differs, in these two fields. */
  ghost predicate OnlyRecord(s: State, after: State, id: nat) {
    && id in s.records && id in after.records && after.records == s.records[id := after.records[id]]
    && after.records[id] == s.records[id].(status := after.records[id].status, turns := after.records[id].turns)
  }

  /** A stop cancels a record that waits or runs, with the turns of it that do, aborts its run and arms the timer. */
  lemma StopCancels(s: State, limit: nat, id: nat)
    requires Inv(s, limit)
    ensures var after := Next(s, limit, Stops(id));
            if id in s.records && !s.records[id].deleted && s.records[id].status in {Queued, Running} then
              && OnlyRecord(s, after, id) && after.records[id].status == Cancelled
              && |after.records[id].turns| == |s.records[id].turns|
              && (forall i :: 0 <= i < |s.records[id].turns| ==>
                    after.records[id].turns[i]
                    == if s.records[id].turns[i] in {Queued, Running} then Cancelled else s.records[id].turns[i])
              && after == s.(records := after.records, executors := after.executors, timers := after.timers)
              && if id in s.running then
                   var e := s.running[id];
                   && after.executors == s.executors[e := s.executors[e].(aborted := true)]
                   && after.timers == s.timers + {e}
                 else after.executors == s.executors && after.timers == s.timers
            else after == s
  {
  }

  /** When the time limit of a stop passes, a run that still holds its slot loses it, and its record and turn failed;
      the timer is spent either way. */
  lemma TimeoutReleases(s: State, limit: nat, e: nat)
    requires Inv(s, limit) && e in s.timers
    ensures var after := Next(s, limit, TimesOut(e));
            && after.timers == s.timers - {e} && after.executors == s.executors
            && if e in s.running.Values then
                 var x := s.executors[e];
                 && after.running == s.running - {x.record} && OnlyRecord(s, after, x.record)
                 && after.records[x.record].status == Failed
                 && after.records[x.record].turns
                    == (if x.review.Some? && x.review.value < |s.records[x.record].turns|
                        then s.records[x.record].turns[x.review.value := Failed] else s.records[x.record].turns)
               else after.running == s.running && after.records == s.records
  {
    if e in s.running.Values {
      var id :| id in s.running && s.running[id] == e;
      assert IsCurrent(s, e);
    }
  }

  /** Removing stops a record and hides it; a removed record stays as it is. */
  lemma RemovalHides(s: State, limit: nat, id: nat)
    requires Inv(s, limit)
    ensures var stopped, after := Next(s, limit, Stops(id)), Next(s, limit, Removes(id));
            if id in s.records && !s.records[id].deleted then
              after == stopped.(records := stopped.records[id := stopped.records[id].(deleted := true)])
            else after == s
  {
  }

  /** A review is queued behind the other turns exactly if the record has a document, is not removed, published or
      busy, and the service goes on. */
  lemma ReviewQueues(s: State, limit: nat, id: nat)
    requires Inv(s, limit)
    ensures var after := Next(s, limit, Reviews(id));
            if !s.stopped && id in s.records && s.records[id].hasDocument && !s.records[id].deleted
               && !s.records[id].published && id !in s.running && s.records[id].status !in {Queued, Running} then
              && after == s.(records := after.records) && OnlyRecord(s, after, id)
              && after.records[id].status == Queued && after.records[id].turns == s.records[id].turns + [Queued]
            else after == s
  {
  }

  /** A retry of a record that is not removed, published or busy queues its last turn once more if that failed or was
      stopped, which needs a document, and otherwise the research itself. */
  lemma RetryQueues(s: State, limit: nat, id: nat)
    requires Inv(s, limit)
    ensures var after := Next(s, limit, Retries(id));
            if !s.stopped && id in s.records && s.records[id].joint && !s.records[id].deleted
               && !s.records[id].published && id !in s.running && s.records[id].status !in {Queued, Running} then
              var turns := s.records[id].turns;
              if turns != [] && (turns[|turns| - 1] == Failed || turns[|turns| - 1] == Cancelled) then
                after == Next(s, limit, Reviews(id))
              else after == s.(records := s.records[id := s.records[id].(status := Queued)])
            else after == s
  {
  }

  /** The record and the turns of it that wait or run wait for the next start; any other record stays. */
  ghost predicate WaitsAgain(before: Record, after: Record) {
    if !before.deleted && before.status in {Queued, Running} then
      && after == before.(status := Queued, turns := after.turns) && |after.turns| == |before.turns|
      && forall i :: 0 <= i < |before.turns| ==>
           after.turns[i] == if before.turns[i] in {Queued, Running} then Queued else before.turns[i]
    else after == before
  }

  lemma QueuedAgainWaits(r: Record)
    ensures WaitsAgain(r, QueueAgain(r))
  {
  }

  /** A shutdown leaves everything that waits or runs for the next start. */
  lemma ShutdownQueues(s: State, limit: nat, id: nat)
    requires Inv(s, limit) && id in s.records
    ensures var after := Next(s, limit, Shuts);
            && after.records.Keys == s.records.Keys && after.order == s.order
            && id in after.records && WaitsAgain(s.records[id], after.records[id])
  {
    QueuedAgainWaits(s.records[id]);
  }

  /** It aborts every run and has a timer release each. */
  lemma ShutdownAborts(s: State, limit: nat)
    requires Inv(s, limit)
    ensures var after := Next(s, limit, Shuts);
            && after.stopped && after.running == s.running && after.executors.Keys == s.executors.Keys
            && after.timers == s.timers + s.running.Values
            && forall e :: e in s.executors ==>
                 after.executors[e]
                 == if e in s.running.Values then s.executors[e].(aborted := true) else s.executors[e]
  {
    assert (set id | id in s.running :: s.running[id]) == s.running.Values;
  }

  /** People edit what neither waits nor runs, and only that. */
  lemma PeopleEditIdle(s: State, id: nat, content: string)
    ensures HumanEdit(s, id, content)
            == if id in s.records && s.records[id].status !in {Queued, Running}
               then s.(records := s.records[id := s.records[id].(content := content)]) else s
  {
  }

  // ----- which records are started

  predicate Startable(s: State, id: nat) {
    id in s.records && !s.records[id].deleted && s.records[id].status == Queued && id !in s.running
  }

  /** A new run of its own: the record is running, and so is its first queued turn, which the run works on. */
  ghost predicate RunBegan(s: State, t: State, id: nat) {
    && Startable(s, id) && id in t.records && id in t.running
    && t.running[id] !in s.executors && t.running[id] in t.executors
    && var x := t.executors[t.running[id]];
       var before, now := s.records[id], t.records[id];
       && x.record == id && !x.aborted && !x.settled
       && now == before.(status := Running, turns := now.turns) && |now.turns| == |before.turns|
       && (x.review.None? ==> Queued !in before.turns && now.turns == before.turns)
       && (x.review.Some? ==>
             && x.review.value < |before.turns| && before.turns[x.review.value] == Queued
             && (forall i :: 0 <= i < x.review.value ==> before.turns[i] != Queued)
             && now.turns == before.turns[x.review.value := Running])
  }

  /** Runs that were there stay, the others began, and what no run began for is as before. */
  ghost predicate OnlyBegan(s: State, t: State) {
    && t.records.Keys == s.records.Keys && t.order == s.order && t.timers == s.timers && t.stopped == s.stopped
    && (forall id :: id in s.running ==> id in t.running && t.running[id] == s.running[id])
    && (forall id :: id in t.running && id !in s.running ==> RunBegan(s, t, id))
    && (forall id :: id in s.records && (id in s.running || id !in t.running) ==> t.records[id] == s.records[id])
    && forall e :: e in s.executors ==> e in t.executors && t.executors[e] == s.executors[e]
  }

  /** What waits although it could start found the capacity used up, and nothing behind it began. */
  ghost predicate InTurn(s: State, t: State, limit: nat, n: nat)
    requires n <= |s.order|
  {
    && (forall id :: id in t.running && id !in s.running ==> exists j :: 0 <= j < n && s.order[j] == id)
    && forall i :: 0 <= i < n && Startable(s, s.order[i]) && s.order[i] !in t.running ==>
         |t.running| >= limit
         && forall id :: id in t.running && id !in s.running ==> exists j :: 0 <= j < i && s.order[j] == id
  }

  lemma {:induction false} FirstQueuedIs(turns: seq<Status>)
    ensures FirstQueued(turns).Some? ==> forall i :: 0 <= i < FirstQueued(turns).value ==> turns[i] != Queued
  {
    if turns != [] && turns[0] != Queued {
      FirstQueuedIs(turns[1..]);
    }
  }

  lemma BeganOneMore(s: State, t: State, id: nat)
    requires OnlyBegan(s, t) && MayStart(t, id)
    requires (forall e :: e in t.executors ==> e < t.next) && forall e :: e in s.executors ==> e in t.executors
    ensures OnlyBegan(s, Started(t, id))
  {
    FirstQueuedIs(t.records[id].turns);
    var after := Started(t, id);
    assert t.records[id] == s.records[id];
    assert RunBegan(s, after, id);
    forall other | other in after.running && other !in s.running ensures RunBegan(s, after, other) {
      if other != id {
        assert RunBegan(s, t, other);
      }
    }
  }

  lemma {:induction false} InTurnNext(s: State, t: State, after: State, limit: nat, n: nat)
    requires 0 < n <= |s.order| && InTurn(s, t, limit, n - 1) && OnlyBegan(s, t)
    requires after == if |t.running| < limit && MayStart(t, s.order[n - 1]) then Started(t, s.order[n - 1]) else t
    ensures InTurn(s, after, limit, n)
  {
    var id := s.order[n - 1];
    forall other | other in after.running && other !in s.running ensures exists j :: 0 <= j < n && s.order[j] == other {
      if other != id {
        assert other in t.running;
      }
    }
    forall i | 0 <= i < n && Startable(s, s.order[i]) && s.order[i] !in after.running
      ensures |after.running| >= limit
      ensures forall other :: other in after.running && other !in s.running ==>
                exists j :: 0 <= j < i && s.order[j] == other
    {
      if i == n - 1 {
        assert t.records[id] == s.records[id];
        assert after == t;
      } else {
        assert s.order[i] !in t.running;
      }
    }
  }

  ghost predicate Pumped(s: State, t: State, limit: nat, n: nat) {
    n <= |s.order| && Inv(t, limit) && OnlyBegan(s, t) && InTurn(s, t, limit, n)
  }

  function PumpedNext(t: State, limit: nat, id: nat): State {
    if |t.running| < limit && MayStart(t, id) then Started(t, id) else t
  }

  lemma PumpedNone(s: State, limit: nat)
    requires Inv(s, limit)
    ensures Pumped(s, s, limit, 0)
  {
  }

  lemma {:induction false} PumpedOn(s: State, t: State, limit: nat, n: nat)
    requires Pumped(s, t, limit, n) && n < |s.order|
    ensures Pumped(s, PumpedNext(t, limit, s.order[n]), limit, n + 1)
  {
    var id := s.order[n];
    InTurnNext(s, t, PumpedNext(t, limit, id), limit, n + 1);
    if |t.running| < limit && MayStart(t, id) {
      StartedKeepsInv(t, limit, id);
      BeganOneMore(s, t, id);
    }
  }

  lemma {:induction false} PumpedInTurn(s: State, limit: nat, n: nat)
    requires Inv(s, limit) && n <= |s.order|
    ensures Pumped(s, PumpUpTo(s, limit, n), limit, n)
  {
    if n == 0 {
      PumpedNone(s, limit);
    } else {
      PumpedInTurn(s, limit, n - 1);
      PumpedOn(s, PumpUpTo(s, limit, n - 1), limit, n - 1);
      assert PumpUpTo(s, limit, n) == PumpedNext(PumpUpTo(s, limit, n - 1), limit, s.order[n - 1]);
    }
  }

  /** A pass begins a run for queued records that are not deleted and have none, in the order of their creation,
      until the capacity is used up; after a shutdown it does nothing. */
  lemma PumpStartsInTurn(s: State, limit: nat)
    requires Inv(s, limit)
    ensures s.stopped ==> Next(s, limit, Pumps) == s
    ensures !s.stopped ==>
              OnlyBegan(s, Next(s, limit, Pumps)) && InTurn(s, Next(s, limit, Pumps), limit, |s.order|)
  {
    if !s.stopped {
      PumpedInTurn(s, limit, |s.order|);
    }
  }

  // ----- which turn is worked on

  /** Only the last turn is live, and only with its record. */
  ghost predicate TurnsSound(r: Record) {
    forall i :: 0 <= i < |r.turns| && Live(r.turns[i]) ==>
      i == |r.turns| - 1 && Live(r.status) && (r.turns[i] == Running ==> r.status == Running)
  }

  /** A run has the last turn of its record, or none of its turns is live. */
  ghost predicate ReviewSound(r: Record, review: Option<nat>) {
    if review.Some? then review.value == |r.turns| - 1 else forall i :: 0 <= i < |r.turns| ==> !Live(r.turns[i])
  }

  ghost predicate TurnsInv(s: State) {
    && (forall id :: id in s.records ==> TurnsSound(s.records[id]))
    && forall id :: id in s.running && id in s.records && s.running[id] in s.executors ==>
         ReviewSound(s.records[id], s.executors[s.running[id]].review)
  }

  lemma StartedKeepsTurns(s: State, limit: nat, id: nat)
    requires Inv(s, limit) && TurnsInv(s) && MayStart(s, id)
    ensures TurnsInv(Started(s, id))
  {
    assert TurnsSound(s.records[id]);
  }

  lemma {:induction false} PumpKeepsTurns(s: State, limit: nat, n: nat)
    requires Inv(s, limit) && TurnsInv(s) && n <= |s.order|
    ensures Inv(PumpUpTo(s, limit, n), limit) && TurnsInv(PumpUpTo(s, limit, n))
  {
    if n > 0 {
      PumpKeepsTurns(s, limit, n - 1);
      PumpStepKeepsTurns(PumpUpTo(s, limit, n - 1), limit, s.order[n - 1]);
    }
  }

  lemma PumpStepKeepsTurns(s: State, limit: nat, id: nat)
    requires Inv(s, limit) && TurnsInv(s)
    ensures |s.running| < limit && MayStart(s, id) ==> Inv(Started(s, id), limit) && TurnsInv(Started(s, id))
  {
    if |s.running| < limit && MayStart(s, id) {
      StartedKeepsTurns(s, limit, id);
      StartedKeepsInv(s, limit, id);
    }
  }

  /** What is changed at one record has to be sound there, and everything else stays. */
  lemma RecordKeepsTurns(s: State, after: State, id: nat)
    requires TurnsInv(s) && id in s.records && id in after.records
    requires after.records == s.records[id := after.records[id]] && TurnsSound(after.records[id])
    requires forall r :: r in after.running ==> r in s.running && after.running[r] == s.running[r]
    requires forall e :: e in after.executors ==> e in s.executors && after.executors[e].review == s.executors[e].review
    requires id in after.running && after.running[id] in after.executors ==>
               ReviewSound(after.records[id], after.executors[after.running[id]].review)
    ensures TurnsInv(after)
  {
  }

  lemma StopKeepsTurns(s: State, id: nat)
    requires TurnsInv(s)
    ensures TurnsInv(Stop(s, id))
  {
    if Stop(s, id) != s {
      RecordKeepsTurns(s, Stop(s, id), id);
    }
  }

  lemma ReturnKeepsTurns(s: State, limit: nat, e: nat, ok: bool, content: string)
    requires Inv(s, limit) && TurnsInv(s) && e in s.executors && !s.executors[e].settled
    ensures TurnsInv(Returned(s, e, ok, content))
  {
    if Heard(s, e, false) {
      assert Working(s, e);
      assert TurnsSound(s.records[s.executors[e].record]);
      RecordKeepsTurns(s, Returned(s, e, ok, content), s.executors[e].record);
    }
  }

  lemma TimeoutKeepsTurns(s: State, limit: nat, e: nat)
    requires Inv(s, limit) && TurnsInv(s) && e in s.timers
    ensures TurnsInv(TimedOut(s, e))
  {
    if IsCurrent(s, e) {
      assert TurnsSound(s.records[s.executors[e].record]);
      RecordKeepsTurns(s, TimedOut(s, e), s.executors[e].record);
    }
  }

  lemma RequestKeepsTurns(s: State, limit: nat, id: nat)
    requires Inv(s, limit) && TurnsInv(s)
    ensures TurnsInv(Review(s, id)) && TurnsInv(Retry(s, id))
  {
    if id in s.records {
      assert TurnsSound(s.records[id]);
    }
    if MayReview(s, id) {
      RecordKeepsTurns(s, Review(s, id), id);
    }
    if MayRetry(s, id) && !LastTurnEndedBadly(s.records[id]) {
      RecordKeepsTurns(s, Retry(s, id), id);
    }
  }

  lemma ShutdownKeepsTurns(s: State)
    requires TurnsInv(s)
    ensures TurnsInv(Shutdown(s))
  {
    forall id | id in s.records ensures TurnsSound(QueueAgain(s.records[id])) {
      assert TurnsSound(s.records[id]);
    }
  }

  /** What the program stored is sound to start with again. */
  lemma StoredIsSound(s: State, id: nat)
    requires TurnsInv(s) && id in s.records && !s.records[id].deleted && Live(s.records[id].status)
    ensures TurnsSound(QueueAgain(s.records[id])) && QueueAgain(s.records[id]).status == Queued
  {
    assert TurnsSound(s.records[id]);
  }

  lemma RemoveKeepsTurns(s: State, id: nat)
    requires TurnsInv(s)
    ensures TurnsInv(Remove(s, id))
  {
    StopKeepsTurns(s, id);
    var t := Stop(s, id);
    if id in t.records {
      assert TurnsSound(t.records[id]);
    }
  }

  lemma ContentKeepsTurns(s: State, id: nat, content: string)
    requires TurnsInv(s) && id in s.records
    ensures TurnsInv(s.(records := s.records[id := s.records[id].(content := content)]))
  {
    assert TurnsSound(s.records[id]);
  }

  lemma FinalizeKeepsTurns(s: State, e: nat)
    requires TurnsInv(s)
    ensures TurnsInv(Finalized(s, e))
  {
  }

  lemma CreateKeepsTurns(s: State, limit: nat, id: nat, record: Record)
    requires Inv(s, limit) && TurnsInv(s) && Enabled(s, Create(id, record)) && TurnsSound(record)
    ensures TurnsInv(Next(s, limit, Create(id, record)))
  {
  }

  lemma StepKeepsTurns(s: State, limit: nat, event: Event)
    requires Inv(s, limit) && TurnsInv(s) && Enabled(s, event) && (event.Create? ==> TurnsSound(event.record))
    ensures TurnsInv(Next(s, limit, event))
  {
    match event
    case Create(id, record) => CreateKeepsTurns(s, limit, id, record);
    case Pumps => PumpKeepsTurns(s, limit, |s.order|);
    case Calls(e, edits, content) =>
      if Heard(s, e, edits) {
        ContentKeepsTurns(s, s.executors[e].record, content);
      }
    case Returns(e, ok, content) => ReturnKeepsTurns(s, limit, e, ok, content);
    case Finalizes(e) => FinalizeKeepsTurns(s, e);
    case Stops(id) => StopKeepsTurns(s, id);
    case TimesOut(e) => TimeoutKeepsTurns(s, limit, e);
    case Removes(id) => RemoveKeepsTurns(s, id);
    case Reviews(id) => RequestKeepsTurns(s, limit, id);
    case Retries(id) => RequestKeepsTurns(s, limit, id);
    case HumanEdits(id, content) =>
      if id in s.records {
        ContentKeepsTurns(s, id, content);
      }
    case Shuts => ShutdownKeepsTurns(s);
  }

  lemma {:induction false} ExecutionKeepsTurns(s: State, limit: nat, events: seq<Event>, last: State)
    requires Inv(s, limit) && TurnsInv(s) && Execution(s, limit, events, last)
    requires forall i :: 0 <= i < |events| && events[i].Create? ==> TurnsSound(events[i].record)
    ensures Inv(last, limit) && TurnsInv(last)
    decreases |events|
  {
    if events != [] {
      assert events[0].Create? ==> TurnsSound(events[0].record);
      StepKeepsInv(s, limit, events[0]);
      StepKeepsTurns(s, limit, events[0]);
      ExecutionKeepsTurns(Next(s, limit, events[0]), limit, events[1..], last);
    }
  }

  /** In every run: a review turn whose executor threw is failed, and once the slot is free a retry queues that
      request again as a new turn, which is the one the next start works on. */
  lemma {:induction false} FailedReviewIsRepeated(limit: nat, events: seq<Event>, s: State, e: nat, content: string)
    requires Execution(EMPTY, limit, events, s)
    requires forall i :: 0 <= i < |events| && events[i].Create? ==> TurnsSound(events[i].record)
    requires Working(s, e) && s.executors[e].review.Some? && !s.stopped
    ensures s.executors[e].record in s.records
    ensures var id := s.executors[e].record;
            s.records[id].joint && s.records[id].hasDocument && !s.records[id].published ==>
              var t := Next(Next(s, limit, Returns(e, false, content)), limit, Finalizes(e));
              && id in t.records && id !in t.running && t.records[id].turns != []
              && s.executors[e].review.value == |t.records[id].turns| - 1
              && t.records[id].turns[|t.records[id].turns| - 1] == Failed
              && RepeatsTurn(t, Next(t, limit, Retries(id)), id)
  {
    EmptyKeepsTurns(limit, events, s);
    var id := s.executors[e].record;
    FailedTurn(s, limit, e, content);
    var t := Next(Next(s, limit, Returns(e, false, content)), limit, Finalizes(e));
    if s.records[id].joint && s.records[id].hasDocument && !s.records[id].published {
      RetryRepeats(t, id);
    }
  }

  lemma {:induction false} EmptyKeepsTurns(limit: nat, events: seq<Event>, s: State)
    requires Execution(EMPTY, limit, events, s)
    requires forall i :: 0 <= i < |events| && events[i].Create? ==> TurnsSound(events[i].record)
    ensures Inv(s, limit) && TurnsInv(s)
  {
    ExecutionKeepsTurns(EMPTY, limit, events, s);
  }

  lemma FailedTurn(s: State, limit: nat, e: nat, content: string)
    requires Inv(s, limit) && TurnsInv(s) && Working(s, e) && s.executors[e].review.Some?
    ensures s.executors[e].record in s.records
    ensures var id := s.executors[e].record;
            var t := Finalized(Returned(s, e, false, content), e);
            && id in t.records && id !in t.running && t.stopped == s.stopped
            && t.records[id] == s.records[id].(status := Failed, turns := t.records[id].turns, content := content)
            && t.records[id].turns != [] && s.executors[e].review.value == |t.records[id].turns| - 1
            && t.records[id].turns[|t.records[id].turns| - 1] == Failed && Queued !in t.records[id].turns
  {
    var id := s.executors[e].record;
    assert ReviewSound(s.records[id], s.executors[e].review) && TurnsSound(s.records[id]);
    ReturnRecorded(s, limit, e, false, content);
  }

  /** The request of the last turn is queued again, and the next start works on it. */
  ghost predicate RepeatsTurn(s: State, after: State, id: nat) {
    && id in s.records && MayStart(after, id) && after.records[id].turns == s.records[id].turns + [Queued]
    && after.next in Started(after, id).executors
    && Started(after, id).executors[after.next].review == Some(|s.records[id].turns|)
  }

  lemma RetryRepeats(s: State, id: nat)
    requires MayRetry(s, id) && s.records[id].hasDocument && LastTurnEndedBadly(s.records[id])
    requires Queued !in s.records[id].turns
    ensures RepeatsTurn(s, Retry(s, id), id)
  {
    FirstAfterEnded(s.records[id].turns);
  }

  lemma {:induction false} FirstAfterEnded(turns: seq<Status>)
    requires Queued !in turns
    ensures FirstQueued(turns + [Queued]) == Some(|turns|)
  {
    if turns != [] {
      assert (turns + [Queued])[1..] == turns[1..] + [Queued];
      FirstAfterEnded(turns[1..]);
    }
  }

  /** A callback changes its record's content exactly when it is heard. */
  lemma CallbackHeard(s: State, e: nat, edits: bool, content: string)
    requires e in s.executors && s.executors[e].record in s.records
    requires s.records[s.executors[e].record].content != content
    ensures Callback(s, e, edits, content).records != s.records <==>
              !s.executors[e].aborted && !s.records[s.executors[e].record].deleted
              && s.records[s.executors[e].record].status != Cancelled
              && (edits ==> s.records[s.executors[e].record].status == Running)
  {
    var id := s.executors[e].record;
    assert Heard(s, e, edits) ==> Callback(s, e, edits, content).records[id].content == content;
  }

  const NEW_RECORD := Record(Queued, false, [], "", true, true, false)

  /** The state after one research ran to its end. */
  const AFTER_ONE_RUN := State(map[7 := NEW_RECORD.(status := Done, content := "draft")], [7],
                               map[0 := Executor(7, None, false, true)], 1, map[], {}, false)

  lemma OneRunEnds()
    ensures Execution(EMPTY, 1, [Create(7, NEW_RECORD), Pumps, Returns(0, true, "draft"), Finalizes(0)], AFTER_ONE_RUN)
  {
    var s1 := Next(EMPTY, 1, Create(7, NEW_RECORD));
    assert PumpUpTo(s1, 1, 0) == s1;
    var s2 := Next(s1, 1, Pumps);
    assert s2 == Started(s1, 7);
    var s3 := Next(s2, 1, Returns(0, true, "draft"));
    assert Next(s3, 1, Finalizes(0)) == AFTER_ONE_RUN;
    assert Execution(s3, 1, [Finalizes(0)], AFTER_ONE_RUN);
    assert Execution(s2, 1, [Returns(0, true, "draft"), Finalizes(0)], AFTER_ONE_RUN);
    assert Execution(s1, 1, [Pumps, Returns(0, true, "draft"), Finalizes(0)], AFTER_ONE_RUN);
  }

  /** An executor whose work returned without a stop is never aborted: if it still calls back, it is heard
      even while a newer run of the same record is at work. */
  lemma FinishedExecutorIsStillHeard() returns (s: State)
    ensures Execution(AFTER_ONE_RUN, 1, [Reviews(7), Pumps], s) && Working(s, 1)
    ensures 0 in s.executors && s.executors[0].settled && s.executors[0].record == 7
    ensures s.records.Keys == {7}
            && Callback(s, 0, true, "late").records == s.records[7 := s.records[7].(content := "late")]
  {
    var queued := Next(AFTER_ONE_RUN, 1, Reviews(7));
    assert PumpUpTo(queued, 1, 0) == queued;
    s := Next(queued, 1, Pumps);
    assert s == Started(queued, 7);
    assert Execution(queued, 1, [Pumps], s);
  }

  // ----- the manager, changing its records and maps step by step

  class ComponentResearchManager {
    var records: map<nat, Record>
    var order: seq<nat>
    var executors: map<nat, Executor>
    var next: nat
    var running: map<nat, nat>
    var timers: set<nat>
    var stopped: bool

    ghost function Model(): State
      reads this
    {
      State(records, order, executors, next, running, timers, stopped)
    }

    constructor ()
      ensures Model() == EMPTY && Inv(Model(), 0)
    {
      records, order, executors, next := map[], [], map[], 0;
      running, timers, stopped := map[], {}, false;
    }

    /** A new record waits for its execution. */
    method CreateRecord(limit: nat, id: nat, record: Record)
      requires Inv(Model(), limit) && Enabled(Model(), Create(id, record))
      modifies this
      ensures Model() == Next(old(Model()), limit, Create(id, record)) && Inv(Model(), limit)
    {
      CreateKeepsInv(Model(), limit, id, record);
      records := records[id := record];
      order := order + [id];
    }

    /** A removed record is stopped first. */
    method RemoveRecord(limit: nat, id: nat)
      requires Inv(Model(), limit)
      modifies this
      ensures Model() == Remove(old(Model()), id) && Inv(Model(), limit)
    {
      RemoveKeepsInv(Model(), limit, id);
      if id !in records || records[id].deleted {
        return;
      }
      StopRecord(limit, id);
      if id in records {
        records := records[id := records[id].(deleted := true)];
      }
    }

    /** The service stops: everything live is queued again for the next start, and every run is aborted. */
    method ShutDown(limit: nat)
      requires Inv(Model(), limit)
      modifies this
      ensures Model() == Shutdown(old(Model())) && Inv(Model(), limit)
    {
      ShutdownKeepsInv(Model(), limit);
      AbortAll();
    }

    method AbortAll()
      modifies this
      ensures Model() == Shutdown(old(Model()))
    {
      stopped := true;
      var aborted := set id | id in running :: running[id];
      records := map id | id in records :: QueueAgain(records[id]);
      executors := map e | e in executors :: if e in aborted then executors[e].(aborted := true) else executors[e];
      timers := timers + aborted;
    }

    /** Starts what is queued, in the order of creation, while the capacity lasts. */
    method PumpQueue(limit: nat)
      requires Inv(Model(), limit)
      modifies this
      ensures Model() == Pump(old(Model()), limit) && Inv(Model(), limit)
    {
      if stopped {
        return;
      }
      ghost var before := Model();
      for n := 0 to |order|
        invariant Model() == PumpUpTo(before, limit, n)
      {
        var id := order[n];
        if |running| < limit && id in records && !records[id].deleted && records[id].status == Queued
           && id !in running {
          StartRecord(id);
        }
      }
      PumpKeepsInv(before, limit, |order|);
    }

    method StartRecord(id: nat)
      requires MayStart(Model(), id)
      modifies this
      ensures Model() == Started(old(Model()), id)
    {
      var r := records[id];
      var review := FirstQueued(r.turns);
      if review.Some? {
        r := r.(turns := r.turns[review.value := Running]);
      }
      records := records[id := r.(status := Running)];
      executors := executors[next := Executor(id, review, false, false)];
      running := running[id := next];
      next := next + 1;
    }

    /** An executor reports progress or edits the draft. */
    method HearCallback(e: nat, edits: bool, content: string)
      requires e in executors && executors[e].record in records
      modifies this`records
      ensures Model() == Callback(old(Model()), e, edits, content)
    {
      var id := executors[e].record;
      if executors[e].aborted || records[id].deleted || records[id].status == Cancelled {
        return;
      }
      if edits && records[id].status != Running {
        return;
      }
      records := records[id := records[id].(content := content)];
    }

    /** The executor's work ended, well or not. */
    method WorkEnded(limit: nat, e: nat, ok: bool, content: string)
      requires Inv(Model(), limit) && e in executors && !executors[e].settled && executors[e].record in records
      modifies this
      ensures Model() == Returned(old(Model()), e, ok, content) && Inv(Model(), limit)
    {
      ReturnedKeepsInv(Model(), limit, e, ok, content);
      var x := executors[e];
      executors := executors[e := x.(settled := true)];
      var r := records[x.record];
      if x.aborted || r.deleted || r.status == Cancelled {
        return;
      }
      var status := if ok then Done else Failed;
      r := r.(content := content, turns := TurnEnded(r.turns, x.review, status));
      records := records[x.record := r.(status := status)];
    }

    /** Runs after the work in any case. */
    method FinallyRelease(limit: nat, e: nat)
      requires Inv(Model(), limit) && e in executors && executors[e].settled
      modifies this
      ensures Model() == Finalized(old(Model()), e) && Inv(Model(), limit)
    {
      FinalizedKeepsInv(Model(), limit, e);
      var id := executors[e].record;
      if id !in running || running[id] != e {
        return;
      }
      timers := timers - {e};
      running := running - {id};
    }

    method StopRecord(limit: nat, id: nat)
      requires Inv(Model(), limit)
      modifies this
      ensures Model() == Stop(old(Model()), id) && Inv(Model(), limit)
    {
      StopKeepsInv(Model(), limit, id);
      if id !in records || records[id].deleted || !Live(records[id].status) {
        return;
      }
      var r := records[id];
      r := r.(turns := TurnsStopped(r.turns, Cancelled));
      records := records[id := r.(status := Cancelled)];
      if id in running {
        var e := running[id];
        executors := executors[e := executors[e].(aborted := true)];
        timers := timers + {e};
      }
    }

    /** The stop's time limit passed. */
    method ReleaseByTimer(limit: nat, e: nat)
      requires Inv(Model(), limit) && e in timers
      modifies this
      ensures Model() == TimedOut(old(Model()), e) && Inv(Model(), limit)
    {
      TimedOutKeepsInv(Model(), limit, e);
      timers := timers - {e};
      var id := executors[e].record;
      if id !in running || running[id] != e {
        return;
      }
      var r := records[id];
      r := r.(turns := TurnEnded(r.turns, executors[e].review, Failed));
      records := records[id := r.(status := Failed)];
      running := running - {id};
    }

    /** Queues a review turn; `valid` says that mode, section and message of the request are. */
    method ReviewRecord(limit: nat, id: nat, valid: bool) returns (accepted: bool)
      requires Inv(Model(), limit)
      modifies this
      ensures Model() == (if valid then Review(old(Model()), id) else old(Model())) && Inv(Model(), limit)
      ensures accepted <==> valid && MayReview(old(Model()), id)
    {
      RequestsKeepInv(Model(), limit, id);
      if !valid {
        return false;
      }
      if stopped || id !in records || !records[id].hasDocument || records[id].deleted || records[id].published {
        return false;
      }
      if id in running || Live(records[id].status) {
        return false;
      }
      records := records[id := records[id].(turns := records[id].turns + [Queued], status := Queued)];
      return true;
    }

    /** Repeats a failed or stopped review turn, if its request is still `valid`, or else the research. */
    method RetryRecord(limit: nat, id: nat, valid: bool)
      requires Inv(Model(), limit)
      modifies this
      ensures Inv(Model(), limit)
      ensures Model() == if !valid && old(MayRetry(Model(), id) && LastTurnEndedBadly(records[id])) then old(Model())
                         else Retry(old(Model()), id)
    {
      RequestsKeepInv(Model(), limit, id);
      if stopped || id !in records || records[id].deleted || !records[id].joint || Live(records[id].status)
         || records[id].published || id in running {
        return;
      }
      var turns := records[id].turns;
      if turns != [] && turns[|turns| - 1] in {Failed, Cancelled} {
        var _ := ReviewRecord(limit, id, valid);
        return;
      }
      records := records[id := records[id].(status := Queued)];
    }
  }
}
