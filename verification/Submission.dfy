/** Submitting annotations: hand-overs are recorded and ids locked before an asynchronous delivery,
    while edits, decisions and other submissions go on. */
module AnnotationSubmission {
  import opened Prelude
  import opened AnnotationLedger
  import opened AnnotationLedgerStore
  import opened SubmissionLocks

  /** A submission waiting for its delivery; `handed` are the ids it handed over itself. */
  datatype Submission = Submission(flight: Flight, selected: seq<Annotation>, snapshot: seq<Annotation>,
                                   handed: set<string>)

  /** The ledgers by path, the lock table, and the submissions in flight. */
  datatype World = World(ledgers: map<string, Ledger>, locks: LockTable, pending: map<nat, Submission>)

  function LedgerAt(w: World, path: string): Ledger {
    if path in w.ledgers then w.ledgers[path] else map[]
  }

  function Flights(pending: map<nat, Submission>): map<nat, Flight> {
    map k | k in pending :: pending[k].flight
  }

  function Ids(items: seq<Annotation>): (ids: set<string>)
    ensures forall i :: 0 <= i < |items| ==> items[i].id in ids
    ensures forall id :: id in ids ==> exists i :: 0 <= i < |items| && items[i].id == id
  {
    set i | 0 <= i < |items| :: items[i].id
  }

  function OpenIds(ledger: Ledger, items: seq<Annotation>): (ids: set<string>)
    ensures forall i :: 0 <= i < |items| && OpenHandOver(ledger, items[i]) ==> items[i].id in ids
    ensures forall id :: id in ids ==>
              exists i :: 0 <= i < |items| && items[i].id == id && OpenHandOver(ledger, items[i])
  {
    set i | 0 <= i < |items| && OpenHandOver(ledger, items[i]) :: items[i].id
  }

  /** Handed over and not delivered, under whatever text. */
  predicate Undelivered(ledger: Ledger, id: string) {
    id in ledger && ledger[id].status == Draft && ledger[id].agentAssigned
  }

  // ----- the steps

  datatype HandOver = HandOver(ledger: Ledger, all: bool, handed: set<string>)

  /** Hands over the selected annotations that wait for it, up to the first that cannot be. */
  function HandOverUpTo(ledger: Ledger, items: seq<Annotation>, n: nat, who: string, context: Option<string>,
                        at: string): HandOver
    requires n <= |items|
  {
    if n == 0 then HandOver(ledger, true, {})
    else HandOverNext(HandOverUpTo(ledger, items, n - 1, who, context, at), items[n - 1], who, context, at)
  }

  function HandOverNext(before: HandOver, item: Annotation, who: string, context: Option<string>,
                        at: string): HandOver {
    if !before.all || !MayHandOver(item) then before
    else if item.id in before.ledger && MayHandOver(before.ledger[item.id]) then
      HandOver(Apply(before.ledger, RouteAgent(item.id, who, at, context)), true, before.handed + {item.id})
    else before.(all := false)
  }

  function ContextOf(context: string): Option<string> {
    if Blank(context) then None else Some(Trim(context))
  }

  predicate MayBegin(w: World, path: string, selected: seq<Annotation>, context: string) {
    |Trim(context)| <= MAX_CONTEXT && Ids(selected) !! Active(w.locks, path)
  }

  function CurrentOf(ledger: Ledger, items: seq<Annotation>): seq<Annotation> {
    if items == [] then []
    else (if items[0].id in ledger then [ledger[items[0].id]] else []) + CurrentOf(ledger, items[1..])
  }

  function FlightOf(w: World, path: string, selected: seq<Annotation>): Flight {
    Flight(path, LockFor(w.locks, path), Ids(selected))
  }

  function Begin(w: World, token: nat, path: string, selected: seq<Annotation>, who: string, context: string,
                 at: string): World {
    if !MayBegin(w, path, selected, context) then w
    else
      var ledger := LedgerAt(w, path);
      var given := HandOverUpTo(ledger, selected, |selected|, who, ContextOf(context), at);
      var locks := Acquire(w.locks, path, Ids(selected));
      var flight := FlightOf(w, path, selected);
      if given.all then
        World(w.ledgers[path := given.ledger], locks,
              w.pending[token := Submission(flight, selected, CurrentOf(given.ledger, selected), given.handed)])
      else
        World(w.ledgers[path := AfterReset(given.ledger, selected)],
              Release(locks, flight), w.pending)
  }

  /** The annotations a delivery is recorded for, and the ledger after recording it. */
  function DeliverableIds(ledger: Ledger, batch: seq<Annotation>): set<string> {
    set i | 0 <= i < |batch| && StillDeliverable(ledger, batch[i]) :: batch[i].id
  }

  function AfterMark(ledger: Ledger, ids: set<string>, via: SentVia, who: Option<string>, at: string): Ledger {
    map id | id in ledger :: if id in ids then MarkedSent(ledger[id], via, at, who) else ledger[id]
  }

  datatype Step =
    | Submit(token: nat, path: string, selected: seq<Annotation>, who: string, context: string, at: string)
    | Deliver(token: nat, batch: seq<Annotation>, via: SentVia, signed: Option<string>, at: string)
    | Finish(token: nat)
    | Fail(token: nat, at: string)
    | Elsewhere(path: string, op: Operation)
    | HandsOver(path: string, routed: seq<string>, marked: seq<string>, who: string, via: SentVia, at: string)

  /** Any operation someone else appends meanwhile: notes and edits, decisions, receipts, replies, reopenings,
      resets, deliveries - all but a hand-over, which nobody else appends alone. */
  predicate Ordinary(ledger: Ledger, op: Operation) {
    match op
    case Add(record) => record.id !in ledger && !record.agentAssigned
    case RouteAgent(_, _, _, _) => false
    case _ => true
  }

  /** Other callers hand some annotations over and record their delivery, among others, in the same step. */
  predicate MayHandOverAll(ledger: Ledger, routed: seq<string>, marked: seq<string>) {
    forall i :: 0 <= i < |routed| ==>
      routed[i] in marked && routed[i] in ledger && MayHandOver(ledger[routed[i]]) && ledger[routed[i]].resolution.None?
  }

  function RouteAll(ledger: Ledger, ids: seq<string>, who: string, at: string): Ledger {
    if ids == [] then ledger
    else Apply(RouteAll(ledger, ids[..|ids| - 1], who, at), RouteAgent(ids[|ids| - 1], who, at, None))
  }

  /** The selection was read from the ledger at some earlier time. */
  predicate ReadEarlier(ledger: Ledger, selected: seq<Annotation>) {
    forall i :: 0 <= i < |selected| ==> selected[i].id in ledger && selected[i].rework <= ledger[selected[i].id].rework
  }

  /** What did not wait for a hand-over when it was selected does not wait for one under the same revision. */
  predicate StillClosed(ledger: Ledger, selected: seq<Annotation>) {
    forall i :: 0 <= i < |selected| && selected[i].id in ledger && ledger[selected[i].id].rework == selected[i].rework
                && !MayHandOver(selected[i]) ==>
      !MayHandOver(ledger[selected[i].id])
  }

  /** Both hold of every selection that was read from the same log earlier. */
  lemma SelectionFromLog(log: seq<Operation>, i: nat, j: nat, selected: seq<Annotation>)
    requires WellFormed(log) && RoutesWaiting(log) && MarksDeliveries(log) && i <= j <= |log|
    requires forall k :: 0 <= k < |selected| ==>
               selected[k].id in Replay(log[..i]) && selected[k] == Replay(log[..i])[selected[k].id]
    ensures ReadEarlier(Replay(log[..j]), selected) && StillClosed(Replay(log[..j]), selected)
  {
    forall k | 0 <= k < |selected|
      ensures selected[k].id in Replay(log[..j]) && selected[k].rework <= Replay(log[..j])[selected[k].id].rework
      ensures Replay(log[..j])[selected[k].id].rework == selected[k].rework && !MayHandOver(selected[k]) ==>
                !MayHandOver(Replay(log[..j])[selected[k].id])
    {
      ClosedStaysClosed(log, i, j, selected[k].id);
    }
  }

  predicate Enabled(w: World, step: Step) {
    match step
    case Submit(token, path, selected, _, _, _) =>
      && token !in w.pending && selected != []
      && ReadEarlier(LedgerAt(w, path), selected) && StillClosed(LedgerAt(w, path), selected)
    case Deliver(token, batch, _, _, _) =>
      token in w.pending && forall i :: 0 <= i < |batch| ==> batch[i] in w.pending[token].snapshot
    case Finish(token) => token in w.pending && w.pending[token].flight.lock in w.locks.sets
    case Fail(token, _) => token in w.pending && w.pending[token].flight.lock in w.locks.sets
    case Elsewhere(path, op) => Ordinary(LedgerAt(w, path), op)
    case HandsOver(path, routed, marked, _, _, _) => MayHandOverAll(LedgerAt(w, path), routed, marked)
  }

  function Next(w: World, step: Step): World
    requires Enabled(w, step)
  {
    match step
    case Submit(token, path, selected, who, context, at) => Begin(w, token, path, selected, who, context, at)
    case Deliver(token, batch, via, signed, at) =>
      var path := w.pending[token].flight.path;
      var ledger := LedgerAt(w, path);
      w.(ledgers := w.ledgers[path := AfterMark(ledger, DeliverableIds(ledger, batch), via, signed, at)])
    case Finish(token) =>
      w.(locks := Release(w.locks, w.pending[token].flight), pending := w.pending - {token})
    case Fail(token, at) =>
      var s := w.pending[token];
      var ledger := LedgerAt(w, s.flight.path);
      World(w.ledgers[s.flight.path := AfterReset(ledger, s.selected)],
            Release(w.locks, s.flight), w.pending - {token})
    case Elsewhere(path, op) => w.(ledgers := w.ledgers[path := Apply(LedgerAt(w, path), op)])
    case HandsOver(path, routed, marked, who, via, at) =>
      var ledger := RouteAll(LedgerAt(w, path), routed, who, at);
      w.(ledgers := w.ledgers[path := Apply(ledger, MarkSent(marked, via, at, Some(who)))])
  }

  // ----- locks

  lemma FlightsWith(pending: map<nat, Submission>, k: nat, s: Submission)
    ensures Flights(pending[k := s]) == Flights(pending)[k := s.flight]
    ensures Flights(pending - {k}) == Flights(pending) - {k}
  {
  }

  lemma BeginKeepsLocks(w: World, token: nat, path: string, selected: seq<Annotation>, who: string, context: string,
                        at: string)
    requires LocksInv(w.locks, Flights(w.pending)) && Enabled(w, Submit(token, path, selected, who, context, at))
    ensures var after := Begin(w, token, path, selected, who, context, at);
            LocksInv(after.locks, Flights(after.pending))
  {
    if MayBegin(w, path, selected, context) {
      assert selected[0].id in Ids(selected);
      if HandOverUpTo(LedgerAt(w, path), selected, |selected|, who, ContextOf(context), at).all {
        AcquireKeepsLocks(w.locks, Flights(w.pending), token, path, Ids(selected));
        FlightsWith(w.pending, token, Begin(w, token, path, selected, who, context, at).pending[token]);
      } else {
        RefusedKeepsLocks(w.locks, Flights(w.pending), token, path, Ids(selected));
      }
    }
  }

  lemma StepKeepsLocks(w: World, step: Step)
    requires LocksInv(w.locks, Flights(w.pending)) && Enabled(w, step)
    ensures LocksInv(Next(w, step).locks, Flights(Next(w, step).pending))
  {
    if step.Submit? {
      BeginKeepsLocks(w, step.token, step.path, step.selected, step.who, step.context, step.at);
    } else if step.Finish? || step.Fail? {
      ReleaseKeepsLocks(w.locks, Flights(w.pending), step.token);
      FlightsWith(w.pending, step.token, w.pending[step.token]);
    }
  }

  // ----- hand-overs

  /** What is handed over of a selection under the selected revision was handed over by this submission. */
  ghost predicate OwnHandOvers(ledger: Ledger, s: Submission) {
    ReadEarlier(ledger, s.selected) && s.flight.ids == Ids(s.selected) && s.handed <= Ids(s.selected)
    && forall i :: 0 <= i < |s.selected| && Undelivered(ledger, s.selected[i].id)
                   && ledger[s.selected[i].id].rework == s.selected[i].rework
         ==> s.selected[i].id in s.handed
  }

  ghost predicate HandInv(w: World) {
    forall k :: k in w.pending ==> OwnHandOvers(LedgerAt(w, w.pending[k].flight.path), w.pending[k])
  }

  lemma RouteEffect(a: Annotation, op: Operation)
    requires op.RouteAgent?
    ensures var b := Effect(a, op);
            b.rework == a.rework && b.note == a.note && b.status == Draft && b.agentAssigned && Committed(b)
  {
  }

  lemma RouteTouches(ledger: Ledger, op: Operation)
    requires op.RouteAgent? && op.id in ledger
    ensures var after := Apply(ledger, op);
            && after.Keys == ledger.Keys
            && forall id :: id in ledger ==> after[id].rework == ledger[id].rework && after[id].note == ledger[id].note
                                             && (id != op.id ==> after[id] == ledger[id])
  {
    RouteEffect(ledger[op.id], op);
  }

  lemma NextTouches(before: HandOver, item: Annotation, who: string, context: Option<string>, at: string)
    ensures var given := HandOverNext(before, item, who, context, at);
            && given.ledger.Keys == before.ledger.Keys && before.handed <= given.handed <= before.handed + {item.id}
            && (forall id :: id in before.ledger ==>
                  given.ledger[id].rework == before.ledger[id].rework
                      && given.ledger[id].note == before.ledger[id].note)
            && (forall id :: id in before.ledger && (id != item.id || id !in given.handed) ==>
                  given.ledger[id] == before.ledger[id])
  {
    if item.id in before.ledger {
      RouteTouches(before.ledger, RouteAgent(item.id, who, at, context));
    }
  }

  lemma {:induction false} HandOverTouches(ledger: Ledger, items: seq<Annotation>, n: nat, who: string,
                                           context: Option<string>, at: string)
    requires n <= |items|
    ensures var given := HandOverUpTo(ledger, items, n, who, context, at);
            && given.ledger.Keys == ledger.Keys && given.handed <= Ids(items)
            && (forall id :: id in ledger ==>
                  given.ledger[id].rework == ledger[id].rework && given.ledger[id].note == ledger[id].note)
            && (forall id :: id in ledger && id !in given.handed ==> given.ledger[id] == ledger[id])
  {
    if n > 0 {
      HandOverTouches(ledger, items, n - 1, who, context, at);
      assert items[n - 1].id in Ids(items);
      NextTouches(HandOverUpTo(ledger, items, n - 1, who, context, at), items[n - 1], who, context, at);
    }
  }

  /** A hand-over that nothing stopped has handed over all that waited for it. */
  lemma {:induction false} AllHandedOver(ledger: Ledger, items: seq<Annotation>, n: nat, who: string,
                                         context: Option<string>, at: string, i: nat)
    requires i < n <= |items| && MayHandOver(items[i]) && HandOverUpTo(ledger, items, n, who, context, at).all
    ensures items[i].id in HandOverUpTo(ledger, items, n, who, context, at).handed
  {
    if i < n - 1 {
      AllHandedOver(ledger, items, n - 1, who, context, at, i);
    }
  }

  lemma {:induction false} EachHandedOver(ledger: Ledger, items: seq<Annotation>, who: string, context: Option<string>,
                                          at: string)
    ensures var given := HandOverUpTo(ledger, items, |items|, who, context, at);
            given.all ==> forall i :: 0 <= i < |items| && MayHandOver(items[i]) ==> items[i].id in given.handed
  {
    var given := HandOverUpTo(ledger, items, |items|, who, context, at);
    if given.all {
      forall i | 0 <= i < |items| && MayHandOver(items[i]) ensures items[i].id in given.handed {
        AllHandedOver(ledger, items, |items|, who, context, at, i);
      }
    }
  }

  // ----- what others do meanwhile

  /** Records stay, revisions never fall, and no hand-over of an unchanged revision is left without a delivery. */
  predicate OnlyElsewhere(before: Ledger, after: Ledger) {
    before.Keys <= after.Keys && forall id :: id in after ==>
      && (id in before ==> before[id].rework <= after[id].rework)
      && (Undelivered(after, id) ==> id in before && (before[id].rework < after[id].rework || Undelivered(before, id)))
  }

  /** No operation but a hand-over leaves an annotation handed over that was not, under the same revision. */
  lemma OperationOpensNoHandOver(a: Annotation, op: Operation)
    requires !op.RouteAgent? && !op.Add?
    ensures var b := Effect(a, op);
            a.rework <= b.rework
            && (b.status == Draft && b.agentAssigned ==> a.rework < b.rework || (a.status == Draft && a.agentAssigned))
  {
  }

  lemma OrdinaryIsElsewhere(ledger: Ledger, op: Operation)
    requires Ordinary(ledger, op)
    ensures OnlyElsewhere(ledger, Apply(ledger, op))
  {
    var after := Apply(ledger, op);
    if !op.Add? {
      forall id | id in after
        ensures ledger[id].rework <= after[id].rework
        ensures Undelivered(after, id) ==> ledger[id].rework < after[id].rework || Undelivered(ledger, id)
      {
        OperationOpensNoHandOver(ledger[id], op);
      }
    }
  }

  lemma {:induction false} RouteAllTouches(ledger: Ledger, ids: seq<string>, who: string, at: string, id: string)
    requires id in ledger
    ensures var after := RouteAll(ledger, ids, who, at);
            && after.Keys == ledger.Keys && after[id].rework == ledger[id].rework
            && after[id].resolution == ledger[id].resolution && (id !in ids ==> after[id] == ledger[id])
  {
    if ids != [] {
      var n := |ids| - 1;
      RouteAllTouches(ledger, ids[..n], who, at, id);
      assert id in ids[..n] ==> id in ids;
    }
  }

  lemma {:induction false} HandsOverIsElsewhere(ledger: Ledger, routed: seq<string>, marked: seq<string>, who: string,
                                                via: SentVia, at: string)
    requires MayHandOverAll(ledger, routed, marked)
    ensures OnlyElsewhere(ledger, Apply(RouteAll(ledger, routed, who, at), MarkSent(marked, via, at, Some(who))))
  {
    var after := Apply(RouteAll(ledger, routed, who, at), MarkSent(marked, via, at, Some(who)));
    RouteAllKeys(ledger, routed, who, at);
    forall id | id in ledger
      ensures ledger[id].rework <= after[id].rework && (Undelivered(after, id) ==> Undelivered(ledger, id))
    {
      HandsOverAt(ledger, routed, marked, who, via, at, id);
    }
  }

  lemma {:induction false} HandsOverAt(ledger: Ledger, routed: seq<string>, marked: seq<string>, who: string,
                                       via: SentVia, at: string, id: string)
    requires MayHandOverAll(ledger, routed, marked) && id in ledger
    ensures var after := Apply(RouteAll(ledger, routed, who, at), MarkSent(marked, via, at, Some(who)));
            id in after && ledger[id].rework <= after[id].rework && (Undelivered(after, id) ==> Undelivered(ledger, id))
  {
    RouteAllTouches(ledger, routed, who, at, id);
  }

  lemma {:induction false} RouteAllKeys(ledger: Ledger, ids: seq<string>, who: string, at: string)
    ensures RouteAll(ledger, ids, who, at).Keys == ledger.Keys
  {
    if ids != [] {
      RouteAllKeys(ledger, ids[..|ids| - 1], who, at);
    }
  }

  // ----- hand-overs over the steps

  /** What was handed over waits for delivery with its text committed. */
  lemma {:induction false} HandedOverIsCommitted(ledger: Ledger, items: seq<Annotation>, n: nat, who: string,
                                                 context: Option<string>, at: string, id: string)
    requires n <= |items| && id in HandOverUpTo(ledger, items, n, who, context, at).handed
    ensures var after := HandOverUpTo(ledger, items, n, who, context, at).ledger;
            Undelivered(after, id) && Committed(after[id])
  {
    var before := HandOverUpTo(ledger, items, n - 1, who, context, at);
    if id in before.handed {
      HandedOverIsCommitted(ledger, items, n - 1, who, context, at, id);
    }
    if id == items[n - 1].id && id in before.ledger {
      RouteEffect(before.ledger[id], RouteAgent(id, who, at, context));
    }
  }

  /** A ledger that changed only outside the selection, or in ways that open no hand-over, keeps the property. */
  lemma KeepsOwnHandOvers(before: Ledger, after: Ledger, s: Submission)
    requires OwnHandOvers(before, s) && before.Keys <= after.Keys
    requires forall id :: id in Ids(s.selected) && id in before ==>
               before[id].rework <= after[id].rework
               && (Undelivered(after, id) ==> before[id].rework < after[id].rework || Undelivered(before, id))
    ensures OwnHandOvers(after, s)
  {
  }

  /** Submissions in flight for the same ledger hold other ids than the ones being submitted. */
  lemma OthersHoldOtherIds(w: World, path: string, ids: set<string>)
    requires LocksInv(w.locks, Flights(w.pending)) && ids !! Active(w.locks, path)
    ensures forall k :: k in w.pending && w.pending[k].flight.path == path ==> ids !! w.pending[k].flight.ids
  {
    forall k | k in w.pending && w.pending[k].flight.path == path ensures ids !! w.pending[k].flight.ids {
      assert k in Flights(w.pending) && Flights(w.pending)[k] == w.pending[k].flight;
    }
  }

  /** A ledger that changed only at the given ids is, for a submission without them, unchanged. */
  lemma UntouchedKeepsOwn(before: Ledger, after: Ledger, ids: set<string>, s: Submission)
    requires OwnHandOvers(before, s) && after.Keys == before.Keys && ids !! s.flight.ids
    requires forall id :: id in before && id !in ids ==> after[id] == before[id]
    ensures OwnHandOvers(after, s)
  {
    KeepsOwnHandOvers(before, after, s);
  }

  lemma ResetAtId(ledger: Ledger, items: seq<Annotation>, id: string)
    requires id in ledger
    ensures var after := AfterReset(ledger, items);
            && after.Keys == ledger.Keys
            && (after[id] != ledger[id] <==> id in OpenIds(ledger, items))
            && (id in OpenIds(ledger, items) ==> !after[id].agentAssigned)
  {
    ResetChanges(ledger, items);
    OpeningsNamed(ledger, items, id);
  }

  lemma SameOpenIds(a: Ledger, b: Ledger, items: seq<Annotation>, id: string)
    requires id in a && id in b && a[id] == b[id]
    ensures id in OpenIds(a, items) <==> id in OpenIds(b, items)
  {
    forall i | 0 <= i < |items| && items[i].id == id ensures OpenHandOver(a, items[i]) <==> OpenHandOver(b, items[i]) {}
  }

  /** Both outcomes of beginning change the ledger only at the selected ids. */
  lemma {:induction false} BeginTouches(ledger: Ledger, selected: seq<Annotation>, who: string, context: Option<string>,
                                        at: string)
    ensures var given := HandOverUpTo(ledger, selected, |selected|, who, context, at);
            var reset := AfterReset(given.ledger, selected);
            && given.ledger.Keys == ledger.Keys == reset.Keys
            && forall id :: id in ledger && id !in Ids(selected) ==>
                  given.ledger[id] == ledger[id] && reset[id] == ledger[id]
  {
    var given := HandOverUpTo(ledger, selected, |selected|, who, context, at);
    HandOverTouches(ledger, selected, |selected|, who, context, at);
    forall id | id in ledger && id !in Ids(selected) ensures AfterReset(given.ledger, selected)[id] == ledger[id] {
      ResetAtId(given.ledger, selected, id);
    }
  }

  lemma {:induction false} BegunOwnsHandOvers(ledger: Ledger, flight: Flight, selected: seq<Annotation>, who: string,
                                              context: Option<string>, at: string)
    requires ReadEarlier(ledger, selected) && StillClosed(ledger, selected) && flight.ids == Ids(selected)
    ensures var given := HandOverUpTo(ledger, selected, |selected|, who, context, at);
            given.all ==>
              OwnHandOvers(given.ledger, Submission(flight, selected, CurrentOf(given.ledger, selected), given.handed))
  {
    HandOverTouches(ledger, selected, |selected|, who, context, at);
    EachHandedOver(ledger, selected, who, context, at);
  }

  /** Submissions already in flight keep their property when the ledger becomes what beginning made of it. */
  lemma {:induction false} OthersKeepOwn(w: World, path: string, selected: seq<Annotation>, who: string,
                                         context: Option<string>, at: string,
                      after: Ledger)
    requires HandInv(w)
    requires forall k :: k in w.pending && w.pending[k].flight.path == path ==> Ids(selected) !! w.pending[k].flight.ids
    requires var given := HandOverUpTo(LedgerAt(w, path), selected, |selected|, who, context, at);
             after == given.ledger || after == AfterReset(given.ledger, selected)
    ensures HandInv(w.(ledgers := w.ledgers[path := after]))
  {
    BeginTouches(LedgerAt(w, path), selected, who, context, at);
    forall k | k in w.pending && w.pending[k].flight.path == path ensures OwnHandOvers(after, w.pending[k]) {
      UntouchedKeepsOwn(LedgerAt(w, path), after, Ids(selected), w.pending[k]);
    }
  }

  lemma OneMoreOwn(w: World, locks: LockTable, token: nat, s: Submission)
    requires HandInv(w) && OwnHandOvers(LedgerAt(w, s.flight.path), s)
    ensures HandInv(World(w.ledgers, locks, w.pending[token := s]))
  {
  }

  lemma BeginKeepsHandInv(w: World, token: nat, path: string, selected: seq<Annotation>, who: string, context: string,
                          at: string)
    requires LocksInv(w.locks, Flights(w.pending)) && HandInv(w)
    requires Enabled(w, Submit(token, path, selected, who, context, at))
    ensures HandInv(Begin(w, token, path, selected, who, context, at))
  {
    if MayBegin(w, path, selected, context) {
      var ledger := LedgerAt(w, path);
      var given := HandOverUpTo(ledger, selected, |selected|, who, ContextOf(context), at);
      var after := Begin(w, token, path, selected, who, context, at);
      OthersHoldOtherIds(w, path, Ids(selected));
      OthersKeepOwn(w, path, selected, who, ContextOf(context), at, LedgerAt(after, path));
      if given.all {
        BegunOwnsHandOvers(ledger, FlightOf(w, path, selected), selected, who, ContextOf(context), at);
        OneMoreOwn(w.(ledgers := w.ledgers[path := given.ledger]), after.locks, token, after.pending[token]);
      }
    }
  }

  lemma StepKeepsOne(w: World, step: Step, k: nat)
    requires HandInv(w) && Enabled(w, step) && !step.Submit? && k in Next(w, step).pending
    ensures Next(w, step).pending[k] == w.pending[k]
    ensures OwnHandOvers(LedgerAt(Next(w, step), w.pending[k].flight.path), w.pending[k])
  {
    var path := w.pending[k].flight.path;
    StepIsElsewhere(w, step, path);
    KeepsOwnHandOvers(LedgerAt(w, path), LedgerAt(Next(w, step), path), w.pending[k]);
  }

  /** For a submission that stays in flight every other step is one of those. */
  lemma StepIsElsewhere(w: World, step: Step, path: string)
    requires Enabled(w, step) && !step.Submit?
    ensures OnlyElsewhere(LedgerAt(w, path), LedgerAt(Next(w, step), path))
  {
    match step
    case Elsewhere(p, op) => OrdinaryIsElsewhere(LedgerAt(w, p), op);
    case HandsOver(p, routed, marked, who, via, at) =>
      HandsOverIsElsewhere(LedgerAt(w, p), routed, marked, who, via, at);
    case Deliver(token, batch, via, signed, at) =>
      var ledger := LedgerAt(w, w.pending[token].flight.path);
      MarkIsElsewhere(ledger, DeliverableIds(ledger, batch), via, signed, at);
    case Fail(token, _) =>
      ResetIsElsewhere(LedgerAt(w, w.pending[token].flight.path), w.pending[token].selected);
    case Finish(_) =>
  }

  lemma MarkIsElsewhere(ledger: Ledger, ids: set<string>, via: SentVia, who: Option<string>, at: string)
    ensures OnlyElsewhere(ledger, AfterMark(ledger, ids, via, who, at))
  {
  }

  lemma ResetIsElsewhere(ledger: Ledger, items: seq<Annotation>)
    ensures OnlyElsewhere(ledger, AfterReset(ledger, items))
  {
  }

  lemma StepKeepsHandInv(w: World, step: Step)
    requires LocksInv(w.locks, Flights(w.pending)) && HandInv(w) && Enabled(w, step)
    ensures HandInv(Next(w, step))
  {
    if step.Submit? {
      BeginKeepsHandInv(w, step.token, step.path, step.selected, step.who, step.context, step.at);
    } else {
      var after := Next(w, step);
      forall k | k in after.pending
        ensures OwnHandOvers(LedgerAt(after, after.pending[k].flight.path), after.pending[k])
      {
        StepKeepsOne(w, step, k);
      }
    }
  }

  // ----- whole runs

  ghost predicate Inv(w: World) {
    LocksInv(w.locks, Flights(w.pending)) && HandInv(w)
  }

  ghost predicate Execution(w: World, steps: seq<Step>, last: World)
    decreases |steps|
  {
    if steps == [] then w == last
    else Enabled(w, steps[0]) && Execution(Next(w, steps[0]), steps[1..], last)
  }

  lemma {:induction false} ExecutionKeepsInv(w: World, steps: seq<Step>, last: World)
    requires Inv(w) && Execution(w, steps, last)
    ensures Inv(last)
    decreases |steps|
  {
    if steps != [] {
      StepKeepsLocks(w, steps[0]);
      StepKeepsHandInv(w, steps[0]);
      ExecutionKeepsInv(Next(w, steps[0]), steps[1..], last);
    }
  }

  lemma SelectionsDisjoint(w: World)
    requires Inv(w)
    ensures forall k, m :: k in w.pending && m in w.pending && k != m
                           && w.pending[k].flight.path == w.pending[m].flight.path ==>
              Ids(w.pending[k].selected) !! Ids(w.pending[m].selected)
  {
    forall k, m | k in w.pending && m in w.pending && k != m && w.pending[k].flight.path == w.pending[m].flight.path
      ensures Ids(w.pending[k].selected) !! Ids(w.pending[m].selected)
    {
      assert k in Flights(w.pending) && m in Flights(w.pending);
      assert Flights(w.pending)[k].ids !! Flights(w.pending)[m].ids;
    }
  }

  /** From nothing in flight: ids in flight never overlap, and once nothing is in flight the table is empty again. */
  lemma {:induction false} LocksOverRuns(ledgers: map<string, Ledger>, steps: seq<Step>, last: World)
    requires Execution(World(ledgers, LockTable(map[], map[], 0), map[]), steps, last)
    ensures forall k, m :: k in last.pending && m in last.pending && k != m
                           && last.pending[k].flight.path == last.pending[m].flight.path ==>
              Ids(last.pending[k].selected) !! Ids(last.pending[m].selected)
    ensures last.pending == map[] ==> last.locks.table == map[]
  {
    assert Flights(map[]) == map[];
    ExecutionKeepsInv(World(ledgers, LockTable(map[], map[], 0), map[]), steps, last);
    SelectionsDisjoint(last);
    EmptyAtRest(last);
  }

  /** A delivery is recorded only for the text and revision of the snapshot it delivers. */
  lemma DeliveryMarksItsSnapshot(w: World, token: nat, batch: seq<Annotation>, via: SentVia, signed: Option<string>,
                                 at: string, id: string)
    requires Enabled(w, Deliver(token, batch, via, signed, at))
    requires var path := w.pending[token].flight.path;
             id in LedgerAt(w, path)
             && LedgerAt(Next(w, Deliver(token, batch, via, signed, at)), path)[id] != LedgerAt(w, path)[id]
    ensures var path := w.pending[token].flight.path;
            var now := LedgerAt(Next(w, Deliver(token, batch, via, signed, at)), path)[id];
            && now.status == Sent && now.sentVia == Some(via)
            && exists i :: 0 <= i < |batch| && batch[i] in w.pending[token].snapshot
                           && batch[i].id == id && batch[i].rework == now.rework && batch[i].note == now.note
  {
  }

  /** A failed delivery takes back exactly the hand-overs of its selection whose text is unchanged and that
      were not delivered, and all of these are its own. */
  lemma {:induction false} FailureTakesBackItsOwn(w: World, token: nat, at: string, id: string)
    requires HandInv(w) && Enabled(w, Fail(token, at))
    requires id in LedgerAt(w, w.pending[token].flight.path)
    ensures var s := w.pending[token];
            var before := LedgerAt(w, s.flight.path);
            var after := Next(w, Fail(token, at)).ledgers[s.flight.path];
            && after.Keys == before.Keys
            && (after[id] != before[id] <==> id in OpenIds(before, s.selected))
            && (after[id] != before[id] ==>
                  after[id] == TakenBack(before[id], Openings(before, s.selected, id)) && id in s.handed)
  {
    ResetAt(LedgerAt(w, w.pending[token].flight.path), w.pending[token], id);
  }

  lemma {:induction false} ResetAt(before: Ledger, s: Submission, id: string)
    requires OwnHandOvers(before, s) && id in before
    ensures var after := AfterReset(before, s.selected);
            && (after[id] != before[id] <==> id in OpenIds(before, s.selected))
            && (after[id] != before[id] ==>
                  after[id] == TakenBack(before[id], Openings(before, s.selected, id)) && id in s.handed)
  {
    ResetChanges(before, s.selected);
  }

  /** Of what it did not hand over itself, a submission refused half-way takes back exactly what was already
      handed over with the very text that was selected. */
  lemma {:induction false} RefusalTakesBack(w: World, token: nat, path: string, selected: seq<Annotation>, who: string,
                                            context: string, at: string, id: string)
    requires Enabled(w, Submit(token, path, selected, who, context, at)) && MayBegin(w, path, selected, context)
    requires var given := HandOverUpTo(LedgerAt(w, path), selected, |selected|, who, ContextOf(context), at);
             !given.all && id in LedgerAt(w, path) && id !in given.handed
    ensures var after := LedgerAt(Begin(w, token, path, selected, who, context, at), path);
            id in after && (after[id] != LedgerAt(w, path)[id] <==> id in OpenIds(LedgerAt(w, path), selected))
  {
    HandOverTouches(LedgerAt(w, path), selected, |selected|, who, ContextOf(context), at);
    var given := HandOverUpTo(LedgerAt(w, path), selected, |selected|, who, ContextOf(context), at);
    assert given.ledger[id] == LedgerAt(w, path)[id];
    SameOpenIds(given.ledger, LedgerAt(w, path), selected, id);
    ResetAtId(given.ledger, selected, id);
  }

  /** Of what it did hand over, a refused submission leaves exactly that handed over whose text is not the
      selected one: handing over does not compare texts, taking back does. */
  lemma {:induction false} RefusalLeavesStale(w: World, token: nat, path: string, selected: seq<Annotation>,
                                              who: string,
                                              context: string, at: string, id: string)
    requires Enabled(w, Submit(token, path, selected, who, context, at)) && MayBegin(w, path, selected, context)
    requires var given := HandOverUpTo(LedgerAt(w, path), selected, |selected|, who, ContextOf(context), at);
             !given.all && id in given.handed
    ensures var after := LedgerAt(Begin(w, token, path, selected, who, context, at), path);
            Undelivered(after, id) <==>
              forall i :: 0 <= i < |selected| && selected[i].id == id ==> !SameText(LedgerAt(w, path), selected[i])
  {
    var ledger := LedgerAt(w, path);
    var given := HandOverUpTo(ledger, selected, |selected|, who, ContextOf(context), at);
    HandOverTouches(ledger, selected, |selected|, who, ContextOf(context), at);
    HandedOverIsCommitted(ledger, selected, |selected|, who, ContextOf(context), at, id);
    forall i | 0 <= i < |selected| && selected[i].id == id
      ensures OpenHandOver(given.ledger, selected[i]) <==> SameText(ledger, selected[i])
    {
    }
    ResetAtId(given.ledger, selected, id);
  }

  // ----- a refusal that takes back someone else's hand-over

  function Sample(id: string, status: Status, handedOver: bool): Annotation {
    Annotation(id, "a", "n", None, false, None, None, status, None, None, None, None, None, handedOver, None,
               None, None, None, if handedOver then Some(true) else None, None, 0, 0, None, [], [])
  }

  /** A selection whose first annotation was closed meanwhile is refused before its second is handed over,
      yet the second, handed over earlier by someone else, is taken back. */
  lemma RefusalCanTakeBackAnothers()
    ensures var ledger := map["x" := Sample("x", Verified, false), "y" := Sample("y", Draft, true)];
            var w := World(map["p" := ledger], LockTable(map[], map[], 0), map[]);
            var selected := [Sample("x", Draft, false), Sample("y", Draft, true)];
            && Enabled(w, Submit(0, "p", selected, "b", "", "t")) && MayBegin(w, "p", selected, "")
            && HandOverUpTo(ledger, selected, 2, "b", None, "t").handed == {}
            && LedgerAt(Begin(w, 0, "p", selected, "b", "", "t"), "p")["y"] == TakenBack(ledger["y"], 1)
  {
    var ledger := map["x" := Sample("x", Verified, false), "y" := Sample("y", Draft, true)];
    var selected := [Sample("x", Draft, false), Sample("y", Draft, true)];
    assert Trim("") == "";
    assert HandOverUpTo(ledger, selected, 0, "b", None, "t") == HandOver(ledger, true, {});
    assert HandOverUpTo(ledger, selected, 1, "b", None, "t") == HandOver(ledger, false, {});
    assert HandOverUpTo(ledger, selected, 2, "b", None, "t") == HandOver(ledger, false, {});
    assert OpenHandOver(ledger, selected[1]) && !OpenHandOver(ledger, selected[0]);
    assert Openings(ledger, selected[..0], "y") == 0;
    assert selected[..2] == selected && selected[..2][..1] == selected[..1] && selected[..1][..0] == selected[..0];
    assert Openings(ledger, selected[..1], "y") == 0 && Openings(ledger, selected, "y") == 1;
  }

  function StaleLedger(): Ledger {
    map["x" := Sample("x", Draft, false).(note := "new"), "y" := Sample("y", Verified, false)]
  }

  function StaleSelection(): seq<Annotation> {
    [Sample("x", Draft, false), Sample("y", Draft, false)]
  }

  lemma StaleHandOver()
    ensures var given := HandOverUpTo(StaleLedger(), StaleSelection(), 2, "b", None, "t");
            !given.all && given.handed == {"x"}
  {
    var ledger, selected := StaleLedger(), StaleSelection();
    var first := HandOverUpTo(ledger, selected, 1, "b", None, "t");
    assert HandOverUpTo(ledger, selected, 0, "b", None, "t") == HandOver(ledger, true, {});
    assert first.all && first.handed == {"x"} && first.ledger["y"] == ledger["y"];
    assert HandOverUpTo(ledger, selected, 2, "b", None, "t") == first.(all := false);
  }

  function StaleWorld(): World {
    World(map["p" := StaleLedger()], LockTable(map[], map[], 0), map[])
  }

  lemma StaleMayBegin()
    ensures Enabled(StaleWorld(), Submit(0, "p", StaleSelection(), "b", "", "t"))
    ensures MayBegin(StaleWorld(), "p", StaleSelection(), "") && LedgerAt(StaleWorld(), "p") == StaleLedger()
  {
    assert Trim("") == "";
  }

  lemma StaleTexts()
    ensures forall i :: 0 <= i < |StaleSelection()| && StaleSelection()[i].id == "x" ==>
              !SameText(StaleLedger(), StaleSelection()[i])
  {
    assert StaleLedger()["x"].note == "new" && StaleSelection()[0].note == "n";
  }

  /** A selection read before its first note was edited, whose second annotation was closed meanwhile, is
      refused, yet its first annotation stays handed over. */
  lemma RefusalCanLeaveAHandOver()
    ensures var w := StaleWorld();
            && Enabled(w, Submit(0, "p", StaleSelection(), "b", "", "t")) && MayBegin(w, "p", StaleSelection(), "")
            && !HandOverUpTo(StaleLedger(), StaleSelection(), 2, "b", None, "t").all
            && Undelivered(LedgerAt(Begin(w, 0, "p", StaleSelection(), "b", "", "t"), "p"), "x")
  {
    StaleMayBegin();
    StaleHandOver();
    StaleTexts();
    RefusalLeavesStale(StaleWorld(), 0, "p", StaleSelection(), "b", "", "t", "x");
  }

  // ----- what a submission records

  function HandedOver(a: Annotation, who: string, context: Option<string>, at: string): Annotation {
    Effect(a, RouteAgent(a.id, who, at, context))
  }

  lemma HandedOverAgain(a: Annotation, who: string, context: Option<string>, at: string, id: string)
    ensures Effect(a, RouteAgent(id, who, at, context)) == HandedOver(a, who, context, at)
    ensures HandedOver(HandedOver(a, who, context, at), who, context, at) == HandedOver(a, who, context, at)
    ensures MayHandOver(HandedOver(a, who, context, at))
  {
  }

  /** Which of the first `n` were handed over, and what that made of the ledger. */
  ghost predicate Given(ledger: Ledger, items: seq<Annotation>, n: nat, who: string, context: Option<string>,
                        at: string, given: HandOver)
    requires n <= |items|
  {
    GivenLedger(ledger, who, context, at, given) && GivenItems(ledger, items, n, given)
  }

  ghost predicate GivenLedger(ledger: Ledger, who: string, context: Option<string>, at: string, given: HandOver) {
    && given.ledger.Keys == ledger.Keys
    && (forall id :: id in given.handed ==> id in ledger && MayHandOver(ledger[id]))
    && forall id :: id in ledger ==>
         given.ledger[id] == if id in given.handed then HandedOver(ledger[id], who, context, at) else ledger[id]
  }

  ghost predicate GivenItems(ledger: Ledger, items: seq<Annotation>, n: nat, given: HandOver)
    requires n <= |items|
  {
    && (given.all <==> StillWaits(ledger, items[..n]))
    && (given.all ==> forall id :: id in given.handed <==> Waits(items, n, id))
  }

  ghost predicate Waits(items: seq<Annotation>, n: nat, id: string)
    requires n <= |items|
  {
    exists i :: 0 <= i < n && items[i].id == id && MayHandOver(items[i])
  }

  lemma WaitsNext(items: seq<Annotation>, n: nat, id: string)
    requires n < |items|
    ensures Waits(items, n + 1, id) <==> Waits(items, n, id) || (id == items[n].id && MayHandOver(items[n]))
  {
    if Waits(items, n, id) {
      var i :| 0 <= i < n && items[i].id == id && MayHandOver(items[i]);
    }
  }

  lemma {:induction false} LedgerNext(ledger: Ledger, item: Annotation, who: string, context: Option<string>,
                                      at: string, before: HandOver)
    requires GivenLedger(ledger, who, context, at, before)
    ensures GivenLedger(ledger, who, context, at, HandOverNext(before, item, who, context, at))
    ensures item.id in ledger ==> (MayHandOver(before.ledger[item.id]) <==> MayHandOver(ledger[item.id]))
  {
    if item.id in ledger {
      HandedOverAgain(ledger[item.id], who, context, at, item.id);
      HandedOverAgain(before.ledger[item.id], who, context, at, item.id);
    }
  }

  lemma {:induction false} ItemsNext(ledger: Ledger, items: seq<Annotation>, n: nat, who: string,
                                     context: Option<string>, at: string, before: HandOver)
    requires n < |items| && GivenItems(ledger, items, n, before) && before.ledger.Keys == ledger.Keys
    requires items[n].id in ledger ==> (MayHandOver(before.ledger[items[n].id]) <==> MayHandOver(ledger[items[n].id]))
    ensures GivenItems(ledger, items, n + 1, HandOverNext(before, items[n], who, context, at))
  {
    assert items[..n + 1] == items[..n] + [items[n]];
    forall id ensures Waits(items, n + 1, id) <==>
                      Waits(items, n, id) || (id == items[n].id && MayHandOver(items[n])) {
      WaitsNext(items, n, id);
    }
  }

  lemma GivenNone(ledger: Ledger, items: seq<Annotation>, who: string, context: Option<string>, at: string)
    ensures Given(ledger, items, 0, who, context, at, HandOver(ledger, true, {}))
  {
  }

  lemma {:induction false} GivenIs(ledger: Ledger, items: seq<Annotation>, n: nat, who: string,
                                   context: Option<string>, at: string)
    requires n <= |items|
    ensures Given(ledger, items, n, who, context, at, HandOverUpTo(ledger, items, n, who, context, at))
  {
    if n == 0 {
      GivenNone(ledger, items, who, context, at);
    } else {
      GivenIs(ledger, items, n - 1, who, context, at);
      var before := HandOverUpTo(ledger, items, n - 1, who, context, at);
      LedgerNext(ledger, items[n - 1], who, context, at, before);
      ItemsNext(ledger, items, n - 1, who, context, at, before);
    }
  }

  lemma {:induction false} CurrentOfAll(ledger: Ledger, items: seq<Annotation>)
    requires forall i :: 0 <= i < |items| ==> items[i].id in ledger
    ensures |CurrentOf(ledger, items)| == |items|
    ensures forall i :: 0 <= i < |items| ==> CurrentOf(ledger, items)[i] == ledger[items[i].id]
  {
    if items != [] {
      CurrentOfAll(ledger, items[1..]);
    }
  }

  /** None of the ids is being submitted from the same ledger. */
  ghost predicate Free(w: World, path: string, ids: set<string>) {
    forall k :: k in w.pending && w.pending[k].flight.path == path ==> w.pending[k].flight.ids !! ids
  }

  lemma FreeIsUnlocked(w: World, path: string, ids: set<string>)
    requires LocksInv(w.locks, Flights(w.pending))
    ensures Free(w, path, ids) <==> ids !! Active(w.locks, path)
  {
    if Free(w, path, ids) {
      forall id | id in ids ensures id !in Active(w.locks, path) {
        FreeIsNotHeld(w, path, ids, id);
      }
    }
    if ids !! Active(w.locks, path) {
      forall k | k in w.pending && w.pending[k].flight.path == path ensures w.pending[k].flight.ids !! ids {
        assert Flights(w.pending)[k].ids <= Active(w.locks, path);
      }
    }
  }

  lemma FreeIsNotHeld(w: World, path: string, ids: set<string>, id: string)
    requires AllHeld(w.locks, Flights(w.pending)) && Free(w, path, ids) && id in ids
    ensures id !in Active(w.locks, path)
  {
  }

  ghost predicate Begun(before: Ledger, after: Ledger, s: Submission, path: string, selected: seq<Annotation>,
                        who: string, context: string, at: string) {
    && s.flight.path == path && s.flight.ids == Ids(selected) && s.selected == selected
    && after.Keys == before.Keys
    && (forall id :: id in before ==>
          after[id] == if Waits(selected, |selected|, id)
                       then HandedOver(before[id], who, if Blank(context) then None else Some(Trim(context)), at)
                       else before[id])
    && (forall id :: id in s.handed <==> Waits(selected, |selected|, id))
    && |s.snapshot| == |selected|
    && forall i :: 0 <= i < |selected| ==> selected[i].id in after && s.snapshot[i] == after[selected[i].id]
  }

  /** A submission begins exactly if its context is short enough, nothing of it is being submitted already, and all
      that waited for a hand-over when it was selected still waits. Then just these are handed over, with the context
      if there is one, and the snapshot is what the ledger then holds of the selection. */
  lemma {:induction false} SubmissionBegins(w: World, token: nat, path: string, selected: seq<Annotation>, who: string,
                                            context: string, at: string)
    requires Inv(w) && Enabled(w, Submit(token, path, selected, who, context, at))
    ensures var after := Next(w, Submit(token, path, selected, who, context, at));
            var free := |Trim(context)| <= 4000 && Free(w, path, Ids(selected));
            && (token in after.pending <==> free && StillWaits(LedgerAt(w, path), selected))
            && (!free ==> after == w)
            && (token in after.pending ==>
                  Begun(LedgerAt(w, path), LedgerAt(after, path), after.pending[token], path, selected, who, context,
                        at))
  {
    FreeIsUnlocked(w, path, Ids(selected));
    BegunIs(LedgerAt(w, path), FlightOf(w, path, selected), path, selected, who, context, at);
    BeginIs(w, token, path, selected, who, context, at);
  }

  lemma {:induction false} BeginIs(w: World, token: nat, path: string, selected: seq<Annotation>, who: string,
                                   context: string, at: string)
    requires token !in w.pending
    ensures var after := Begin(w, token, path, selected, who, context, at);
            var given := HandOverUpTo(LedgerAt(w, path), selected, |selected|, who, ContextOf(context), at);
            && (token in after.pending <==> MayBegin(w, path, selected, context) && given.all)
            && (!MayBegin(w, path, selected, context) ==> after == w)
            && (token in after.pending ==>
                  && LedgerAt(after, path) == given.ledger
                  && after.pending[token] == Submission(FlightOf(w, path, selected), selected,
                                                        CurrentOf(given.ledger, selected), given.handed))
  {
  }

  /** Other submissions and the ledgers of other paths are left alone by the begin and the end of one. */
  lemma SubmissionsApart(w: World, step: Step)
    requires Enabled(w, step) && (step.Submit? || step.Finish? || step.Fail?)
    ensures var after := Next(w, step);
            && (forall k :: k != step.token ==> (k in after.pending <==> k in w.pending))
            && (forall k :: k != step.token && k in w.pending ==> after.pending[k] == w.pending[k])
            && (step.Submit? ==> forall p :: p != step.path ==> LedgerAt(after, p) == LedgerAt(w, p))
            && (step.Finish? ==> after.ledgers == w.ledgers)
            && (!step.Submit? ==> step.token !in after.pending
                                  && forall p :: p != w.pending[step.token].flight.path ==>
                                       LedgerAt(after, p) == LedgerAt(w, p))
  {
  }

  /** What waited when it was selected waits now. */
  ghost predicate StillWaits(ledger: Ledger, selected: seq<Annotation>) {
    forall i :: 0 <= i < |selected| && MayHandOver(selected[i]) ==>
      selected[i].id in ledger && MayHandOver(ledger[selected[i].id])
  }

  lemma {:induction false} BegunIs(ledger: Ledger, flight: Flight, path: string, selected: seq<Annotation>, who: string,
                                   context: string, at: string)
    requires flight.path == path && flight.ids == Ids(selected) && ReadEarlier(ledger, selected)
    ensures var given := HandOverUpTo(ledger, selected, |selected|, who, ContextOf(context), at);
            && (given.all <==> StillWaits(ledger, selected))
            && (given.all ==>
                  Begun(ledger, given.ledger,
                        Submission(flight, selected, CurrentOf(given.ledger, selected), given.handed), path, selected,
                        who, context, at))
  {
    var given := HandOverUpTo(ledger, selected, |selected|, who, ContextOf(context), at);
    GivenIs(ledger, selected, |selected|, who, ContextOf(context), at);
    assert selected[..|selected|] == selected;
    if given.all {
      CurrentOfAll(given.ledger, selected);
    }
  }

  /** The snapshot item can still be delivered: same text and revision, not resolved, neither verified nor dropped. */
  ghost predicate Current(ledger: Ledger, batch: seq<Annotation>, id: string) {
    id in ledger && ledger[id].resolution.None? && (ledger[id].status == Draft || ledger[id].status == Sent)
    && exists i :: 0 <= i < |batch| && batch[i].id == id && batch[i].note == ledger[id].note
                   && batch[i].rework == ledger[id].rework
  }

  /** A delivery marks exactly those of its batch that are still current, and nothing else. */
  lemma DeliveryMarksExactly(w: World, token: nat, batch: seq<Annotation>, via: SentVia, signed: Option<string>,
                             at: string)
    requires Enabled(w, Deliver(token, batch, via, signed, at))
    ensures var path := w.pending[token].flight.path;
            var ledger := LedgerAt(w, path);
            var after := Next(w, Deliver(token, batch, via, signed, at));
            && after.pending == w.pending && after.locks == w.locks
            && (forall p :: p != path ==> LedgerAt(after, p) == LedgerAt(w, p))
            && LedgerAt(after, path).Keys == ledger.Keys
            && forall id :: id in ledger ==>
                 LedgerAt(after, path)[id]
                 == if Current(ledger, batch, id) then Effect(ledger[id], MarkSent([id], via, at, signed))
                    else ledger[id]
  {
    var path := w.pending[token].flight.path;
    var ledger := LedgerAt(w, path);
    forall id | id in ledger ensures id in DeliverableIds(ledger, batch) <==> Current(ledger, batch, id) {
      if Current(ledger, batch, id) {
        var i :| 0 <= i < |batch| && batch[i].id == id && batch[i].note == ledger[id].note
                 && batch[i].rework == ledger[id].rework;
        assert StillDeliverable(ledger, batch[i]);
      }
    }
  }

  // ----- the shared table and the ledgers, changed in place

  lemma StepKeepsInv(w: World, step: Step)
    requires Inv(w) && Enabled(w, step)
    ensures Inv(Next(w, step)) && (Next(w, step).pending == map[] ==> Next(w, step).locks.table == map[])
  {
    StepKeepsLocks(w, step);
    StepKeepsHandInv(w, step);
    EmptyAtRest(Next(w, step));
  }

  lemma EmptyAtRest(w: World)
    requires Inv(w)
    ensures w.pending == map[] ==> w.locks.table == map[]
  {
    if w.pending == map[] {
      assert Flights(w.pending) == map[];
      TableEmptied(w.locks, Flights(w.pending));
    }
  }

  lemma PendingMayEnd(w: World, token: nat, at: string)
    requires Inv(w) && token in w.pending
    ensures Enabled(w, Finish(token)) && Enabled(w, Fail(token, at))
  {
    assert token in Flights(w.pending);
    ReleaseKeepsLocks(w.locks, Flights(w.pending), token);
  }

  method AnyActive(active: set<string>, selected: seq<Annotation>) returns (any: bool)
    ensures any <==> !(Ids(selected) !! active)
  {
    for i := 0 to |selected|
      invariant forall j :: 0 <= j < i ==> selected[j].id !in active
    {
      if selected[i].id in active {
        assert selected[i].id in Ids(selected) * active;
        return true;
      }
    }
    assert Ids(selected) !! active;
    return false;
  }

  method HandOverAll(before: Ledger, selected: seq<Annotation>, who: string, context: Option<string>, at: string)
    returns (ledger: Ledger, all: bool, handed: set<string>)
    ensures HandOver(ledger, all, handed) == HandOverUpTo(before, selected, |selected|, who, context, at)
  {
    ledger, all, handed := before, true, {};
    for i := 0 to |selected|
      invariant HandOver(ledger, all, handed) == HandOverUpTo(before, selected, i, who, context, at)
    {
      var item := selected[i];
      if all && MayHandOver(item) {
        if item.id in ledger && MayHandOver(ledger[item.id]) {
          ledger := Apply(ledger, RouteAgent(item.id, who, at, context));
          handed := handed + {item.id};
        } else {
          all := false;
        }
      }
    }
  }

  class SubmissionDesk {
    var ledgers: map<string, Ledger>
    var locks: LockTable
    var pending: map<nat, Submission>

    constructor (ledgers: map<string, Ledger>)
      ensures Model() == World(ledgers, LockTable(map[], map[], 0), map[]) && Inv(Model())
    {
      this.ledgers, locks, pending := ledgers, LockTable(map[], map[], 0), map[];
    }

    ghost function Model(): World
      reads this
    {
      World(ledgers, locks, pending)
    }

    /** Locks the selection, hands it over, and leaves the delivery to be awaited; a selection that is
        being submitted already changes nothing, one refused half-way is taken back and unlocked. */
    method BeginSubmission(token: nat, path: string, selected: seq<Annotation>, who: string, context: string,
                           at: string)
      returns (begun: bool)
      requires Enabled(Model(), Submit(token, path, selected, who, context, at))
      modifies this
      ensures Model() == Next(old(Model()), Submit(token, path, selected, who, context, at))
      ensures begun <==> token in pending
    {
      if |Trim(context)| > MAX_CONTEXT {
        return false;
      }
      var taken := AnyActive(Active(locks, path), selected);
      if taken {
        return false;
      }
      var flight := Flight(path, LockFor(locks, path), Ids(selected));
      var before := if path in ledgers then ledgers[path] else map[];
      locks := Acquire(locks, path, Ids(selected));
      var ledger, all, handed := HandOverAll(before, selected, who, ContextOf(context), at);
      if all {
        ledgers := ledgers[path := ledger];
        pending := pending[token := Submission(flight, selected, CurrentOf(ledger, selected), handed)];
      } else {
        ledgers := ledgers[path := AfterReset(ledger, selected)];
        locks := Release(locks, flight);
      }
      return all;
    }

    /** The delivery ended: a failure takes back what is still handed over; either way the ids are free. */
    method EndSubmission(token: nat, delivered: bool, at: string)
      requires Inv(Model()) && token in pending
      modifies this
      ensures old(Enabled(Model(), Finish(token)) && Enabled(Model(), Fail(token, at)))
      ensures Model() == Next(old(Model()), if delivered then Finish(token) else Fail(token, at)) && Inv(Model())
      ensures token !in pending && (pending == map[] ==> locks.table == map[])
    {
      PendingMayEnd(Model(), token, at);
      StepKeepsInv(Model(), if delivered then Finish(token) else Fail(token, at));
      var s := pending[token];
      if !delivered {
        var ledger := if s.flight.path in ledgers then ledgers[s.flight.path] else map[];
        ledgers := ledgers[s.flight.path := AfterReset(ledger, s.selected)];
      }
      locks := Release(locks, s.flight);
      pending := pending - {token};
    }
  }
}
