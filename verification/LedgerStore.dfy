/** The annotation store: it replays its log statement by statement and appends checked operations. */
module AnnotationLedgerStore {
  import opened Prelude
  import opened AnnotationLedger

  datatype Refusal =
    | NoSuchAnnotation | NotTheAuthor | AlreadyDropped | EmptyText | BadImages | NotSubmitted | StaleRevision
    | AlreadyResolved | AlreadyHandedOver | ContextTooLong | AlreadyClosed

  const MAX_CONTEXT := 4000
  const MAX_IMAGES := 6
  const UNSIGNED := "未署名"

  /** What a reader is shown: an old reworked draft of an owner-controlled ledger needs the owner's closure. */
  function Shown(ownerControlled: bool, a: Annotation): Annotation {
    if ownerControlled && a.status == Draft && a.rework > 0 && a.needsOwnerClosure.None?
    then a.(needsOwnerClosure := Some(true)) else a
  }

  /** Nothing else is shown otherwise than it is stored, and this only in an owner-controlled ledger. */
  lemma ShownIsStored(ownerControlled: bool, a: Annotation)
    ensures var shown := Shown(ownerControlled, a);
            && shown == a.(needsOwnerClosure := shown.needsOwnerClosure)
            && (a.needsOwnerClosure.Some? || !ownerControlled || a.status != Draft || a.rework == 0 ==> shown == a)
            && (NeedsClosure(shown) <==>
                  NeedsClosure(a)
                  || (ownerControlled && a.status == Draft && a.rework > 0 && a.needsOwnerClosure.None?))
  {
  }

  /** An edit: committed text becomes a draft of the next revision. */
  method AmendText(record: Annotation, op: Operation) returns (found: Annotation)
    requires op.Edit?
    ensures found == Effect(record, op)
  {
    found := record;
    match op {
      case Edit(_, note, at, ownerControlled) =>
        if found.status == Dropped {
          return;
        }
        found := found.(note := note);
        found := found.(editedAt := Some(at));
        if found.status != Draft || found.needsOwnerClosure == Some(true) {
          if ownerControlled {
            found := found.(needsOwnerClosure := Some(true));
          }
          if found.response.Some? && found.response.value.outcome == NeedsClarification {
            found := found.(clarifications := found.clarifications
              + [Clarification(found.response.value.summary, found.response.value.at, at, None, None, None)]);
          }
          found := StartRevision(found);
        }
      case _ =>
        assert false;
    }
  }

  /** A new round, or the system taking back a delivery that did not happen. */
  method AmendRound(record: Annotation, op: Operation) returns (found: Annotation)
    requires op.Reopen? || op.DeliveryReset?
    ensures found == Effect(record, op)
  {
    if op.DeliveryReset? {
      found := AmendReset(record, op);
      return;
    }
    found := record;
    match op {
      case Reopen(_, at, signed, ownerControlled, newNote) =>
        found := found.(reopened := Some(Stamp(at, if signed.Some? then signed else Some(found.author))));
        found := found.(agentContext := None, agentAssigned := false, returned := found.returned + 1);
        if ownerControlled {
          found := found.(needsOwnerClosure := Some(true));
        }
        found := StartRevision(found);
        if NonEmpty(newNote) {
          found := found.(note := newNote.value);
        }
      case _ =>
        assert false;
    }
  }

  method AmendReset(record: Annotation, op: Operation) returns (found: Annotation)
    requires op.DeliveryReset?
    ensures found == Effect(record, op)
  {
    found := StartRevision(record.(agentAssigned := false));
  }

  /** The text is a draft again under the next revision: what was said about the earlier one is cleared. */
  method StartRevision(record: Annotation) returns (found: Annotation)
    ensures found == NextRevision(record)
  {
    found := record.(resolution := None, withdrawal := None);
    found := found.(status := Draft, rework := found.rework + 1);
    found := found.(sentAt := None, sentVia := None, sentBy := None, response := None, ownerReply := None);
    found := found.(verifiedAt := None, verifiedBy := None);
  }

  /** Questions, answers and replies. */
  method AmendDialogue(record: Annotation, op: Operation) returns (found: Annotation)
    requires op.ReplyOwner? || op.Clarified? || op.ReplyAuthor?
    ensures found == Effect(record, op)
  {
    found := record;
    match op {
      case ReplyOwner(_, reply, ownerPending) =>
        if found.status in {Dropped, Verified} {
          return;
        }
        if found.status == Draft && ownerPending {
          found := found.(status := Sent, sentAt := Some(reply.at));
          found := found.(sentVia := Some(OwnerPending), sentBy := Some(reply.author));
        }
        if found.status == Sent {
          found := found.(ownerReply := Some(reply));
        }
      case Clarified(_, answer, at, signed) =>
        if !AwaitsAnswer(found) {
          return;
        }
        found := found.(clarifications := found.clarifications
          + [Clarification(found.response.value.summary, found.response.value.at, at, Some(answer),
                           if NonEmpty(signed) then signed else None, Some(found.rework))]);
        found := found.(response := None);
      case ReplyAuthor(_, text, at, signed) =>
        if !AwaitsReply(found) {
          return;
        }
        found := found.(authorReplies := found.authorReplies
          + [AuthorReply(text, at, if NonEmpty(signed) then signed else None, found.rework, found.response.value)]);
        found := found.(response := None);
      case _ =>
        assert false;
    }
  }

  /** Hand-over, delivery, receipts and closure. */
  method AmendProgress(record: Annotation, op: Operation) returns (found: Annotation)
    requires op.SetAgentContext? || op.RouteAgent? || op.OwnerResolution? || op.WithdrawRequest? || op.Drop?
             || op.MarkSent? || op.Respond? || op.Verify?
    ensures found == Effect(record, op)
  {
    found := record;
    match op {
      case SetAgentContext(_, who, at, text) =>
        found := found.(agentContext := if text != "" then Some(AgentContext(text, who, at, found.rework)) else None);
      case RouteAgent(_, who, at, context) =>
        found := found.(route := Some(Agent));
        found := found.(status := Draft);
        found := found.(agentAssigned := true);
        found := found.(needsOwnerClosure := Some(true));
        if NonEmpty(context) {
          found := found.(agentContext := Some(AgentContext(context.value, who, at, found.rework)));
        }
      case OwnerResolution(_, resolution) =>
        if found.rework == resolution.revision {
          found := found.(status := Verified);
          found := found.(resolution := Some(resolution));
          found := found.(verifiedBy := Some(resolution.who), verifiedAt := Some(resolution.at));
          found := found.(needsOwnerClosure := Some(false));
        }
      case WithdrawRequest(_, who, at) =>
        if found.status !in {Verified, Dropped} {
          found := found.(withdrawal := Some(Stamp(at, Some(who))));
          found := found.(needsOwnerClosure := Some(true));
        }
      case Drop(_) =>
        found := found.(status := Dropped);
      case MarkSent(_, via, at, signed) =>
        if found.resolution.None? {
          found := found.(status := Sent);
          found := found.(sentAt := Some(at), sentVia := Some(via));
          if via != OwnerPending {
            found := found.(agentAssigned := true);
          }
          if NonEmpty(signed) {
            found := found.(sentBy := signed);
          }
        }
      case Respond(_, response) =>
        if found.resolution.Some? || found.status in {Draft, Dropped} {
          return;
        }
        // A late receipt of an earlier round must not cover the new one.
        if response.revision == found.rework {
          found := found.(response := Some(response));
        }
      case Verify(_, at, signed) =>
        found := found.(status := Verified, verifiedAt := Some(at), verifiedBy := signed);
      case _ =>
        assert false;
    }
  }

  /** One operation performed on a record field by field. */
  method Amend(record: Annotation, op: Operation) returns (found: Annotation)
    requires !op.Add?
    ensures found == Effect(record, op)
  {
    if op.Edit? {
      found := AmendText(record, op);
    } else if op.Reopen? || op.DeliveryReset? {
      found := AmendRound(record, op);
    } else if op.ReplyOwner? || op.Clarified? || op.ReplyAuthor? {
      found := AmendDialogue(record, op);
    } else {
      found := AmendProgress(record, op);
    }
  }

  /** Marking a list of ids one after the other, repeats included, marks each of them. */
  method MarkAll(ledger: Ledger, op: Operation) returns (after: Ledger)
    requires op.MarkSent?
    ensures after == Apply(ledger, op)
  {
    after := ledger;
    for i := 0 to |op.ids|
      invariant after.Keys == ledger.Keys
      invariant forall id :: id in ledger ==>
                  after[id] == if id in op.ids[..i] then Effect(ledger[id], op) else ledger[id]
    {
      assert op.ids[..i + 1] == op.ids[..i] + [op.ids[i]];
      if op.ids[i] in after {
        var found := Amend(after[op.ids[i]], op);
        after := after[op.ids[i] := found];
      }
    }
    assert op.ids[..|op.ids|] == op.ids;
  }

  method ApplyOne(ledger: Ledger, op: Operation) returns (after: Ledger)
    ensures after == Apply(ledger, op)
  {
    after := ledger;
    if op.Add? {
      if op.record.id != "" {
        after := after[op.record.id := op.record];
      }
    } else if op.MarkSent? {
      after := MarkAll(after, op);
    } else if op.id in after {
      var found := Amend(after[op.id], op);
      after := after[op.id := found];
    }
  }

  method ReplayLog(operations: seq<Operation>) returns (byId: Ledger)
    ensures byId == Replay(operations)
  {
    byId := map[];
    for i := 0 to |operations|
      invariant byId == Replay(operations[..i])
    {
      assert operations[..i + 1] == operations[..i] + [operations[i]];
      ReplayAppends(operations[..i], operations[i]);
      byId := ApplyOne(byId, operations[i]);
    }
    assert operations[..|operations|] == operations;
  }

  /** A snapshot still names the text and revision the ledger holds. */
  predicate SameText(ledger: Ledger, item: Annotation) {
    item.id in ledger && ledger[item.id].rework == item.rework && ledger[item.id].note == item.note
  }

  /** The annotations a delivery of this snapshot may still be recorded for. */
  predicate StillDeliverable(ledger: Ledger, item: Annotation) {
    SameText(ledger, item) && ledger[item.id].resolution.None? && ledger[item.id].status in {Draft, Sent}
  }

  /** A hand-over of exactly this text that nothing has been delivered for yet. */
  predicate OpenHandOver(ledger: Ledger, item: Annotation) {
    SameText(ledger, item) && ledger[item.id].status == Draft && ledger[item.id].agentAssigned
  }

  /** A hand-over taken back: a draft of a later revision that is the author's again. A list that names it
      several times takes it back as often. */
  function TakenBack(a: Annotation, times: nat): Annotation {
    if times == 0 then a else NextRevision(a).(agentAssigned := false, rework := a.rework + times)
  }

  /** How often the items name an open hand-over of this annotation. */
  function Openings(ledger: Ledger, items: seq<Annotation>, id: string): nat {
    if items == [] then 0
    else
      var n := |items| - 1;
      Openings(ledger, items[..n], id) + (if items[n].id == id && OpenHandOver(ledger, items[n]) then 1 else 0)
  }

  lemma {:induction false} OpeningsNamed(ledger: Ledger, items: seq<Annotation>, id: string)
    ensures Openings(ledger, items, id) > 0 <==>
            exists i :: 0 <= i < |items| && items[i].id == id && OpenHandOver(ledger, items[i])
  {
    if items != [] {
      var n := |items| - 1;
      OpeningsNamed(ledger, items[..n], id);
      assert forall i :: 0 <= i < n ==> items[..n][i] == items[i];
    }
  }

  function AfterReset(before: Ledger, items: seq<Annotation>): Ledger {
    map id | id in before :: TakenBack(before[id], Openings(before, items, id))
  }

  lemma ResetNone(before: Ledger)
    ensures AfterReset(before, []) == before
  {
  }

  lemma TakenBackAgain(a: Annotation, times: nat, op: Operation)
    requires op.DeliveryReset?
    ensures Effect(TakenBack(a, times), op) == TakenBack(a, times + 1)
  {
  }

  lemma {:induction false} OpeningsStep(ledger: Ledger, items: seq<Annotation>, item: Annotation, id: string)
    ensures Openings(ledger, items + [item], id)
            == Openings(ledger, items, id) + (if item.id == id && OpenHandOver(ledger, item) then 1 else 0)
  {
    assert (items + [item])[..|items|] == items;
  }

  lemma {:induction false} ResetStep(before: Ledger, items: seq<Annotation>, item: Annotation, at: string)
    ensures var after := AfterReset(before, items);
            AfterReset(before, items + [item])
            == if OpenHandOver(before, item) then Apply(after, DeliveryReset(item.id, at)) else after
  {
    var op := DeliveryReset(item.id, at);
    var after, longer := AfterReset(before, items), AfterReset(before, items + [item]);
    var next := if OpenHandOver(before, item) then Apply(after, op) else after;
    assert longer.Keys == before.Keys == next.Keys;
    forall id | id in before ensures longer[id] == next[id] {
      ResetStepAt(before, items, item, at, id);
    }
  }

  lemma {:induction false} ResetStepAt(before: Ledger, items: seq<Annotation>, item: Annotation, at: string, id: string)
    requires id in before
    ensures AfterReset(before, items + [item])[id]
            == if OpenHandOver(before, item) && id == item.id
               then Effect(AfterReset(before, items)[id], DeliveryReset(item.id, at)) else AfterReset(before, items)[id]
  {
    OpeningsStep(before, items, item, id);
    TakenBackAgain(before[id], Openings(before, items, id), DeliveryReset(item.id, at));
  }

  /** A reset changes exactly the open hand-overs that are named. */
  lemma ResetChanges(before: Ledger, items: seq<Annotation>)
    ensures forall id :: id in before ==>
              (AfterReset(before, items)[id] != before[id] <==>
                 exists i :: 0 <= i < |items| && items[i].id == id && OpenHandOver(before, items[i]))
  {
    forall id | id in before
      ensures AfterReset(before, items)[id] != before[id] <==>
              exists i :: 0 <= i < |items| && items[i].id == id && OpenHandOver(before, items[i])
    {
      OpeningsNamed(before, items, id);
      assert Openings(before, items, id) > 0 ==>
            TakenBack(before[id], Openings(before, items, id)).rework > before[id].rework;
    }
  }

  /** Only the named annotation may differ. */
  predicate OnlyAt(before: Ledger, after: Ledger, id: string) {
    after.Keys == before.Keys && forall other :: other in before && other != id ==> after[other] == before[other]
  }

  lemma ReopenEffect(a: Annotation, op: Operation)
    requires op.Reopen?
    ensures var b := Effect(a, op);
            && b.status == Draft && b.rework == a.rework + 1 && b.returned == a.returned + 1
            && b.response.None? && b.resolution.None? && !b.agentAssigned
            && b.note == if NonEmpty(op.newNote) then op.newNote.value else a.note
  {
  }

  lemma RespondEffect(a: Annotation, op: Operation)
    requires op.Respond? && op.response.revision == a.rework && a.status != Draft && a.status != Dropped
    ensures Effect(a, op) == if a.resolution.Some? then a else a.(response := Some(op.response))
  {
  }

  predicate MayHandOver(a: Annotation) {
    a.status == Draft || (a.status == Sent && a.sentVia == Some(OwnerPending))
  }

  predicate Settled(a: Annotation) {
    a.resolution.Some? ==> a.status == Verified || a.status == Dropped
  }

  lemma EffectKeepsSettled(a: Annotation, op: Operation)
    requires Settled(a) && !op.Add? && (op.RouteAgent? ==> MayHandOver(a))
    ensures Settled(Effect(a, op))
  {
  }

  /** Hand-overs only happen to annotations that wait for one, as `AssignToAgent` sees to. */
  ghost predicate RoutesWaiting(log: seq<Operation>) {
    forall k :: 0 <= k < |log| && log[k].RouteAgent? && log[k].id in Replay(log[..k]) ==>
      MayHandOver(Replay(log[..k])[log[k].id])
  }

  /** An annotation that waits for a hand-over carries no resolution. */
  lemma {:induction false} WaitingIsUnresolved(log: seq<Operation>, id: string)
    requires WellFormed(log) && RoutesWaiting(log) && id in Replay(log)
    ensures Settled(Replay(log)[id]) && (MayHandOver(Replay(log)[id]) ==> Replay(log)[id].resolution.None?)
  {
    var n := |log| - 1;
    WellFormedPrefix(log, n);
    forall k | 0 <= k < n ensures log[..n][..k] == log[..k] {}
    if log[n].Add? && log[n].record.id == id {
      assert Replay(log)[id] == log[n].record;
    } else {
      WaitingIsUnresolved(log[..n], id);
      if !log[n].Add? && Names(log[n], id) {
        EffectKeepsSettled(Replay(log[..n])[id], log[n]);
      }
    }
  }

  /** Nobody records a delivery as a reply of the owner: those drafts are sent by the reply itself. */
  predicate MarksDeliveries(log: seq<Operation>) {
    forall k :: 0 <= k < |log| && log[k].MarkSent? ==> log[k].via != OwnerPending
  }

  lemma EffectKeepsClosed(a: Annotation, op: Operation)
    requires !op.Add? && !op.RouteAgent? && (op.MarkSent? ==> op.via != OwnerPending) && !MayHandOver(a)
    ensures Effect(a, op).rework == a.rework ==> !MayHandOver(Effect(a, op))
  {
  }

  predicate StaysClosed(a: Annotation, b: Annotation) {
    a.rework <= b.rework && (a.rework == b.rework && !MayHandOver(a) ==> !MayHandOver(b))
  }

  ghost predicate StepStays(log: seq<Operation>, k: nat, id: string)
    requires k < |log|
  {
    id in Replay(log[..k]) ==>
      id in Replay(log[..k + 1]) && StaysClosed(Replay(log[..k])[id], Replay(log[..k + 1])[id])
  }

  /** An annotation that does not wait for a hand-over waits for one again only under a later revision. */
  lemma {:induction false} ClosedStaysClosed(log: seq<Operation>, i: nat, j: nat, id: string)
    requires WellFormed(log) && RoutesWaiting(log) && MarksDeliveries(log) && i <= j <= |log|
    requires id in Replay(log[..i])
    ensures id in Replay(log[..j])
    ensures StaysClosed(Replay(log[..i])[id], Replay(log[..j])[id])
  {
    forall k | i <= k < j ensures StepStays(log, k, id) {
      if id in Replay(log[..k]) {
        ClosedStep(log, k, id);
      }
    }
    ClosedAlong(log, i, j, id);
  }

  lemma {:induction false} ClosedAlong(log: seq<Operation>, i: nat, j: nat, id: string)
    requires i <= j <= |log| && id in Replay(log[..i]) && forall k :: i <= k < j ==> StepStays(log, k, id)
    ensures id in Replay(log[..j]) && StaysClosed(Replay(log[..i])[id], Replay(log[..j])[id])
    decreases j
  {
    if i < j {
      ClosedAlong(log, i, j - 1, id);
      assert StepStays(log, j - 1, id);
      StaysClosedOn(Replay(log[..i])[id], Replay(log[..j - 1])[id], Replay(log[..j])[id]);
    }
  }

  lemma StaysClosedOn(a: Annotation, b: Annotation, c: Annotation)
    requires StaysClosed(a, b) && StaysClosed(b, c)
    ensures StaysClosed(a, c)
  {
  }

  lemma {:induction false} ClosedStep(log: seq<Operation>, k: nat, id: string)
    requires WellFormed(log) && RoutesWaiting(log) && MarksDeliveries(log) && k < |log| && id in Replay(log[..k])
    ensures id in Replay(log[..k + 1])
    ensures StaysClosed(Replay(log[..k])[id], Replay(log[..k + 1])[id])
  {
    ReplayStep(log, k, id);
    if Names(log[k], id) {
      EffectFreezesText(Replay(log[..k])[id], log[k]);
      if !MayHandOver(Replay(log[..k])[id]) {
        EffectKeepsClosed(Replay(log[..k])[id], log[k]);
      }
    }
  }

  lemma ResolutionEffect(a: Annotation, op: Operation)
    requires op.OwnerResolution? && op.resolution.revision == a.rework
    ensures Effect(a, op)
            == a.(status := Verified, resolution := Some(op.resolution), verifiedBy := Some(op.resolution.who),
                  verifiedAt := Some(op.resolution.at), needsOwnerClosure := Some(false))
  {
  }

  /** The pictures of a note, without those that name no file. */
  function Attached(images: seq<string>): seq<string> {
    if images == [] then []
    else Attached(images[..|images| - 1]) + (if Blank(images[|images| - 1]) then [] else [Trim(images[|images| - 1])])
  }

  /** They are the named ones, trimmed. */
  lemma {:induction false} AttachedAreNamed(images: seq<string>, path: string)
    ensures path in Attached(images) <==> exists i :: 0 <= i < |images| && !Blank(images[i]) && Trim(images[i]) == path
  {
    if images != [] {
      var n := |images| - 1;
      AttachedAreNamed(images[..n], path);
      assert forall i :: 0 <= i < n ==> images[..n][i] == images[i];
    }
  }

  /** Each is attached as often as it is named. */
  lemma {:induction false} AttachedAreCounted(images: seq<string>)
    ensures |Attached(images)| == |set i | 0 <= i < |images| && !Blank(images[i])|
  {
    var named := set i | 0 <= i < |images| && !Blank(images[i]);
    if images == [] {
      assert named == {};
    } else {
      var n := |images| - 1;
      AttachedAreCounted(images[..n]);
      var before := set i | 0 <= i < |images[..n]| && !Blank(images[..n][i]);
      assert named == if Blank(images[n]) then before else before + {n};
    }
  }

  /** Only uploaded pictures can be attached, and not too many. */
  predicate MayAttach(images: seq<string>, isAsset: string -> bool) {
    && (forall i :: 0 <= i < |images| && !Blank(images[i]) ==> isAsset(Trim(images[i])))
    && |Attached(images)| <= MAX_IMAGES
  }

  method Deliverable(current: Ledger, snapshot: seq<Annotation>) returns (ids: seq<string>)
    ensures forall i :: 0 <= i < |snapshot| ==> (StillDeliverable(current, snapshot[i]) ==> snapshot[i].id in ids)
    ensures forall id :: id in ids ==>
              exists i :: 0 <= i < |snapshot| && snapshot[i].id == id && StillDeliverable(current, snapshot[i])
  {
    ids := [];
    for i := 0 to |snapshot|
      invariant forall j :: 0 <= j < i ==> (StillDeliverable(current, snapshot[j]) ==> snapshot[j].id in ids)
      invariant forall id :: id in ids ==>
                  exists j :: 0 <= j < i && snapshot[j].id == id && StillDeliverable(current, snapshot[j])
    {
      if StillDeliverable(current, snapshot[i]) {
        ids := ids + [snapshot[i].id];
      }
    }
  }

  class AnnotationStore {
    const ownerControlled: bool
    var log: seq<Operation>

    constructor (ownerControlled: bool)
      ensures this.ownerControlled == ownerControlled && log == []
    {
      this.ownerControlled := ownerControlled;
      log := [];
    }

    ghost function Now(): Ledger
      reads this
    {
      Replay(log)
    }

    method Read() returns (ledger: Ledger)
      ensures ledger == Now()
    {
      ledger := ReplayLog(log);
    }

    method Append(op: Operation)
      modifies this`log
      ensures log == old(log) + [op] && Now() == Apply(old(Now()), op)
    {
      ReplayAppends(log, op);
      log := log + [op];
    }

    /** A new note is a draft; a private memory is closed by being written down. */
    method AddNote(id: string, author: string, note: string, anchor: string, artifact: string,
                   images: seq<string>, isAsset: string -> bool,
                   route: Option<Route>, assignee: Option<string>, external: bool, at: string)
      returns (r: Outcome<Annotation, Refusal>)
      requires id != "" && id !in Now() && WellFormed(log)
      modifies this`log
      ensures WellFormed(log)
      ensures r.Refused? <==> (Blank(note) && route != Some(Memory)) || Blank(anchor) || Blank(artifact)
                              || (exists i :: 0 <= i < |images| && !Blank(images[i]) && !isAsset(Trim(images[i])))
                              || |set i | 0 <= i < |images| && !Blank(images[i])| > 6
      ensures r.Refused? ==> log == old(log)
      ensures r.Ok? ==> Now() == old(Now())[id := r.value] && r.value.id == id && r.value.note == Trim(note)
                        && r.value.rework == 0 && (r.value.status == if route == Some(Memory) then Verified else Draft)
                        && r.value.author == (if Blank(author) then UNSIGNED else Trim(author))
                        && r.value.external == external
                        && r.value.route == (if route == Some(Agent) then None else route)
                        && r.value.assignee == (if Blank(assignee.GetOr("")) then None else Some(Trim(assignee.value)))
                        && r.value.verifiedAt == (if route == Some(Memory) then Some(at) else None)
                        && !r.value.agentAssigned && r.value.sentAt.None? && r.value.needsOwnerClosure.None?
    {
      if (Blank(note) && route != Some(Memory)) || Blank(anchor) || Blank(artifact) {
        return Refused(EmptyText);
      }
      AttachedAreCounted(images);
      if !MayAttach(images, isAsset) {
        return Refused(BadImages);
      }
      var memory := route == Some(Memory);
      var record := Annotation(
        id, if Blank(author) then UNSIGNED else Trim(author), Trim(note), None, external,
        if route == Some(Agent) then None else route,
        if Blank(assignee.GetOr("")) then None else Some(Trim(assignee.value)), if memory then Verified else Draft,
        None, None, None, None, None, false, None,
        if memory then Some(at) else None, None, None, None, None, 0, 0, None, [], []);
      assert forall i :: 0 <= i < |log| ==> (log + [Add(record)])[..i] == log[..i];
      assert (log + [Add(record)])[..|log|] == log;
      Append(Add(record));
      return Ok(record);
    }

    /** Changes the note; text that was committed starts the next revision with nothing answered. */
    method EditNote(id: string, note: string, who: string, byOwner: bool, at: string)
      returns (r: Outcome<Annotation, Refusal>)
      modifies this`log
      ensures r.Refused? <==> id !in old(Now()) || (old(Now())[id].author != who && !byOwner)
                              || old(Now())[id].status == Dropped || Blank(note)
      ensures r.Refused? ==> log == old(log)
      ensures r.Ok? ==>
                var a := old(Now())[id];
                && Now() == old(Now())[id := Effect(a, Edit(id, Trim(note), at, byOwner))]
                && Now()[id].note == Trim(note) && Now()[id].status == Draft
                && Now()[id].rework == a.rework + (if Committed(a) then 1 else 0)
                && (Committed(a) ==> Now()[id].response.None? && Now()[id].resolution.None?)
                && r.value == Shown(ownerControlled, Now()[id])
    {
      var ledger := Read();
      if id !in ledger {
        return Refused(NoSuchAnnotation);
      }
      if ledger[id].author != who && !byOwner {
        return Refused(NotTheAuthor);
      }
      if ledger[id].status == Dropped {
        return Refused(AlreadyDropped);
      }
      if Blank(note) {
        return Refused(EmptyText);
      }
      Append(Edit(id, Trim(note), at, byOwner));
      return Ok(Shown(ownerControlled, Effect(ledger[id], Edit(id, Trim(note), at, byOwner))));
    }

    /** Records a delivery for exactly those of the snapshot whose text and revision are still current. */
    method MarkSentFor(snapshot: seq<Annotation>, via: SentVia, who: Option<string>, at: string)
      returns (ids: seq<string>)
      modifies this`log
      ensures forall item :: item in snapshot && item.id in old(Now()) ==>
                var a := old(Now())[item.id];
                a.note == item.note && a.rework == item.rework && a.resolution.None?
                    && (a.status == Draft || a.status == Sent) ==>
                  item.id in ids
      ensures forall id :: id in ids ==>
                && id in old(Now())
                && var a := old(Now())[id];
                   && a.resolution.None? && (a.status == Draft || a.status == Sent)
                   && exists i :: 0 <= i < |snapshot| && snapshot[i].id == id
                                  && snapshot[i].note == a.note && snapshot[i].rework == a.rework
      ensures Now().Keys == old(Now()).Keys
      ensures forall id :: id in Now() ==>
                Now()[id] == if id in ids then MarkedSent(old(Now())[id], via, at, who) else old(Now())[id]
      ensures forall id :: id in ids ==> id in Now() && Now()[id].status == Sent && Now()[id].sentVia == Some(via)
    {
      var current := Read();
      ids := Deliverable(current, snapshot);
      if ids != [] {
        Append(MarkSent(ids, via, at, who));
      }
    }

    /** Takes back the hand-overs of this snapshot that nothing was delivered for: each becomes a draft of
        the next revision - of a later one if the snapshot repeats it - and everything else stays as it is. */
    method ResetUnsentAssignments(snapshot: seq<Annotation>, at: string)
      modifies this`log
      ensures Now() == AfterReset(old(Now()), snapshot)
      ensures forall id :: id in Now() ==>
                (Now()[id] != old(Now())[id] <==>
                   exists i :: 0 <= i < |snapshot| && snapshot[i].id == id && OpenHandOver(old(Now()), snapshot[i]))
    {
      var current := Read();
      ResetNone(current);
      for i := 0 to |snapshot|
        invariant Now() == AfterReset(current, snapshot[..i])
      {
        assert snapshot[..i + 1] == snapshot[..i] + [snapshot[i]];
        ResetStep(current, snapshot[..i], snapshot[i], at);
        if OpenHandOver(current, snapshot[i]) {
          Append(DeliveryReset(snapshot[i].id, at));
        }
      }
      assert snapshot[..|snapshot|] == snapshot;
      ResetChanges(current, snapshot);
    }

    /** Records an agent's receipt. A receipt for an annotation the owner already resolved is
        accepted here but has no effect; every other accepted receipt is stored. */
    method RecordResponse(id: string, revision: Option<int>, outcome: ResponseOutcome, summary: string, at: string)
      returns (r: Outcome<Annotation, Refusal>)
      modifies this`log
      ensures r.Refused? <==> id !in old(Now()) || old(Now())[id].status == Draft || old(Now())[id].status == Dropped
                              || revision.GetOr(old(Now())[id].rework) != old(Now())[id].rework || Blank(summary)
      ensures r.Refused? ==> log == old(log)
      ensures r.Ok? ==>
                var a := old(Now())[id];
                && Now() == old(Now())[id :=
                     if a.resolution.Some? then a
                     else a.(response := Some(Response(a.rework, outcome, Trim(summary), at)))]
                && r.value == Shown(ownerControlled, Now()[id])
    {
      var ledger := Read();
      if id !in ledger {
        return Refused(NoSuchAnnotation);
      }
      if ledger[id].status == Draft {
        return Refused(NotSubmitted);
      }
      if ledger[id].status == Dropped {
        return Refused(AlreadyDropped);
      }
      var answered := revision.GetOr(ledger[id].rework);
      if answered != ledger[id].rework {
        return Refused(StaleRevision);
      }
      if Blank(summary) {
        return Refused(EmptyText);
      }
      var op := Respond(id, Response(answered, outcome, Trim(summary), at));
      RespondEffect(ledger[id], op);
      Append(op);
      return Ok(Shown(ownerControlled, Effect(ledger[id], op)));
    }

    /** Hands an annotation to the agent: from here its text only changes with a new revision. */
    method AssignToAgent(id: string, who: string, context: string, at: string)
      returns (r: Outcome<(), Refusal>)
      modifies this`log
      ensures r.Ok? <==> id in old(Now()) && |Trim(context)| <= 4000
                         && (old(Now())[id].status == Draft
                             || (old(Now())[id].status == Sent && old(Now())[id].sentVia == Some(OwnerPending)))
      ensures r.Refused? ==> log == old(log)
      ensures r.Ok? ==>
                && OnlyAt(old(Now()), Now(), id)
                && Now()[id] == Effect(old(Now())[id],
                                       RouteAgent(id, who, at, if Blank(context) then None else Some(Trim(context))))
                && Now()[id].status == Draft && Now()[id].agentAssigned && Committed(Now()[id])
                && Now()[id].note == old(Now())[id].note && Now()[id].rework == old(Now())[id].rework
    {
      var ledger := Read();
      if id !in ledger || !MayHandOver(ledger[id]) {
        return Refused(AlreadyHandedOver);
      }
      if |Trim(context)| > MAX_CONTEXT {
        return Refused(ContextTooLong);
      }
      Append(RouteAgent(id, who, at, if Blank(context) then None else Some(Trim(context))));
      return Ok(());
    }

    /** The owner's decision: it takes effect on the revision it was made for or not at all. */
    method ResolveAsOwner(id: string, who: string, revision: int, outcome: ResolutionOutcome, reason: string,
                          at: string)
      returns (r: Outcome<Annotation, Refusal>)
      modifies this`log
      ensures r.Refused? ==> log == old(log)
      ensures r.Ok? ==>
                && id in old(Now()) && revision == old(Now())[id].rework
                && OnlyAt(old(Now()), Now(), id)
                && Now()[id].resolution.Some? && Now()[id].resolution.value.revision == Now()[id].rework == revision
                && Now()[id].resolution.value.outcome == outcome && Now()[id].resolution.value.who == who
                && Now()[id].note == old(Now())[id].note
                && (old(Now())[id].resolution.None? ==>
                      Now()[id].status == Verified && Now()[id].resolution.value.reason == Trim(reason))
                && (old(Now())[id].resolution.Some? ==> log == old(log))
                && r.value == Shown(ownerControlled, Now()[id])
      ensures WellFormed(old(log)) ==>
                (r.Ok? <==>
                  && id in old(Now()) && revision == old(Now())[id].rework
                  && var a := old(Now())[id];
                     if a.resolution.Some? then
                       a.resolution.value.who == who && a.resolution.value.outcome == outcome
                           && a.resolution.value.reason == Trim(reason)
                     else
                       (a.status == Sent
                           || (a.status == Draft && (NeedsClosure(Shown(ownerControlled, a)) || a.external)))
                       && (!Blank(reason) || outcome == ResolvedFixed))
    {
      var ledger := Read();
      if WellFormed(log) && id in ledger {
        ReceiptsCarryCurrentRevision(log, id);
      }
      if id !in ledger {
        return Refused(NoSuchAnnotation);
      }
      var found := Shown(ownerControlled, ledger[id]);
      if revision != found.rework {
        return Refused(StaleRevision);
      }
      if found.resolution.Some? {
        var known := found.resolution.value;
        if known.who == who && known.outcome == outcome && known.reason == Trim(reason) && known.revision == revision {
          return Ok(found);
        }
        return Refused(AlreadyResolved);
      }
      if found.status != Sent && !(found.status == Draft && (found.needsOwnerClosure == Some(true) || found.external)) {
        return Refused(AlreadyClosed);
      }
      if Blank(reason) && outcome != ResolvedFixed {
        return Refused(EmptyText);
      }
      var op := OwnerResolution(id, Resolution(revision, outcome, Trim(reason), who, at));
      ResolutionEffect(ledger[id], op);
      Append(op);
      return Ok(Shown(ownerControlled, Effect(ledger[id], op)));
    }

    /** Sends an annotation back for another round under the next revision. */
    method ReopenNote(id: string, who: string, note: string, byOwner: bool, at: string)
      returns (r: Outcome<Annotation, Refusal>)
      modifies this`log
      ensures r.Refused? ==> log == old(log)
      ensures r.Ok? ==>
                && id in old(Now()) && old(Now())[id].status !in {Draft, Dropped}
                && (old(Now())[id].author == who || byOwner)
                && OnlyAt(old(Now()), Now(), id)
                && Now()[id] == Effect(old(Now())[id],
                                       Reopen(id, at, Some(who), byOwner,
                                              if Blank(note) then None else Some(Trim(note))))
                && Now()[id].status == Draft && Now()[id].rework == old(Now())[id].rework + 1
                && Now()[id].returned == old(Now())[id].returned + 1
                && Now()[id].response.None? && Now()[id].resolution.None? && !Now()[id].agentAssigned
                && Now()[id].note == (if Blank(note) then old(Now())[id].note else Trim(note))
                && r.value == Shown(ownerControlled, Now()[id])
      ensures r.Ok? <==> id in old(Now()) && (old(Now())[id].author == who || byOwner)
                         && old(Now())[id].status !in {Draft, Dropped}
                         && (byOwner
                             || old(Now())[id].sentVia !in {Some(OverallStoryQueue), Some(OverallStoryProcessing)})
    {
      var ledger := Read();
      if id !in ledger {
        return Refused(NoSuchAnnotation);
      }
      if ledger[id].author != who && !byOwner {
        return Refused(NotTheAuthor);
      }
      if ledger[id].status == Draft {
        return Refused(NotSubmitted);
      }
      if ledger[id].status == Dropped {
        return Refused(AlreadyDropped);
      }
      if !byOwner && ledger[id].sentVia in {Some(OverallStoryQueue), Some(OverallStoryProcessing)} {
        return Refused(AlreadyHandedOver);
      }
      var op := Reopen(id, at, Some(who), byOwner, if Blank(note) then None else Some(Trim(note)));
      ReopenEffect(ledger[id], op);
      Append(op);
      return Ok(Shown(ownerControlled, Effect(ledger[id], op)));
    }
  }
}
