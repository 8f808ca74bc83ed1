/** The annotation ledger: an append-only log of operations replayed into review state. */
module AnnotationLedger {
  import opened Prelude

  datatype Route = Agent | OwnerReplyRoute | OwnerDecision | Memory

  datatype Status = Draft | Sent | Verified | Dropped

  datatype SentVia =
    | OverallStoryQueue | OverallStoryProcessing | OverallStory | RequirementReview | RequirementQueue
    | Interrupt | Decision | PipelineEvidence | ReviewRepair | OwnerPending | QueuedDecision | IssueReview

  datatype ResponseOutcome = Fixed | NotFixed | NeedsClarification

  datatype Response = Response(revision: int, outcome: ResponseOutcome, summary: string, at: string)

  datatype ResolutionOutcome = ResolvedFixed | NotAdopted | Deferred | AcceptedRisk

  datatype Resolution = Resolution(revision: int, outcome: ResolutionOutcome, reason: string, who: string, at: string)

  datatype OwnerReply = OwnerReply(author: string, text: string, at: string)

  datatype AgentContext = AgentContext(text: string, who: string, at: string, revision: nat)

  datatype Stamp = Stamp(at: string, who: Option<string>)

  /** A question of the agent kept when the author edits the note or answers it. */
  datatype Clarification = Clarification(question: string, askedAt: string, answeredAt: string,
                                         answer: Option<string>, answeredBy: Option<string>, revision: Option<nat>)

  datatype AuthorReply = AuthorReply(text: string, at: string, who: Option<string>, revision: nat, response: Response)

  datatype Annotation = Annotation(
    id: string, author: string, note: string, editedAt: Option<string>, external: bool,
    route: Option<Route>, assignee: Option<string>, status: Status,
    sentAt: Option<string>, sentVia: Option<SentVia>, sentBy: Option<string>,
    response: Option<Response>, ownerReply: Option<OwnerReply>,
    agentAssigned: bool, agentContext: Option<AgentContext>,
    verifiedAt: Option<string>, verifiedBy: Option<string>, resolution: Option<Resolution>,
    needsOwnerClosure: Option<bool>, withdrawal: Option<Stamp>,
    rework: nat, returned: nat, reopened: Option<Stamp>,
    clarifications: seq<Clarification>, authorReplies: seq<AuthorReply>)

  datatype Operation =
    | Add(record: Annotation)
    | Edit(id: string, note: string, at: string, ownerControlled: bool)
    | OwnerResolution(id: string, resolution: Resolution)
    | WithdrawRequest(id: string, who: string, at: string)
    | Drop(id: string)
    | MarkSent(ids: seq<string>, via: SentVia, at: string, signed: Option<string>)
    | Respond(id: string, response: Response)
    | SetAgentContext(id: string, who: string, at: string, text: string)
    | RouteAgent(id: string, who: string, at: string, context: Option<string>)
    | ReplyOwner(id: string, reply: OwnerReply, ownerPending: bool)
    | Verify(id: string, at: string, signed: Option<string>)
    | Reopen(id: string, at: string, signed: Option<string>, ownerControlled: bool, newNote: Option<string>)
    | DeliveryReset(id: string, at: string)
    | Clarified(id: string, answer: string, at: string, signed: Option<string>)
    | ReplyAuthor(id: string, text: string, at: string, signed: Option<string>)

  type Ledger = map<string, Annotation>

  predicate NonEmpty(text: Option<string>) {
    text.Some? && text.value != ""
  }

  predicate NeedsClosure(a: Annotation) {
    a.needsOwnerClosure == Some(true)
  }

  /** Back to a draft of the next revision: nothing said about the earlier text is kept as current. */
  function NextRevision(a: Annotation): Annotation {
    a.(rework := a.rework + 1, status := Draft, sentAt := None, sentVia := None, sentBy := None,
       response := None, ownerReply := None, verifiedAt := None, verifiedBy := None,
       resolution := None, withdrawal := None)
  }

  function QuestionKept(a: Annotation, at: string): seq<Clarification> {
    if a.response.Some? && a.response.value.outcome == NeedsClarification then
      a.clarifications + [Clarification(a.response.value.summary, a.response.value.at, at, None, None, None)]
    else a.clarifications
  }

  function Edited(a: Annotation, op: Operation): Annotation
    requires op.Edit?
  {
    if a.status == Dropped then a
    else
      var b := a.(note := op.note, editedAt := Some(op.at));
      if a.status != Draft || NeedsClosure(a) then
        NextRevision(b).(needsOwnerClosure := if op.ownerControlled then Some(true) else a.needsOwnerClosure,
                         clarifications := QuestionKept(a, op.at))
      else b
  }

  function Reopened(a: Annotation, op: Operation): Annotation
    requires op.Reopen?
  {
    NextRevision(a).(agentAssigned := false, agentContext := None, returned := a.returned + 1,
                     reopened := Some(Stamp(op.at, if op.signed.Some? then op.signed else Some(a.author))),
                     needsOwnerClosure := if op.ownerControlled then Some(true) else a.needsOwnerClosure,
                     note := if NonEmpty(op.newNote) then op.newNote.value else a.note)
  }

  function MarkedSent(a: Annotation, via: SentVia, at: string, who: Option<string>): Annotation {
    if a.resolution.Some? then a
    else a.(status := Sent, sentAt := Some(at), sentVia := Some(via),
            agentAssigned := a.agentAssigned || via != OwnerPending,
            sentBy := if NonEmpty(who) then who else a.sentBy)
  }

  function OwnerReplied(a: Annotation, reply: OwnerReply, ownerPending: bool): Annotation {
    if a.status == Dropped || a.status == Verified then a
    else if a.status == Draft && !ownerPending then a
    else
      var b := if a.status == Draft
               then a.(status := Sent, sentAt := Some(reply.at), sentVia := Some(OwnerPending),
                       sentBy := Some(reply.author))
               else a;
      b.(ownerReply := Some(reply))
  }

  predicate AcceptsResponse(a: Annotation, response: Response) {
    a.resolution.None? && a.status != Draft && a.status != Dropped && response.revision == a.rework
  }

  predicate AwaitsAnswer(a: Annotation) {
    a.status == Sent && a.response.Some? && a.response.value.outcome == NeedsClarification
    && a.response.value.revision == a.rework
  }

  predicate AwaitsReply(a: Annotation) {
    a.status == Sent && a.response.Some? && a.response.value.revision == a.rework
  }

  /** The effect of one operation on the annotation it names. */
  function Effect(a: Annotation, op: Operation): Annotation {
    match op
    case Add(record) => record
    case SetAgentContext(_, who, at, text) =>
      a.(agentContext := if text != "" then Some(AgentContext(text, who, at, a.rework)) else None)
    case RouteAgent(_, who, at, context) =>
      a.(route := Some(Agent), status := Draft, agentAssigned := true, needsOwnerClosure := Some(true),
         agentContext := if NonEmpty(context) then Some(AgentContext(context.value, who, at, a.rework))
                         else a.agentContext)
    case OwnerResolution(_, resolution) =>
      if a.rework == resolution.revision then
        a.(status := Verified, resolution := Some(resolution), verifiedBy := Some(resolution.who),
           verifiedAt := Some(resolution.at), needsOwnerClosure := Some(false))
      else a
    case WithdrawRequest(_, who, at) =>
      if a.status == Verified || a.status == Dropped then a
      else a.(withdrawal := Some(Stamp(at, Some(who))), needsOwnerClosure := Some(true))
    case Drop(_) => a.(status := Dropped)
    case Edit(_, _, _, _) => Edited(a, op)
    case MarkSent(_, via, at, who) => MarkedSent(a, via, at, who)
    case Respond(_, response) => if AcceptsResponse(a, response) then a.(response := Some(response)) else a
    case ReplyOwner(_, reply, ownerPending) => OwnerReplied(a, reply, ownerPending)
    case Verify(_, at, who) => a.(status := Verified, verifiedAt := Some(at), verifiedBy := who)
    case Clarified(_, answer, at, who) =>
      if AwaitsAnswer(a) then
        a.(clarifications := a.clarifications
             + [Clarification(a.response.value.summary, a.response.value.at, at, Some(answer),
                              if NonEmpty(who) then who else None, Some(a.rework))],
           response := None)
      else a
    case ReplyAuthor(_, text, at, who) =>
      if AwaitsReply(a) then
        a.(authorReplies := a.authorReplies
             + [AuthorReply(text, at, if NonEmpty(who) then who else None, a.rework, a.response.value)],
           response := None)
      else a
    case Reopen(_, _, _, _, _) => Reopened(a, op)
    case DeliveryReset(_, _) => NextRevision(a).(agentAssigned := false)
  }

  predicate Names(op: Operation, id: string) {
    match op
    case Add(record) => record.id == id && id != ""
    case MarkSent(ids, _, _, _) => id in ids
    case _ => op.id == id
  }

  /** One operation changes the annotations it names and no others. */
  function Apply(ledger: Ledger, op: Operation): (after: Ledger)
    ensures op.Add? || after.Keys == ledger.Keys
    ensures forall id :: id in ledger ==>
              id in after && after[id] == (if Names(op, id) then Effect(ledger[id], op) else ledger[id])
  {
    if op.Add? then (if op.record.id == "" then ledger else ledger[op.record.id := op.record])
    else map id | id in ledger :: if Names(op, id) then Effect(ledger[id], op) else ledger[id]
  }

  function Replay(log: seq<Operation>): Ledger {
    if log == [] then map[] else Apply(Replay(log[..|log| - 1]), log[|log| - 1])
  }

  lemma {:induction false} ReplayAppends(log: seq<Operation>, op: Operation)
    ensures Replay(log + [op]) == Apply(Replay(log), op)
  {
    assert (log + [op])[..|log|] == log;
  }

  // ----- what holds of every ledger

  /** Every annotation enters the log once, without a receipt, a resolution or a history. */
  ghost predicate WellFormed(log: seq<Operation>) {
    forall i :: 0 <= i < |log| && log[i].Add? ==>
      log[i].record.id != "" && log[i].record.id !in Replay(log[..i])
      && log[i].record.response.None? && log[i].record.resolution.None? && log[i].record.authorReplies == []
  }

  predicate ReceiptsCurrent(a: Annotation) {
    && (a.response.Some? ==> a.response.value.revision == a.rework)
    && (a.resolution.Some? ==> a.resolution.value.revision == a.rework)
    && RepliesConsistent(a)
  }

  /** The text under this revision can no longer change in place. */
  predicate Committed(a: Annotation) {
    a.status != Draft || NeedsClosure(a)
  }

  lemma WellFormedPrefix(log: seq<Operation>, n: nat)
    requires WellFormed(log) && n <= |log|
    ensures WellFormed(log[..n])
  {
    forall i | 0 <= i < n ensures log[..n][..i] == log[..i] {}
  }

  predicate RepliesConsistent(a: Annotation) {
    forall i :: 0 <= i < |a.authorReplies| ==>
      a.authorReplies[i].response.revision == a.authorReplies[i].revision <= a.rework
  }

  lemma EffectKeepsReplies(a: Annotation, op: Operation)
    requires RepliesConsistent(a) && !op.Add?
    ensures RepliesConsistent(Effect(a, op))
  {
    if op.ReplyAuthor? && AwaitsReply(a) {
      assert Effect(a, op).authorReplies[..|a.authorReplies|] == a.authorReplies;
    } else {
      assert Effect(a, op).authorReplies == a.authorReplies && Effect(a, op).rework >= a.rework;
    }
  }

  lemma EffectKeepsReceipts(a: Annotation, op: Operation)
    requires ReceiptsCurrent(a) && !op.Add?
    ensures ReceiptsCurrent(Effect(a, op)) && Effect(a, op).id == a.id
  {
    EffectKeepsReplies(a, op);
  }

  /** A stored receipt or resolution always carries the current revision. */
  lemma {:induction false} ReceiptsCarryCurrentRevision(log: seq<Operation>, id: string)
    requires WellFormed(log) && id in Replay(log)
    ensures ReceiptsCurrent(Replay(log)[id]) && Replay(log)[id].id == id
  {
    var n := |log| - 1;
    var before := Replay(log[..n]);
    WellFormedPrefix(log, n);
    if log[n].Add? && log[n].record.id == id {
      assert Replay(log)[id] == log[n].record;
    } else {
      ReceiptsCarryCurrentRevision(log[..n], id);
      if !log[n].Add? {
        EffectKeepsReceipts(before[id], log[n]);
      }
    }
  }

  /** One operation raises the revision or leaves committed text alone; it never lowers it. */
  lemma EffectFreezesText(a: Annotation, op: Operation)
    requires !op.Add?
    ensures var b := Effect(a, op);
            && a.rework <= b.rework
            && (Committed(a) && b.rework == a.rework ==> b.note == a.note && Committed(b))
            && (b.note != a.note && b.rework == a.rework ==> op.Edit? && !Committed(a))
  {
  }

  /** What one more operation of a log makes of an annotation that is there already. */
  lemma {:induction false} ReplayStep(log: seq<Operation>, k: nat, id: string)
    requires WellFormed(log) && k < |log| && id in Replay(log[..k])
    ensures log[k].Add? ==> !Names(log[k], id)
    ensures id in Replay(log[..k + 1])
    ensures Replay(log[..k + 1])[id]
            == if Names(log[k], id) then Effect(Replay(log[..k])[id], log[k]) else Replay(log[..k])[id]
  {
    assert log[..k + 1] == log[..k] + [log[k]];
    ReplayAppends(log[..k], log[k]);
  }

  /** From one point of a log to another the revision does not fall, and a committed text under it stays. */
  ghost predicate TextStays(log: seq<Operation>, i: nat, j: nat, id: string)
    requires i <= |log| && j <= |log|
  {
    && id in Replay(log[..i]) && id in Replay(log[..j])
    && var a, b := Replay(log[..i])[id], Replay(log[..j])[id];
       && a.rework <= b.rework
       && (Committed(a) && b.rework == a.rework ==> b.note == a.note && Committed(b))
  }

  lemma {:induction false} CommittedStep(log: seq<Operation>, k: nat, id: string)
    requires WellFormed(log) && k < |log| && id in Replay(log[..k])
    ensures TextStays(log, k, k + 1, id)
  {
    ReplayStep(log, k, id);
    if Names(log[k], id) {
      EffectFreezesText(Replay(log[..k])[id], log[k]);
    }
  }

  lemma {:induction false} StaysFurther(log: seq<Operation>, i: nat, j: nat, k: nat, id: string)
    requires i <= |log| && j <= |log| && k <= |log| && TextStays(log, i, j, id) && TextStays(log, j, k, id)
    ensures TextStays(log, i, k, id)
  {
  }

  lemma {:induction false} TextStaysNext(log: seq<Operation>, i: nat, k: nat, id: string)
    requires WellFormed(log) && i <= |log| && k < |log| && TextStays(log, i, k, id)
    ensures TextStays(log, i, k + 1, id)
  {
    CommittedStep(log, k, id);
    StaysFurther(log, i, k, k + 1, id);
  }

  lemma {:induction false} TextStaysThere(log: seq<Operation>, i: nat, id: string)
    requires i <= |log| && id in Replay(log[..i])
    ensures TextStays(log, i, i, id)
  {
  }

  lemma {:induction false} TextStaysOn(log: seq<Operation>, i: nat, j: nat, id: string)
    requires WellFormed(log) && i <= j <= |log| && id in Replay(log[..i])
    ensures TextStays(log, i, j, id)
    decreases j
  {
    if i == j {
      TextStaysThere(log, i, id);
    } else {
      TextStaysOn(log, i, j - 1, id);
      TextStaysNext(log, i, j - 1, id);
    }
  }

  /** Once a revision was committed - sent, verified, handed over or closed - its text is final:
      whenever the same revision is seen later it has the same note. */
  lemma {:induction false} CommittedTextIsFinal(log: seq<Operation>, i: nat, j: nat, id: string)
    requires WellFormed(log) && i <= j <= |log|
    requires id in Replay(log[..i]) && Committed(Replay(log[..i])[id])
    ensures id in Replay(log[..j]) && Replay(log[..i])[id].rework <= Replay(log[..j])[id].rework
    ensures Replay(log[..j])[id].rework == Replay(log[..i])[id].rework ==>
              Replay(log[..j])[id].note == Replay(log[..i])[id].note && Committed(Replay(log[..j])[id])
  {
    TextStaysOn(log, i, j, id);
  }

  /** The k-th operation is a receipt that replay accepts. */
  ghost predicate AcceptedReceipt(log: seq<Operation>, k: nat)
    requires k < |log|
  {
    log[k].Respond? && log[k].id in Replay(log[..k]) && AcceptsResponse(Replay(log[..k])[log[k].id], log[k].response)
  }

  /** Two receipts ever accepted for the same annotation under the same revision answer the same text. */
  lemma SameRevisionSameText(log: seq<Operation>, i: nat, j: nat)
    requires WellFormed(log) && i < j < |log| && AcceptedReceipt(log, i) && AcceptedReceipt(log, j)
    requires log[i].id == log[j].id && log[i].response.revision == log[j].response.revision
    ensures Replay(log[..i])[log[i].id].note == Replay(log[..j])[log[j].id].note
  {
    CommittedTextIsFinal(log, i, j, log[i].id);
  }

  /** A note changes without a new revision exactly where an edit meets a draft that was never committed. */
  lemma InPlaceEdits(a: Annotation, op: Operation)
    requires op.Edit?
    ensures Effect(a, op).rework == a.rework && Effect(a, op).note == op.note
            <==> (a.status == Draft && !NeedsClosure(a)) || (a.status == Dropped && a.note == op.note)
    ensures a.status != Dropped ==>
              Effect(a, op).note == op.note && Effect(a, op).status == (if Committed(a) then Draft else a.status)
  {
  }

  // ----- which operations change what

  /** The operations that begin a new revision: going back for another round, taking back a delivery, and changing
      text that was committed. */
  predicate StartsRevision(a: Annotation, op: Operation) {
    op.Reopen? || op.DeliveryReset? || (op.Edit? && a.status != Dropped && (a.status != Draft || NeedsClosure(a)))
  }

  /** Revision and rounds count what begins a revision and what begins a round, and the note changes by an edit of
      what is not removed or with a new round that brings one. */
  lemma RevisionCounts(a: Annotation, op: Operation)
    requires !op.Add?
    ensures var b := Effect(a, op);
            && b.rework == a.rework + (if StartsRevision(a, op) then 1 else 0)
            && b.returned == a.returned + (if op.Reopen? then 1 else 0)
            && b.note == if op.Edit? && a.status != Dropped then op.note
                         else if op.Reopen? && op.newNote.GetOr("") != "" then op.newNote.value else a.note
  {
  }

  /** Nothing changes who wrote it and to whom, and its last edit and last reopening are remembered. */
  lemma AuthorStays(a: Annotation, op: Operation)
    requires !op.Add?
    ensures var b := Effect(a, op);
            && b.id == a.id && b.author == a.author && b.external == a.external && b.assignee == a.assignee
            && b.editedAt == (if op.Edit? && a.status != Dropped then Some(op.at) else a.editedAt)
            && b.reopened == if op.Reopen? then Some(Stamp(op.at, Some(op.signed.GetOr(a.author)))) else a.reopened
  {
  }

  /** Where an annotation stands after any operation. */
  lemma StatusAfter(a: Annotation, op: Operation)
    requires !op.Add?
    ensures Effect(a, op).status
            == if StartsRevision(a, op) || op.RouteAgent? then Draft
               else if op.Verify? || (op.OwnerResolution? && op.resolution.revision == a.rework) then Verified
               else if op.Drop? then Dropped
               else if (op.MarkSent? && a.resolution.None?)
                       || (op.ReplyOwner? && op.ownerPending && a.status == Draft) then Sent
               else a.status
  {
  }

  /** When, how and by whom it was sent is known from its last delivery until the next revision. */
  lemma DeliveryAfter(a: Annotation, op: Operation)
    requires !op.Add?
    ensures var b := Effect(a, op);
            if StartsRevision(a, op) then b.sentAt.None? && b.sentVia.None? && b.sentBy.None?
            else if op.MarkSent? && a.resolution.None? then
              && b.sentAt == Some(op.at) && b.sentVia == Some(op.via)
              && b.sentBy == if op.signed.GetOr("") != "" then op.signed else a.sentBy
            else if op.ReplyOwner? && op.ownerPending && a.status == Draft then
              b.sentAt == Some(op.reply.at) && b.sentVia == Some(OwnerPending) && b.sentBy == Some(op.reply.author)
            else b.sentAt == a.sentAt && b.sentVia == a.sentVia && b.sentBy == a.sentBy
  {
  }

  /** A receipt stands until it is replaced, answered, or the next revision begins; an owner's reply until the
      next one or the next revision. */
  lemma ReceiptAfter(a: Annotation, op: Operation)
    requires !op.Add?
    ensures var b := Effect(a, op);
            && b.response == (if StartsRevision(a, op) then None
                              else if op.Respond? && a.resolution.None? && a.status in {Sent, Verified}
                                      && op.response.revision == a.rework then Some(op.response)
                              else if a.status == Sent && a.response.Some? && a.response.value.revision == a.rework
                                      && (op.ReplyAuthor? || (op.Clarified?
                                            && a.response.value.outcome == NeedsClarification)) then None
                              else a.response)
            && b.ownerReply == if StartsRevision(a, op) then None
                               else if op.ReplyOwner? && (a.status == Sent || (a.status == Draft && op.ownerPending))
                               then Some(op.reply) else a.ownerReply
  {
  }

  /** Closures: who verified or resolved a revision is known until the next one begins, and so is a request to
      withdraw it; whether the owner has to close it is decided by the last operation that says so. */
  lemma ClosureAfter(a: Annotation, op: Operation)
    requires !op.Add?
    ensures var b := Effect(a, op);
            var resolves := op.OwnerResolution? && op.resolution.revision == a.rework;
            var withdraws := op.WithdrawRequest? && a.status in {Draft, Sent};
            && b.resolution == (if StartsRevision(a, op) then None
                                else if resolves then Some(op.resolution) else a.resolution)
            && b.verifiedAt == (if StartsRevision(a, op) then None
                                else if op.Verify? then Some(op.at)
                                else if resolves then Some(op.resolution.at) else a.verifiedAt)
            && b.verifiedBy == (if StartsRevision(a, op) then None
                                else if op.Verify? then op.signed
                                else if resolves then Some(op.resolution.who) else a.verifiedBy)
            && b.withdrawal == (if StartsRevision(a, op) then None
                                else if withdraws then Some(Stamp(op.at, Some(op.who))) else a.withdrawal)
            && b.needsOwnerClosure
               == if op.RouteAgent? || withdraws
                     || (StartsRevision(a, op) && !op.DeliveryReset? && op.ownerControlled) then Some(true)
                  else if resolves then Some(false) else a.needsOwnerClosure
  {
  }

  /** The agent has it from a hand-over or a delivery that is not only to the owner, until a new round or until the
      delivery is taken back; what it was told goes with the round. */
  lemma HandOverAfter(a: Annotation, op: Operation)
    requires !op.Add?
    ensures var b := Effect(a, op);
            && b.agentAssigned == (if op.Reopen? || op.DeliveryReset? then false
                                   else a.agentAssigned || op.RouteAgent?
                                        || (op.MarkSent? && a.resolution.None? && op.via != OwnerPending))
            && b.route == (if op.RouteAgent? then Some(Agent) else a.route)
            && b.agentContext
               == if op.Reopen? then None
                  else if op.SetAgentContext? then
                    if op.text == "" then None else Some(AgentContext(op.text, op.who, op.at, a.rework))
                  else if op.RouteAgent? && op.context.GetOr("") != "" then
                    Some(AgentContext(op.context.value, op.who, op.at, a.rework))
                  else a.agentContext
  {
  }

  /** What was asked and answered is only ever added to: a question that is answered or edited away is kept with
      its time and, if it was answered, with the answer, and a reply is kept with the receipt it replies to. */
  lemma DialogueGrows(a: Annotation, op: Operation)
    requires !op.Add?
    ensures var b := Effect(a, op);
            var asked := a.response.Some? && a.response.value.outcome == NeedsClarification;
            var current := a.status == Sent && a.response.Some? && a.response.value.revision == a.rework;
            && a.clarifications <= b.clarifications && a.authorReplies <= b.authorReplies
            && |b.clarifications| == |a.clarifications|
               + (if asked && ((op.Clarified? && current) || (op.Edit? && StartsRevision(a, op))) then 1 else 0)
            && |b.authorReplies| == |a.authorReplies| + (if op.ReplyAuthor? && current then 1 else 0)
            && (|b.clarifications| > |a.clarifications| ==>
                  var kept := b.clarifications[|a.clarifications|];
                  && kept.question == a.response.value.summary && kept.askedAt == a.response.value.at
                  && kept.answeredAt == op.at
                  && kept.answer == (if op.Clarified? then Some(op.answer) else None)
                  && kept.answeredBy == (if op.Clarified? && op.signed.GetOr("") != "" then op.signed else None)
                  && kept.revision == (if op.Clarified? then Some(a.rework) else None))
            && (|b.authorReplies| > |a.authorReplies| ==>
                  var kept := b.authorReplies[|a.authorReplies|];
                  && kept.text == op.text && kept.at == op.at && kept.revision == a.rework
                  && kept.who == (if op.signed.GetOr("") != "" then op.signed else None)
                  && kept.response == a.response.value)
  {
  }

  ghost predicate DialogueKept(a: Annotation, b: Annotation) {
    && |a.clarifications| <= |b.clarifications| && |a.authorReplies| <= |b.authorReplies|
    && (forall k :: 0 <= k < |a.clarifications| ==> b.clarifications[k] == a.clarifications[k])
    && (forall k :: 0 <= k < |a.authorReplies| ==> b.authorReplies[k] == a.authorReplies[k])
    && a.returned <= b.returned && a.author == b.author
  }

  lemma {:induction false} DialogueStep(log: seq<Operation>, k: nat, id: string)
    requires WellFormed(log) && k < |log| && id in Replay(log[..k])
    ensures KeptBetween(log, k, k + 1, id)
  {
    ReplayStep(log, k, id);
    if Names(log[k], id) {
      DialogueGrows(Replay(log[..k])[id], log[k]);
      RevisionCounts(Replay(log[..k])[id], log[k]);
      AuthorStays(Replay(log[..k])[id], log[k]);
    }
  }

  /** The ledgers at two points of a log. */
  ghost predicate KeptBetween(log: seq<Operation>, i: nat, j: nat, id: string)
    requires i <= |log| && j <= |log|
  {
    && id in Replay(log[..i]) && id in Replay(log[..j])
    && DialogueKept(Replay(log[..i])[id], Replay(log[..j])[id])
  }

  lemma {:induction false} KeptFurther(log: seq<Operation>, i: nat, j: nat, k: nat, id: string)
    requires i <= |log| && j <= |log| && k <= |log| && KeptBetween(log, i, j, id) && KeptBetween(log, j, k, id)
    ensures KeptBetween(log, i, k, id)
  {
  }

  lemma {:induction false} KeptNext(log: seq<Operation>, i: nat, k: nat, id: string)
    requires WellFormed(log) && i <= |log| && k < |log| && KeptBetween(log, i, k, id)
    ensures KeptBetween(log, i, k + 1, id)
  {
    DialogueStep(log, k, id);
    KeptFurther(log, i, k, k + 1, id);
  }

  lemma {:induction false} KeptThere(log: seq<Operation>, i: nat, id: string)
    requires i <= |log| && id in Replay(log[..i])
    ensures KeptBetween(log, i, i, id)
  {
  }

  /** Over a whole log nothing of it is lost. */
  lemma {:induction false} DialogueIsKept(log: seq<Operation>, i: nat, j: nat, id: string)
    requires WellFormed(log) && i <= j <= |log| && id in Replay(log[..i])
    ensures KeptBetween(log, i, j, id)
    decreases j
  {
    if i == j {
      KeptThere(log, i, id);
    } else {
      DialogueIsKept(log, i, j - 1, id);
      KeptNext(log, i, j - 1, id);
    }
  }
}
