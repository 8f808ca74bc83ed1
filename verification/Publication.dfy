/** Publishing component knowledge: a durable intent, then the formal document, then the record, with a
    crash possible between any two durable writes. */
module KnowledgePublication {
  import opened Prelude

  /** One line of a document's history; old records may lack the revision. */
  datatype Entry = Entry(at: string, operator: string, action: string, revision: Option<string>)

  /** A formal document: its revision stands for the digest of all its fields. */
  datatype Document = Document(id: string, revision: string, history: seq<Entry>)

  datatype Prepared = Prepared(document: Document, previousRevision: Option<string>, identical: bool)

  /** The part of a research record that publication changes. */
  datatype Facts = Facts(text: string, documentId: Option<string>, publishedRevision: Option<string>,
                         updateId: Option<string>, updateRevision: Option<string>, deleted: bool)

  datatype Intent = Intent(formal: Prepared, accepted: Facts)

  datatype Record = Record(facts: Facts, intent: Option<Intent>)

  /** The durable record, its copy in memory, the formal documents and the deletions; and three facts the
      program does not store: how often the current intent replaced its document, how often someone else
      changed that document since the intent, and the document the intent was prepared from. */
  datatype State = State(disk: Record, memory: Record, formals: map<string, Document>, deletions: set<string>,
                         writes: nat, edits: nat, base: Option<Document>)

  /** The durable writes of a publication after which the process may die. */
  datatype Crash = NoCrash | AfterIntent | AfterFormal

  function Filled(history: seq<Entry>, revision: string): seq<Entry> {
    if history != [] && history[|history| - 1].revision.None? then
      history[|history| - 1 := history[|history| - 1].(revision := Some(revision))]
    else history
  }

  /** What a save of this document will store, prepared from the present one. */
  function Prepare(previous: Option<Document>, id: string, revision: string, entry: Entry): Prepared {
    if previous.Some? && previous.value.revision == revision then
      Prepared(previous.value, Some(revision), true)
    else
      var history := if previous.Some? then Filled(previous.value.history, previous.value.revision) else [];
      Prepared(Document(id, revision, history + [entry.(revision := Some(revision))]),
               if previous.Some? then Some(previous.value.revision) else None, false)
  }

  datatype Found = Missing | Deleted | Present(document: Document)

  function Read(s: State, id: string): Found {
    if id in s.deletions then Deleted else if id in s.formals then Present(s.formals[id]) else Missing
  }

  // ----- finishing an intent

  datatype Decision = Refuse | WriteFormal | AlreadyThere

  function BaseHistory(formal: Prepared): seq<Entry> {
    if formal.document.history == [] then [] else formal.document.history[..|formal.document.history| - 1]
  }

  /** Whether the intent's document still has to be written, is there already, or has moved on. */
  function Decide(s: State, formal: Prepared): Decision {
    match Read(s, formal.document.id)
    case Deleted => Refuse
    case Missing => if formal.previousRevision.None? && !formal.identical then WriteFormal else Refuse
    case Present(current) =>
      if current.revision == formal.document.revision then AlreadyThere
      else if Some(current.revision) != formal.previousRevision then Refuse
      // A restored text carries its old revision again, but its history has moved on.
      else if current.history != BaseHistory(formal) then Refuse
      else if formal.identical then Refuse
      else WriteFormal
  }

  function Committed(s: State, record: Record): State {
    s.(disk := record, memory := record)
  }

  function Reloaded(s: State): State {
    s.(memory := s.disk)
  }

  function Written(s: State, document: Document): State {
    s.(formals := s.formals[document.id := document], writes := s.writes + 1)
  }

  /** Completes the intent in memory as far as the documents allow and the process survives.
      `verifies` says whether the last check of the prepared document passes. */
  function Finish(s: State, verifies: bool, crash: Crash): State
    requires s.memory.intent.Some?
  {
    var intent := s.memory.intent.value;
    match Decide(s, intent.formal)
    case Refuse => s
    case AlreadyThere => Committed(s, Record(intent.accepted, None))
    case WriteFormal =>
      if !verifies then s
      else
        var written := Written(s, intent.formal.document);
        if crash == AfterFormal then Reloaded(written) else Committed(written, Record(intent.accepted, None))
  }

  function FormalId(facts: Facts): Option<string> {
    if facts.documentId.Some? then facts.documentId else facts.updateId
  }

  function Baseline(facts: Facts): Option<string> {
    if facts.updateId.Some? then facts.updateRevision else facts.publishedRevision
  }

  function AcceptedFacts(facts: Facts, formal: Prepared, text: string): Facts {
    Facts(text, Some(formal.document.id), Some(formal.document.revision), None, None, facts.deleted)
  }

  predicate MayPrepare(s: State) {
    var formalId := FormalId(s.memory.facts);
    formalId.None? ||
    (Read(s, formalId.value).Present? && Baseline(s.memory.facts) == Some(Read(s, formalId.value).document.revision))
  }

  function Previous(s: State): Option<Document> {
    var formalId := FormalId(s.memory.facts);
    if formalId.Some? && Read(s, formalId.value).Present? then Some(Read(s, formalId.value).document) else None
  }

  function NewIntent(s: State, freshId: string, revision: string, entry: Entry, text: string): Intent {
    var formal := Prepare(Previous(s), FormalId(s.memory.facts).GetOr(freshId), revision, entry);
    Intent(formal, AcceptedFacts(s.memory.facts, formal, text))
  }

  /** Publishing finishes a pending intent, or stores a new one and then finishes it. */
  function Publish(s: State, freshId: string, revision: string, entry: Entry, text: string, verifies: bool,
                   crash: Crash): State {
    if s.memory.facts.deleted then s
    else if s.memory.intent.Some? then Finish(s, verifies, crash)
    else if !MayPrepare(s) then s
    else
      var stored := Committed(s, s.memory.(intent := Some(NewIntent(s, freshId, revision, entry, text))))
                    .(writes := 0, edits := 0, base := Previous(s));
      if crash == AfterIntent then Reloaded(stored) else Finish(stored, verifies, crash)
  }

  function Recover(s: State, verifies: bool, crash: Crash): State {
    if s.memory.intent.None? || s.memory.facts.deleted then s else Finish(s, verifies, crash)
  }

  /** What readers are shown: the accepted text only once the formal document holds its revision. */
  function View(s: State): Facts {
    if s.memory.intent.Some? then
      var formal := s.memory.intent.value.formal;
      var found := Read(s, formal.document.id);
      if found.Present? && found.document.revision == formal.document.revision
      then s.memory.intent.value.accepted.(deleted := s.memory.facts.deleted)
      else s.memory.facts
    else s.memory.facts
  }

  // ----- everything that can happen

  datatype Event =
    | Publishes(freshId: string, revision: string, entry: Entry, text: string, verifies: bool, crash: Crash)
    | Recovers(verifies: bool, crash: Crash)
    | Edits(id: string, revision: string, entry: Entry)
    | Creates(id: string, revision: string, entry: Entry)
    | Deletes(id: string)
    | BeginsUpdate
    | Removes
    | Dies

  predicate IntentFor(s: State, id: string) {
    s.memory.intent.Some? && s.memory.intent.value.formal.document.id == id
  }

  /** New documents get identifiers that were never used. */
  predicate Enabled(s: State, e: Event) {
    match e
    case Publishes(freshId, _, _, _, _, _) => freshId !in s.formals && freshId !in s.deletions
    case Edits(id, _, _) => id in s.formals && id !in s.deletions
    case Creates(id, _, _) => id !in s.formals && id !in s.deletions && !IntentFor(s, id)
    case Deletes(id) => id in s.formals
    case _ => true
  }

  /** Someone else saves or restores: every save extends the history. */
  function Saved(d: Document, revision: string, entry: Entry): Document {
    Document(d.id, revision, Filled(d.history, d.revision) + [entry.(revision := Some(revision))])
  }

  function BeginUpdate(s: State): State {
    var shown := View(s);
    var formalId := FormalId(shown);
    if shown.deleted || formalId.None? || !Read(s, formalId.value).Present? then s
    else
      var published := Read(s, formalId.value).document;
      Committed(s, Record(shown.(documentId := None, updateId := Some(published.id),
                                 updateRevision := Some(published.revision)), None))
  }

  function Next(s: State, e: Event): State
    requires Enabled(s, e)
  {
    match e
    case Publishes(freshId, revision, entry, text, verifies, crash) =>
      Publish(s, freshId, revision, entry, text, verifies, crash)
    case Recovers(verifies, crash) => Recover(s, verifies, crash)
    case Edits(id, revision, entry) =>
      s.(formals := s.formals[id := Saved(s.formals[id], revision, entry)],
         edits := if IntentFor(s, id) then s.edits + 1 else s.edits)
    case Creates(id, revision, entry) =>
      s.(formals := s.formals[id := Document(id, revision, [entry.(revision := Some(revision))])])
    case Deletes(id) =>
      s.(formals := s.formals - {id}, deletions := s.deletions + {id},
         edits := if IntentFor(s, id) then s.edits + 1 else s.edits)
    case BeginsUpdate => BeginUpdate(s)
    case Removes => Committed(s, s.memory.(facts := s.memory.facts.(deleted := true)))
    case Dies => Reloaded(s)
  }

  // ----- the invariant

  /** The intent was prepared from the base document, as a save of it. */
  ghost predicate PreparedFrom(base: Option<Document>, formal: Prepared) {
    exists id, revision, entry :: formal == Prepare(base, id, revision, entry)
                                  && (base.Some? ==> id == base.value.id && base.value.history != [])
  }

  /** What an intent will make of the record names its document and revision. */
  predicate AcceptedFor(accepted: Facts, document: Document) {
    && accepted.documentId == Some(document.id) && accepted.publishedRevision == Some(document.revision)
    && accepted.updateId.None? && !accepted.deleted
  }

  ghost predicate IntentInv(s: State) {
    s.memory.intent.Some? ==>
      var formal := s.memory.intent.value.formal;
      var id := formal.document.id;
      && PreparedFrom(s.base, formal)
      && AcceptedFor(s.memory.intent.value.accepted, formal.document)
      && s.writes <= 1
      && (formal.identical ==> s.writes == 0)
      // Nobody touched the document: it is exactly what the intent was prepared from.
      && (s.writes == 0 && s.edits == 0 ==>
            Read(s, id) == (if s.base.Some? then Present(s.base.value) else Missing))
      && (s.writes == 1 && s.edits == 0 ==> Read(s, id) == Present(formal.document))
      // Once touched it is deleted or its history is longer than the one it was prepared from.
      && (s.writes > 0 || s.edits > 0 ==>
            id in s.deletions
            || (id in s.formals && |s.formals[id].history| >= (if s.base.Some? then |s.base.value.history| else 0) + 1))
  }

  ghost predicate Inv(s: State) {
    && s.memory == s.disk
    && (forall id :: id in s.formals ==> s.formals[id].id == id && s.formals[id].history != [])
    && (forall id :: id in s.formals ==> id !in s.deletions)
    && IntentInv(s)
  }

  lemma PrepareFacts(base: Option<Document>, formal: Prepared)
    requires PreparedFrom(base, formal)
    ensures base.Some? ==> formal.document.id == base.value.id && formal.previousRevision == Some(base.value.revision)
    ensures base.None? ==> formal.previousRevision.None? && !formal.identical && |formal.document.history| == 1
    ensures formal.identical ==> base == Some(formal.document)
    ensures base.Some? && !formal.identical ==>
              |formal.document.history| == |base.value.history| + 1 && formal.document.revision != base.value.revision
              && BaseHistory(formal) == Filled(base.value.history, base.value.revision)
    ensures |BaseHistory(formal)| < |formal.document.history|
  {
    var id, revision, entry :| formal == Prepare(base, id, revision, entry)
                               && (base.Some? ==> id == base.value.id && base.value.history != []);
    if base.Some? && base.value.revision != revision {
      var filled := Filled(base.value.history, base.value.revision);
      assert |filled| == |base.value.history|;
      assert (filled + [entry.(revision := Some(revision))])[..|filled|] == filled;
    }
  }

  // ----- writing the formal document

  /** The formal document is written only when it is still exactly the one the intent was prepared from
      - also after a change and a change back - and for the first time. */
  lemma WritesOnlyUntouched(s: State)
    requires Inv(s) && s.memory.intent.Some? && Decide(s, s.memory.intent.value.formal) == WriteFormal
    ensures s.writes == 0 && s.edits == 0
    ensures Read(s, s.memory.intent.value.formal.document.id)
            == (if s.base.Some? then Present(s.base.value) else Missing)
  {
    PrepareFacts(s.base, s.memory.intent.value.formal);
  }

  /** The record is committed only when the formal document holds the accepted revision. */
  lemma CommitsOnlyPublished(s: State, verifies: bool, crash: Crash)
    requires Inv(s) && s.memory.intent.Some? && Finish(s, verifies, crash).memory.intent.None?
    ensures var intent := s.memory.intent.value;
            var after := Finish(s, verifies, crash);
            && after.disk == Record(intent.accepted, None)
            && Read(after, intent.formal.document.id).Present?
            && Read(after, intent.formal.document.id).document.revision == intent.formal.document.revision
  {
  }

  lemma FinishKeepsInv(s: State, verifies: bool, crash: Crash)
    requires Inv(s) && s.memory.intent.Some?
    ensures Inv(Finish(s, verifies, crash))
    ensures Finish(s, verifies, crash).writes <= 1
  {
    var formal := s.memory.intent.value.formal;
    PrepareFacts(s.base, formal);
    if Decide(s, formal) == WriteFormal {
      WritesOnlyUntouched(s);
    }
  }

  lemma StoredKeepsInv(s: State, freshId: string, revision: string, entry: Entry, text: string)
    requires Inv(s) && s.memory.intent.None? && MayPrepare(s) && !s.memory.facts.deleted
    requires freshId !in s.formals && freshId !in s.deletions
    ensures var stored := Committed(s, s.memory.(intent := Some(NewIntent(s, freshId, revision, entry, text))))
                          .(writes := 0, edits := 0, base := Previous(s));
            Inv(stored)
  {
    var id := FormalId(s.memory.facts).GetOr(freshId);
    var formal := Prepare(Previous(s), id, revision, entry);
    assert PreparedFrom(Previous(s), formal);
  }

  lemma EditKeepsInv(s: State, e: Event)
    requires Inv(s) && Enabled(s, e) && (e.Edits? || e.Creates? || e.Deletes?)
    ensures Inv(Next(s, e))
  {
    if s.memory.intent.Some? {
      PrepareFacts(s.base, s.memory.intent.value.formal);
    }
  }

  lemma StepKeepsInv(s: State, e: Event)
    requires Inv(s) && Enabled(s, e)
    ensures Inv(Next(s, e))
  {
    match e
    case Publishes(freshId, revision, entry, text, verifies, crash) =>
      if !s.memory.facts.deleted {
        if s.memory.intent.Some? {
          FinishKeepsInv(s, verifies, crash);
        } else if MayPrepare(s) {
          StoredKeepsInv(s, freshId, revision, entry, text);
          var stored := Committed(s, s.memory.(intent := Some(NewIntent(s, freshId, revision, entry, text))))
                        .(writes := 0, edits := 0, base := Previous(s));
          FinishKeepsInv(stored, verifies, crash);
        }
      }
    case Recovers(verifies, crash) =>
      if s.memory.intent.Some? {
        FinishKeepsInv(s, verifies, crash);
      }
    case Edits(_, _, _) => EditKeepsInv(s, e);
    case Creates(_, _, _) => EditKeepsInv(s, e);
    case Deletes(_) => EditKeepsInv(s, e);
    case _ =>
  }

  // ----- whole runs

  ghost predicate Execution(s: State, events: seq<Event>, last: State)
    decreases |events|
  {
    if events == [] then s == last
    else Enabled(s, events[0]) && Execution(Next(s, events[0]), events[1..], last)
  }

  lemma {:induction false} ExecutionKeepsInv(s: State, events: seq<Event>, last: State)
    requires Inv(s) && Execution(s, events, last)
    ensures Inv(last)
    decreases |events|
  {
    if events != [] {
      StepKeepsInv(s, events[0]);
      ExecutionKeepsInv(Next(s, events[0]), events[1..], last);
    }
  }

  /** Whatever publishes, recoveries, crashes, edits, restores and deletions happened: an intent has
      replaced its document at most once, and a document someone else touched is never replaced again. */
  lemma {:induction false} AtMostOnce(s: State, events: seq<Event>, last: State, verifies: bool, crash: Crash)
    requires Inv(s) && Execution(s, events, last) && last.memory.intent.Some?
    ensures last.writes <= 1
    ensures Finish(last, verifies, crash).formals != last.formals ==> last.writes == 0 && last.edits == 0
  {
    ExecutionKeepsInv(s, events, last);
    if Decide(last, last.memory.intent.value.formal) == WriteFormal {
      WritesOnlyUntouched(last);
    }
  }

  /** What readers see of a pending intent depends on the formal document alone. */
  lemma ViewFollowsFormal(s: State)
    requires Inv(s) && s.memory.intent.Some? && !s.memory.facts.deleted
    ensures var intent := s.memory.intent.value;
            View(s) == if Decide(s, intent.formal) == AlreadyThere then intent.accepted else s.memory.facts
  {
  }

  /** Dying between the document's write and the record's is invisible: readers see the accepted text at once,
      as after an undisturbed publication. */
  lemma CrashWindowInvisible(s: State)
    requires Inv(s) && s.memory.intent.Some? && !s.memory.facts.deleted
    requires Decide(s, s.memory.intent.value.formal) == WriteFormal
    ensures View(Finish(s, true, AfterFormal)) == View(Finish(s, true, NoCrash)) == s.memory.intent.value.accepted
    ensures View(s) == s.memory.facts
  {
    WrittenIsThere(s, s.memory.intent.value.formal);
    ViewFollowsFormal(s);
    FinishKeepsInv(s, true, AfterFormal);
    ViewFollowsFormal(Finish(s, true, AfterFormal));
  }

  // ----- what readers were ever shown

  /** The formal documents and the revisions they hold now. */
  function Revisions(s: State): set<(string, string)> {
    set id | id in s.formals :: (id, s.formals[id].revision)
  }

  /** The revisions that formal documents held after any of the events, and before the first. */
  ghost function Held(s: State, events: seq<Event>): set<(string, string)>
    decreases |events|
  {
    if events == [] || !Enabled(s, events[0]) then Revisions(s)
    else Revisions(s) + Held(Next(s, events[0]), events[1..])
  }

  /** A published revision belongs to a formal document that held it. */
  predicate VouchedFor(facts: Facts, revisions: set<(string, string)>) {
    facts.publishedRevision.Some? ==>
      FormalId(facts).Some? && (FormalId(facts).value, facts.publishedRevision.value) in revisions
  }

  predicate Vouched(s: State, revisions: set<(string, string)>) {
    VouchedFor(s.memory.facts, revisions)
  }

  /** A record's revision changes only to one that a formal document holds. */
  lemma FinishVouches(s: State, verifies: bool, crash: Crash, revisions: set<(string, string)>)
    requires Inv(s) && s.memory.intent.Some? && Vouched(s, revisions)
    ensures var after := Finish(s, verifies, crash); Vouched(after, revisions + Revisions(after))
  {
    var after := Finish(s, verifies, crash);
    if after.memory.intent.None? {
      CommitsOnlyPublished(s, verifies, crash);
      var id := s.memory.intent.value.formal.document.id;
      assert id in after.formals;
    }
  }

  lemma StepVouches(s: State, e: Event, revisions: set<(string, string)>)
    requires Inv(s) && Enabled(s, e) && Vouched(s, revisions) && Revisions(s) <= revisions
    ensures Vouched(Next(s, e), revisions + Revisions(Next(s, e)))
  {
    match e
    case Publishes(freshId, revision, entry, text, verifies, crash) =>
      if !s.memory.facts.deleted {
        if s.memory.intent.Some? {
          FinishVouches(s, verifies, crash, revisions);
        } else if MayPrepare(s) {
          StoredKeepsInv(s, freshId, revision, entry, text);
          var stored := Committed(s, s.memory.(intent := Some(NewIntent(s, freshId, revision, entry, text))))
                        .(writes := 0, edits := 0, base := Previous(s));
          FinishVouches(stored, verifies, crash, revisions);
        }
      }
    case Recovers(verifies, crash) =>
      if s.memory.intent.Some? && !s.memory.facts.deleted {
        FinishVouches(s, verifies, crash, revisions);
      }
    case BeginsUpdate => ShownIsVouched(s, revisions);
    case _ =>
  }

  /** What readers are shown as published some formal document holds, unless the record says so itself. */
  lemma ShownIsVouched(s: State, revisions: set<(string, string)>)
    requires Inv(s) && Vouched(s, revisions) && Revisions(s) <= revisions
    ensures VouchedFor(View(s), revisions)
  {
    if s.memory.intent.Some? {
      var id := s.memory.intent.value.formal.document.id;
      assert id in s.formals ==> (id, s.formals[id].revision) in Revisions(s);
    }
  }

  /** Over every run, whatever publishes, crashes, recoveries, edits, restores and deletions it holds: readers are
      never shown a published revision that the document shown with it never held. */
  lemma {:induction false} ShownWasHeld(s: State, events: seq<Event>, last: State, revisions: set<(string, string)>)
    requires Inv(s) && Execution(s, events, last) && Vouched(s, revisions) && Revisions(s) <= revisions
    ensures VouchedFor(View(last), revisions + Held(s, events))
    decreases |events|
  {
    if events == [] {
      ShownIsVouched(s, revisions);
    } else {
      var next := Next(s, events[0]);
      StepKeepsInv(s, events[0]);
      StepVouches(s, events[0], revisions);
      ShownWasHeld(next, events[1..], last, revisions + Revisions(next));
      assert Revisions(next) <= Held(next, events[1..]);
    }
  }

  /** A crash between the document's write and the record's loses nothing: recovering ends where the
      uninterrupted publication would have, without writing the document again. */
  lemma RecoveryCompletes(s: State, verifies: bool)
    requires Inv(s) && s.memory.intent.Some? && !s.memory.facts.deleted
    requires Decide(s, s.memory.intent.value.formal) == WriteFormal && verifies
    ensures Recover(Finish(s, verifies, AfterFormal), verifies, NoCrash) == Finish(s, verifies, NoCrash)
  {
    var formal := s.memory.intent.value.formal;
    assert s.memory == s.disk;
    WrittenIsThere(s, formal);
  }

  lemma WrittenIsThere(s: State, formal: Prepared)
    requires s.memory == s.disk && Decide(s, formal) == WriteFormal
    ensures var died := Reloaded(Written(s, formal.document));
            died.memory == s.memory && Decide(died, formal) == AlreadyThere
  {
  }

  // ----- when an undisturbed publication can be completed

  /** A fresh intent nobody interfered with is completed exactly when it is unchanged, creates its document,
      or the last history entry of its base already carries a revision: the prepared history fills a missing
      revision in, and then never compares equal to the stored one. */
  lemma UndisturbedCompletes(s: State)
    requires Inv(s) && s.memory.intent.Some? && s.writes == 0 && s.edits == 0
    ensures var formal := s.memory.intent.value.formal;
            Finish(s, true, NoCrash).memory.intent.None? <==>
              formal.identical || s.base.None?
              || s.base.value.history[|s.base.value.history| - 1].revision.Some?
  {
    var formal := s.memory.intent.value.formal;
    PrepareFacts(s.base, formal);
    if s.base.Some? && !formal.identical {
      var history := s.base.value.history;
      assert Filled(history, s.base.value.revision) == history <==> history[|history| - 1].revision.Some?;
    }
  }

  /** Nothing stands in the way of a save: the document is new, keeps its revision, or its history carries one. */
  predicate Unhindered(s: State, revision: string) {
    var id := FormalId(s.memory.facts);
    id.None? || (id.value in s.formals && id.value !in s.deletions
                 && var d := s.formals[id.value];
                    d.revision == revision || (d.history != [] && d.history[|d.history| - 1].revision.Some?))
  }

  /** The published text, revision and document are the record's own. */
  predicate ShowsText(facts: Facts, formals: map<string, Document>, text: string, revision: string) {
    && facts.text == text && facts.publishedRevision == Some(revision) && !facts.deleted
    && facts.documentId.Some? && facts.updateId.None? && facts.updateRevision.None?
    && facts.documentId.value in formals && formals[facts.documentId.value].revision == revision
  }

  lemma StoredIsUntouched(s: State, freshId: string, revision: string, entry: Entry, text: string)
    requires Inv(s) && s.memory.intent.None? && !s.memory.facts.deleted && MayPrepare(s) && Unhindered(s, revision)
    requires freshId !in s.formals && freshId !in s.deletions
    ensures var stored := Publish(s, freshId, revision, entry, text, true, AfterIntent);
            && Inv(stored) && stored.memory.intent.Some? && stored.formals == s.formals
            && stored.deletions == s.deletions && stored.memory.facts == s.memory.facts
            && var intent := stored.memory.intent.value;
               && ShowsText(intent.accepted, map[intent.formal.document.id := intent.formal.document], text, revision)
               && intent.formal.document.id == FormalId(s.memory.facts).GetOr(freshId)
               && Decide(stored, intent.formal) != Refuse
  {
    StoredKeepsInv(s, freshId, revision, entry, text);
    var stored := Publish(s, freshId, revision, entry, text, true, AfterIntent);
    var formal := stored.memory.intent.value.formal;
    PrepareFacts(stored.base, formal);
    UndisturbedCompletes(stored);
  }

  /** What is published is what readers get. A publication nothing stands in the way of leaves the record with the
      published text under the revision its formal document then holds; dying between the two writes, readers see
      that text already; dying before, they see what they saw. */
  lemma PublishedTextIsShown(s: State, freshId: string, revision: string, entry: Entry, text: string)
    requires Inv(s) && s.memory.intent.None? && !s.memory.facts.deleted && MayPrepare(s) && Unhindered(s, revision)
    requires freshId !in s.formals && freshId !in s.deletions
    ensures var after := Publish(s, freshId, revision, entry, text, true, NoCrash);
            after.memory.intent.None? && after.disk == after.memory
            && ShowsText(after.memory.facts, after.formals, text, revision)
            && after.memory.facts.documentId == Some(FormalId(s.memory.facts).GetOr(freshId))
    ensures var died := Publish(s, freshId, revision, entry, text, true, AfterFormal);
            ShowsText(View(died), died.formals, text, revision)
    ensures var died := Publish(s, freshId, revision, entry, text, true, AfterIntent);
            died.formals == s.formals && (FormalId(s.memory.facts).None? ==> View(died) == s.memory.facts)
  {
    StoredIsUntouched(s, freshId, revision, entry, text);
    var stored := Publish(s, freshId, revision, entry, text, true, AfterIntent);
    assert stored.memory == stored.disk;
    if Decide(stored, stored.memory.intent.value.formal) == WriteFormal {
      WrittenIsThere(stored, stored.memory.intent.value.formal);
    }
  }

  /** A save appends its entry to the history it found, under its own revision, and touches no other document;
      saving the same revision again writes nothing. */
  lemma HistoryGrows(s: State, freshId: string, revision: string, entry: Entry, text: string)
    requires Inv(s) && s.memory.intent.None? && !s.memory.facts.deleted && MayPrepare(s) && Unhindered(s, revision)
    requires freshId !in s.formals && freshId !in s.deletions
    ensures var id := FormalId(s.memory.facts).GetOr(freshId);
            var before := if id in s.formals then s.formals[id].history else [];
            var after := Publish(s, freshId, revision, entry, text, true, NoCrash).formals;
            if id in s.formals && s.formals[id].revision == revision then after == s.formals
            else after == s.formals[id := Document(id, revision, before + [entry.(revision := Some(revision))])]
  {
    StoredIsUntouched(s, freshId, revision, entry, text);
    var stored := Publish(s, freshId, revision, entry, text, true, AfterIntent);
    PrepareFacts(stored.base, stored.memory.intent.value.formal);
  }

  /** While an intent is pending, publishing again only finishes it, as a recovery does. */
  lemma PendingIsFinished(s: State, freshId: string, revision: string, entry: Entry, text: string, verifies: bool,
                          crash: Crash)
    requires s.memory.intent.Some?
    ensures Publish(s, freshId, revision, entry, text, verifies, crash) == Recover(s, verifies, crash)
    ensures !s.memory.facts.deleted ==> Recover(s, verifies, crash) == Finish(s, verifies, crash)
    ensures s.memory.facts.deleted ==> Recover(s, verifies, crash) == s
  {
  }

  /** A publication is refused if someone else saved the document since the record was published or its update
      began, if the document is gone, or if the record is removed; and if its save is not what a new preparation
      gives any more, the document is left alone. */
  lemma StaleIsRefused(s: State, freshId: string, revision: string, entry: Entry, text: string, verifies: bool,
                       crash: Crash)
    requires s.memory.intent.None?
    ensures s.memory.facts.deleted ==> Publish(s, freshId, revision, entry, text, verifies, crash) == s
    ensures var facts := s.memory.facts;
            var since := if facts.updateId.Some? then facts.updateRevision else facts.publishedRevision;
            var id := FormalId(facts);
            id.Some? && (id.value in s.deletions || id.value !in s.formals
                         || since != Some(s.formals[id.value].revision)) ==>
              Publish(s, freshId, revision, entry, text, verifies, crash) == s
    ensures Publish(s, freshId, revision, entry, text, false, crash).formals == s.formals
  {
  }

  /** What is removed is shown as removed, and neither publishing nor recovering nor an update changes anything. */
  lemma RemovedStays(s: State, freshId: string, revision: string, entry: Entry, text: string, verifies: bool,
                     crash: Crash)
    ensures View(s).deleted == s.memory.facts.deleted
    ensures var removed := Next(s, Removes);
            && View(removed).deleted && removed.formals == s.formals && removed.deletions == s.deletions
            && removed.disk == removed.memory == s.memory.(facts := s.memory.facts.(deleted := true))
            && Publish(removed, freshId, revision, entry, text, verifies, crash) == removed
            && Recover(removed, verifies, crash) == removed && Next(removed, BeginsUpdate) == removed
  {
  }

  /** Everyone else's save appends an entry that carries its revision to what was there, and touches nothing else. */
  lemma OthersSave(s: State, e: Event)
    requires Inv(s) && Enabled(s, e) && (e.Edits? || e.Creates?)
    ensures var after := Next(s, e);
            && e.id in after.formals && after.formals == s.formals[e.id := after.formals[e.id]]
            && after.memory == s.memory && after.disk == s.disk && after.deletions == s.deletions
            && var before := if e.Edits? then s.formals[e.id].history else [];
               var now := after.formals[e.id];
               && now.revision == e.revision && |now.history| == |before| + 1
               && now.history[|before|] == e.entry.(revision := Some(e.revision))
               && forall i :: 0 <= i < |before| && before[i].revision.Some? ==> now.history[i] == before[i]
  {
  }

  /** Beginning an update keeps what readers see and binds the record to the document as it is now, so that a
      publication is possible until someone else saves it. */
  lemma UpdateBinds(s: State)
    requires Inv(s)
    ensures var after := Next(s, BeginsUpdate);
            after != s ==>
              && after.formals == s.formals && after.memory.intent.None? && after.memory.facts.text == View(s).text
              && View(after) == after.memory.facts && MayPrepare(after)
              && after.memory.facts.documentId.None? && after.memory.facts.updateId == FormalId(View(s))
              && after.memory.facts.updateRevision == Some(s.formals[FormalId(View(s)).value].revision)
    ensures !View(s).deleted && FormalId(View(s)).Some? && FormalId(View(s)).value in s.formals ==>
              FormalId(Next(s, BeginsUpdate).memory.facts).Some? && Next(s, BeginsUpdate).memory.intent.None?
  {
  }

  /** Such a stuck publication exists: an update of a document whose only history entry has no revision. */
  lemma LegacyDocumentNeverPublishes()
    ensures var legacy := Document("kd", "A", [Entry("t0", "u", "upload", None)]);
            var facts := Facts("new", None, None, Some("kd"), Some("A"), false);
            var s := State(Record(facts, None), Record(facts, None), map["kd" := legacy], {}, 0, 0, None);
            var after := Publish(s, "fresh", "B", Entry("t1", "u", "replace", None), "new", true, NoCrash);
            && Inv(s) && MayPrepare(s) && after.formals == s.formals && after.memory.intent.Some?
            && forall verifies, crash :: Finish(after, verifies, crash) == after
  {
  }

  // ----- the publisher, changing its files and its memory step by step

  class ComponentPublisher {
    var disk: Record
    var memory: Record
    var formals: map<string, Document>
    var deletions: set<string>
    ghost var writes: nat
    ghost var edits: nat
    ghost var base: Option<Document>

    ghost function Model(): State
      reads this
    {
      State(disk, memory, formals, deletions, writes, edits, base)
    }

    /** A start: memory is what was stored, whatever happened to a pending intent before. */
    constructor (stored: Record, formals: map<string, Document>, deletions: set<string>,
                 ghost writes: nat, ghost edits: nat, ghost base: Option<Document>)
      requires Inv(State(stored, stored, formals, deletions, writes, edits, base))
      ensures Model() == State(stored, stored, formals, deletions, writes, edits, base) && Inv(Model())
    {
      disk, memory := stored, stored;
      this.formals, this.deletions := formals, deletions;
      this.writes, this.edits, this.base := writes, edits, base;
    }

    method ReadDocument(id: string) returns (found: Found)
      ensures found == Read(Model(), id)
    {
      if id in deletions {
        return Deleted;
      }
      return if id in formals then Present(formals[id]) else Missing;
    }

    method CommitRecord(record: Record)
      modifies this`disk, this`memory
      ensures disk == record && memory == record
    {
      disk := record;
      memory := record;
    }

    /** The document replaced on disk after its base was checked once more; refused without a trace otherwise. */
    method WritePrepared(formal: Prepared, verifies: bool) returns (written: bool)
      modifies this`formals, this`writes
      ensures written <==> verifies && !formal.identical
                           && Read(old(Model()), formal.document.id) != Deleted
                           && (match Read(old(Model()), formal.document.id)
                               case Present(current) => formal.previousRevision == Some(current.revision)
                               case _ => formal.previousRevision.None?)
      ensures written ==> formals == old(formals)[formal.document.id := formal.document] && writes == old(writes) + 1
      ensures !written ==> formals == old(formals) && writes == old(writes)
    {
      var found := ReadDocument(formal.document.id);
      if found.Deleted? {
        return false;
      }
      var present := if found.Present? then Some(found.document.revision) else None;
      if present != formal.previousRevision || !verifies || formal.identical {
        return false;
      }
      formals := formals[formal.document.id := formal.document];
      writes := writes + 1;
      return true;
    }

    /** Dies after the document's write if `crash` says so; memory is then whatever was stored. */
    method FinishPublication(verifies: bool, crash: Crash)
      requires Inv(Model()) && memory.intent.Some?
      modifies this
      ensures Model() == Finish(old(Model()), verifies, crash) && Inv(Model())
    {
      FinishKeepsInv(Model(), verifies, crash);
      PrepareFacts(base, memory.intent.value.formal);
      var intent := memory.intent.value;
      var formal := intent.formal;
      var current := ReadDocument(formal.document.id);
      if current.Deleted? {
        return;
      }
      if current.Present? && current.document.revision != formal.document.revision {
        if Some(current.document.revision) != formal.previousRevision {
          return;
        }
        if current.document.history != BaseHistory(formal) {
          return;
        }
      }
      if !current.Present? || current.document.revision != formal.document.revision {
        var written := WritePrepared(formal, verifies);
        if !written {
          return;
        }
        if crash == AfterFormal {
          memory := disk;
          return;
        }
      }
      CommitRecord(Record(intent.accepted, None));
    }

    method PublishRecord(freshId: string, revision: string, entry: Entry, text: string, verifies: bool, crash: Crash)
      requires Inv(Model()) && freshId !in formals && freshId !in deletions
      modifies this
      ensures Model() == Publish(old(Model()), freshId, revision, entry, text, verifies, crash) && Inv(Model())
    {
      if memory.facts.deleted {
        return;
      }
      if memory.intent.Some? {
        FinishPublication(verifies, crash);
        return;
      }
      var formalId := FormalId(memory.facts);
      var previous: Option<Document> := None;
      if formalId.Some? {
        var found := ReadDocument(formalId.value);
        if !found.Present? || Baseline(memory.facts) != Some(found.document.revision) {
          return;
        }
        previous := Some(found.document);
      }
      StoreIntent(freshId, revision, entry, text, formalId, previous);
      if crash == AfterIntent {
        memory := disk;
        return;
      }
      FinishPublication(verifies, crash);
    }

    /** The new intent becomes durable before any document is touched. */
    method StoreIntent(freshId: string, revision: string, entry: Entry, text: string, formalId: Option<string>,
                       previous: Option<Document>)
      requires Inv(Model()) && freshId !in formals && freshId !in deletions
      requires !memory.facts.deleted && memory.intent.None? && MayPrepare(Model())
      requires formalId == FormalId(memory.facts) && previous == Previous(Model())
      modifies this
      ensures var intent := NewIntent(old(Model()), freshId, revision, entry, text);
              Model() == Committed(old(Model()), old(memory).(intent := Some(intent)))
                         .(writes := 0, edits := 0, base := Previous(old(Model())))
      ensures Inv(Model()) && memory.intent.Some?
    {
      StoredKeepsInv(Model(), freshId, revision, entry, text);
      var formal := Prepare(previous, formalId.GetOr(freshId), revision, entry);
      CommitRecord(memory.(intent := Some(Intent(formal, AcceptedFacts(memory.facts, formal, text)))));
      writes, edits, base := 0, 0, previous;
    }

    /** What every start does with an intent it finds. */
    method RecoverPublication(verifies: bool, crash: Crash)
      requires Inv(Model())
      modifies this
      ensures Model() == Recover(old(Model()), verifies, crash) && Inv(Model())
    {
      if memory.intent.Some? && !memory.facts.deleted {
        FinishPublication(verifies, crash);
      }
    }
  }

  /** A new process opens what a dead one stored and finishes the intent it finds. */
  method StartAfter(dead: ComponentPublisher, verifies: bool) returns (publisher: ComponentPublisher)
    requires Inv(dead.Model())
    ensures fresh(publisher) && Inv(publisher.Model())
    ensures publisher.Model() == Recover(dead.Model(), verifies, NoCrash)
  {
    publisher := new ComponentPublisher(dead.disk, dead.formals, dead.deletions, dead.writes, dead.edits, dead.base);
    publisher.RecoverPublication(verifies, NoCrash);
  }
}
