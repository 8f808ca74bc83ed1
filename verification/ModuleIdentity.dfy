/** The record of business module migrations. Ids are never rewritten; a module's present identity is found
    by following the records. */
module ModuleIdentity {
  import opened Prelude

  datatype Migration = Migration(source: string, target: string)

  /** The record that applies to an id is the first one. */
  function Next(records: seq<Migration>, id: string): Option<string> {
    if records == [] then None
    else if records[0].source == id then Some(records[0].target)
    else Next(records[1..], id)
  }

  /** Where an id ends if that takes at most `n` steps. */
  function Walk(records: seq<Migration>, id: string, n: nat): Option<string>
    decreases n
  {
    match Next(records, id)
    case None => Some(id)
    case Some(next) => if n == 0 then None else Walk(records, next, n - 1)
  }

  /** Where an id is after exactly `k` steps. */
  function After(records: seq<Migration>, id: string, k: nat): Option<string> {
    if k == 0 then Some(id)
    else match After(records, id, k - 1)
      case None => None
      case Some(at) => Next(records, at)
  }

  ghost predicate Resolves(records: seq<Migration>, id: string) {
    exists n: nat :: Walk(records, id, n).Some?
  }

  ghost function Resolved(records: seq<Migration>, id: string): string
    requires Resolves(records, id)
  {
    var n: nat :| Walk(records, id, n).Some?;
    Walk(records, id, n).value
  }

  lemma {:induction false} MoreSteps(records: seq<Migration>, id: string, n: nat, m: nat)
    requires n <= m && Walk(records, id, n).Some?
    ensures Walk(records, id, m) == Walk(records, id, n)
    decreases n
  {
    if n > 0 && Next(records, id).Some? {
      MoreSteps(records, Next(records, id).value, n - 1, m - 1);
    }
  }

  lemma {:induction false} ResolvedIs(records: seq<Migration>, id: string, n: nat)
    requires Walk(records, id, n).Some?
    ensures Resolves(records, id) && Walk(records, id, n).value == Resolved(records, id)
  {
    var m: nat :| Walk(records, id, m).Some? && Walk(records, id, m).value == Resolved(records, id);
    MoreSteps(records, id, n, if n < m then m else n);
    MoreSteps(records, id, m, if n < m then m else n);
  }

  /** An id that no record moves resolves to itself, and no other does. */
  lemma {:induction false} ResolvesToItself(records: seq<Migration>, id: string)
    requires Resolves(records, id)
    ensures Next(records, id).None? <==> Resolved(records, id) == id
  {
    var n: nat :| Walk(records, id, n).Some?;
    ResolvedIs(records, id, n);
    EndsUnmoved(records, id, n);
    if Next(records, id).None? {
      assert Walk(records, id, n) == Some(id);
    }
  }

  lemma {:induction false} EndsUnmoved(records: seq<Migration>, id: string, n: nat)
    requires Walk(records, id, n).Some?
    ensures Next(records, Walk(records, id, n).value).None?
    decreases n
  {
    if Next(records, id).Some? {
      EndsUnmoved(records, Next(records, id).value, n - 1);
    }
  }

  /** Resolution ends where nothing moves on, so resolving twice changes nothing. */
  lemma {:induction false} ResolutionIsIdempotent(records: seq<Migration>, id: string)
    requires Resolves(records, id)
    ensures Next(records, Resolved(records, id)).None?
    ensures Resolves(records, Resolved(records, id))
            && Resolved(records, Resolved(records, id)) == Resolved(records, id)
  {
    var n: nat :| Walk(records, id, n).Some?;
    ResolvedIs(records, id, n);
    EndsUnmoved(records, id, n);
    ResolvedIs(records, Resolved(records, id), 0);
  }

  // ----- following the records

  /** An id that comes back to itself resolves to nothing, in any number of steps. */
  lemma {:induction false} CycleNeverEnds(records: seq<Migration>, id: string, k: nat, n: nat)
    requires k > 0 && After(records, id, k) == Some(id)
    ensures Walk(records, id, n).None?
  {
    WalkAlong(records, id, k, 0);
    if n >= k {
      CycleNeverEnds(records, id, k, n - k);
      WalkAlong(records, id, k, n - k);
    } else if Walk(records, id, n).Some? {
      MoreSteps(records, id, n, k);
    }
  }

  lemma {:induction false} WalkAlong(records: seq<Migration>, id: string, k: nat, n: nat)
    requires After(records, id, k).Some?
    ensures Walk(records, id, n + k) == Walk(records, After(records, id, k).value, n)
    ensures k > 0 ==> Next(records, id).Some?
    decreases k
  {
    if k > 0 {
      WalkAlong(records, id, k - 1, n + 1);
    }
  }

  ghost function SourcesOf(records: seq<Migration>): set<string> {
    set i | 0 <= i < |records| :: records[i].source
  }

  lemma {:induction false} MovedIsSource(records: seq<Migration>, id: string)
    ensures Next(records, id).Some? <==> id in SourcesOf(records)
  {
    if records != [] && records[0].source != id {
      MovedIsSource(records[1..], id);
      assert forall i :: 0 < i < |records| ==> records[i] == records[1..][i - 1];
    }
  }

  ghost predicate Leads(records: seq<Migration>, id: string, k: nat, at: string) {
    After(records, id, k).Some? && After(records, id, k).value == at
  }

  ghost predicate LeadsOn(records: seq<Migration>, id: string, at: string) {
    exists k: nat :: k > 0 && Leads(records, id, k, at)
  }

  /** Each id seen on the way from `id` leads on to `current` in at least one step. */
  ghost predicate Visited(records: seq<Migration>, id: string, seen: set<string>, current: string) {
    && seen <= SourcesOf(records)
    && (forall x :: x in seen ==> LeadsOn(records, x, current))
    && exists k: nat :: Leads(records, id, k, current)
  }

  /** The loop that resolves an id finds the end if there is one, and stops at a cycle if there is none. */
  method Resolve(records: seq<Migration>, id: string) returns (end: Option<string>)
    ensures end.Some? <==> Resolves(records, id)
    ensures end.Some? ==> end.value == Resolved(records, id)
  {
    var seen: set<string> := {};
    var current := id;
    assert Leads(records, id, 0, id);
    while true
      invariant Visited(records, id, seen, current)
      decreases |SourcesOf(records) - seen|
    {
      if current in seen {
        Cyclic(records, id, seen, current);
        return None;
      }
      var next := Next(records, current);
      if next.None? {
        Ending(records, id, seen, current);
        return Some(current);
      }
      VisitedGrows(records, id, seen, current);
      seen := seen + {current};
      current := next.value;
    }
  }

  lemma {:induction false} VisitedGrows(records: seq<Migration>, id: string, seen: set<string>, current: string)
    requires Visited(records, id, seen, current) && Next(records, current).Some? && current !in seen
    ensures Visited(records, id, seen + {current}, Next(records, current).value)
    ensures |SourcesOf(records) - (seen + {current})| < |SourcesOf(records) - seen|
  {
    var next := Next(records, current).value;
    MovedIsSource(records, current);
    forall x | x in seen + {current} ensures LeadsOn(records, x, next) {
      LeadsFurther(records, x, current);
    }
    var k: nat :| Leads(records, id, k, current);
    OneFurther(records, id, k, current);
    OneLess(SourcesOf(records), seen, current);
  }

  lemma {:induction false} LeadsFurther(records: seq<Migration>, x: string, current: string)
    requires x == current || LeadsOn(records, x, current)
    requires Next(records, current).Some?
    ensures LeadsOn(records, x, Next(records, current).value)
  {
    var k: nat := 0;
    if x == current {
      assert Leads(records, x, 0, current);
    } else {
      k :| k > 0 && Leads(records, x, k, current);
    }
    OneFurther(records, x, k, current);
  }

  lemma {:induction false} OneFurther(records: seq<Migration>, x: string, k: nat, current: string)
    requires Leads(records, x, k, current) && Next(records, current).Some?
    ensures Leads(records, x, k + 1, Next(records, current).value)
  {
  }

  lemma OneLess(all: set<string>, seen: set<string>, current: string)
    requires current in all && current !in seen
    ensures |all - (seen + {current})| < |all - seen|
  {
    assert all - seen == (all - (seen + {current})) + {current};
  }

  lemma {:induction false} Ending(records: seq<Migration>, id: string, seen: set<string>, current: string)
    requires Visited(records, id, seen, current) && Next(records, current).None?
    ensures Resolves(records, id) && Resolved(records, id) == current
  {
    var k: nat :| Leads(records, id, k, current);
    EndingAfter(records, id, k, current);
  }

  lemma {:induction false} EndingAfter(records: seq<Migration>, id: string, k: nat, current: string)
    requires Leads(records, id, k, current) && Next(records, current).None?
    ensures Resolves(records, id) && Resolved(records, id) == current
  {
    WalkAlong(records, id, k, 0);
    ResolvedIs(records, id, k);
  }

  lemma Cyclic(records: seq<Migration>, id: string, seen: set<string>, current: string)
    requires Visited(records, id, seen, current) && current in seen
    ensures !Resolves(records, id)
  {
    var round: nat :| round > 0 && Leads(records, current, round, current);
    var k: nat :| Leads(records, id, k, current);
    forall n: nat ensures Walk(records, id, n).None? {
      NeverEnds(records, id, k, current, round, n);
    }
  }

  lemma {:induction false} NeverEnds(records: seq<Migration>, id: string, k: nat, current: string, round: nat, n: nat)
    requires Leads(records, id, k, current) && round > 0 && Leads(records, current, round, current)
    ensures Walk(records, id, n).None?
  {
    if Walk(records, id, n).Some? {
      MoreSteps(records, id, n, n + k);
      WalkAlong(records, id, k, n);
      CycleNeverEnds(records, current, round, n);
    }
  }

  // ----- the records as they are read and written

  /** No module is moved twice or onto itself, and no chain of records is a cycle. */
  ghost predicate ValidRecords(records: seq<Migration>) {
    && (forall i, j :: 0 <= i < j < |records| ==> records[i].source != records[j].source)
    && (forall i :: 0 <= i < |records| ==> records[i].source != records[i].target)
    && forall i :: 0 <= i < |records| ==> Resolves(records, records[i].source)
  }

  method CheckRecords(records: seq<Migration>) returns (ok: bool)
    ensures ok <==> ValidRecords(records)
  {
    var seen := {};
    for i := 0 to |records|
      invariant seen == set k | 0 <= k < i :: records[k].source
      invariant forall k, j :: 0 <= k < j < i ==> records[k].source != records[j].source
      invariant forall k :: 0 <= k < i ==> records[k].source != records[k].target
    {
      if records[i].source in seen || records[i].source == records[i].target {
        return false;
      }
      seen := seen + {records[i].source};
    }
    for i := 0 to |records|
      invariant forall k :: 0 <= k < i ==> Resolves(records, records[k].source)
    {
      var end := Resolve(records, records[i].source);
      if end.None? {
        return false;
      }
    }
    return true;
  }

  /** With valid records every id resolves, whether or not a record names it. */
  lemma ResolutionIsTotal(records: seq<Migration>, id: string)
    requires ValidRecords(records)
    ensures Resolves(records, id)
  {
    MovedIsSource(records, id);
    if Next(records, id).None? {
      assert Walk(records, id, 0).Some?;
    }
  }

  ghost predicate Live(records: seq<Migration>, id: string) {
    Next(records, id).None?
  }

  lemma {:induction false} NextAppended(records: seq<Migration>, r: Migration, id: string)
    ensures Next(records + [r], id) ==
            if Next(records, id).Some? then Next(records, id) else if id == r.source then Some(r.target) else None
  {
    if records != [] {
      assert (records + [r])[1..] == records[1..] + [r];
      NextAppended(records[1..], r, id);
    }
  }

  lemma {:induction false} WalkAppended(records: seq<Migration>, r: Migration, id: string, n: nat)
    requires Live(records, r.source) && Live(records, r.target) && r.source != r.target
    requires Walk(records, id, n).Some?
    ensures var end := Walk(records, id, n).value;
            Walk(records + [r], id, n + 1) == Some(if end == r.source then r.target else end)
    decreases n
  {
    NextAppended(records, r, id);
    NextAppended(records, r, r.target);
    if Next(records, id).Some? {
      WalkAppended(records, r, Next(records, id).value, n - 1);
    }
  }

  /** A migration redirects what resolved to its source, and nothing else; the records stay valid. */
  lemma MigrationRedirects(records: seq<Migration>, r: Migration)
    requires ValidRecords(records) && Live(records, r.source) && Live(records, r.target) && r.source != r.target
    ensures ValidRecords(records + [r])
    ensures forall id :: Resolves(records, id) && Resolves(records + [r], id)
                         && Resolved(records + [r], id)
                            == if Resolved(records, id) == r.source then r.target else Resolved(records, id)
  {
    forall id
      ensures Resolves(records, id) && Resolves(records + [r], id)
      ensures Resolved(records + [r], id)
              == if Resolved(records, id) == r.source then r.target else Resolved(records, id)
    {
      ResolutionIsTotal(records, id);
      var n: nat :| Walk(records, id, n).Some?;
      ResolvedIs(records, id, n);
      WalkAppended(records, r, id, n);
      ResolvedIs(records + [r], id, n + 1);
    }
    MovedIsSource(records, r.source);
  }

  /** Where an id resolves; with valid records, for every id. */
  ghost function Home(records: seq<Migration>, id: string): string {
    if Resolves(records, id) then Resolved(records, id) else id
  }

  /** A home is its own home, and exactly the sources of records have another one. */
  lemma HomeIsFinal(records: seq<Migration>, id: string)
    requires ValidRecords(records)
    ensures Home(records, Home(records, id)) == Home(records, id)
    ensures Home(records, id) == id <==> Live(records, id)
    ensures Home(records, id) == id <==> id !in SourcesOf(records)
  {
    ResolutionIsTotal(records, id);
    ResolutionIsIdempotent(records, id);
    ResolvesToItself(records, id);
    MovedIsSource(records, id);
  }

  lemma HomeMoves(records: seq<Migration>, r: Migration, id: string)
    requires ValidRecords(records) && Live(records, r.source) && Live(records, r.target) && r.source != r.target
    ensures Home(records + [r], id) == if Home(records, id) == r.source then r.target else Home(records, id)
  {
    MigrationRedirects(records, r);
  }

  class MigrationRecords {
    var records: seq<Migration>

    constructor ()
      ensures records == [] && ValidRecords(records)
    {
      records := [];
    }

    /** Commits a migration between two different modules that are both still in place; refuses any other. */
    method Commit(record: Migration) returns (committed: bool)
      requires ValidRecords(records)
      modifies this
      ensures committed <==>
                Live(old(records), record.source) && Live(old(records), record.target) && record.source != record.target
      ensures records == if committed then old(records) + [record] else old(records)
      ensures ValidRecords(records)
    {
      var source := Resolve(records, record.source);
      var target := Resolve(records, record.target);
      ResolutionIsTotal(records, record.source);
      ResolutionIsTotal(records, record.target);
      ResolvesToItself(records, record.source);
      ResolvesToItself(records, record.target);
      if source != Some(record.source) || target != Some(record.target) || record.source == record.target {
        return false;
      }
      MigrationRedirects(records, record);
      records := records + [record];
      return true;
    }
  }
}
