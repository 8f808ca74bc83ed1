/** The table of annotation ids being submitted: one shared set per ledger path, dropped when empty. */
module SubmissionLocks {

  /** Which set a path uses, the sets themselves, and the next unused set. */
  datatype LockTable = LockTable(table: map<string, nat>, sets: map<nat, set<string>>, next: nat)

  /** The ids a submission in flight holds, and the set it took them in. */
  datatype Flight = Flight(path: string, lock: nat, ids: set<string>)

  function Active(t: LockTable, path: string): set<string> {
    if path in t.table && t.table[path] in t.sets then t.sets[t.table[path]] else {}
  }

  function LockFor(t: LockTable, path: string): nat {
    if path in t.table then t.table[path] else t.next
  }

  function Acquire(t: LockTable, path: string, ids: set<string>): LockTable {
    var lock := LockFor(t, path);
    LockTable(t.table[path := lock], t.sets[lock := Active(t, path) + ids],
              if path in t.table then t.next else t.next + 1)
  }

  /** Gives the ids back; a set that became empty leaves the table. */
  function Release(t: LockTable, f: Flight): LockTable
    requires f.lock in t.sets
  {
    var left := t.sets[f.lock] - f.ids;
    t.(sets := t.sets[f.lock := left], table := if left == {} then t.table - {f.path} else t.table)
  }

  ghost predicate Held(flights: map<nat, Flight>, path: string, id: string) {
    exists k :: k in flights && flights[k].path == path && id in flights[k].ids
  }

  ghost predicate TableInv(t: LockTable) {
    && (forall p :: p in t.table ==> t.table[p] in t.sets && t.table[p] < t.next && t.sets[t.table[p]] != {})
    && (forall p, q :: p in t.table && q in t.table && t.table[p] == t.table[q] ==> p == q)
  }

  /** Every submission in flight still uses the set its path has in the table. */
  ghost predicate FlightsInv(t: LockTable, flights: map<nat, Flight>) {
    forall k :: k in flights ==>
      && flights[k].ids != {} && flights[k].path in t.table && t.table[flights[k].path] == flights[k].lock
      && flights[k].ids <= Active(t, flights[k].path)
  }

  /** Two submissions in flight for one ledger share no annotation. */
  ghost predicate Disjoint(flights: map<nat, Flight>) {
    forall k, m :: k in flights && m in flights && k != m && flights[k].path == flights[m].path ==>
      flights[k].ids !! flights[m].ids
  }

  /** Every id the table holds is in flight. */
  ghost predicate AllHeld(t: LockTable, flights: map<nat, Flight>) {
    forall p, id :: id in Active(t, p) ==> Held(flights, p, id)
  }

  /** The table holds exactly the ids in flight, and no empty set. */
  ghost predicate LocksInv(t: LockTable, flights: map<nat, Flight>) {
    TableInv(t) && FlightsInv(t, flights) && Disjoint(flights) && AllHeld(t, flights)
  }

  /** With nothing in flight the table is empty. */
  lemma TableEmptied(t: LockTable, flights: map<nat, Flight>)
    requires LocksInv(t, flights) && flights == map[]
    ensures t.table == map[]
  {
    forall p ensures p !in t.table {
      assert Active(t, p) == {};
    }
  }

  lemma AcquireActive(t: LockTable, path: string, ids: set<string>, p: string)
    requires TableInv(t)
    ensures Active(Acquire(t, path, ids), p) == if p == path then Active(t, p) + ids else Active(t, p)
  {
  }

  lemma AcquireKeepsTable(t: LockTable, path: string, ids: set<string>)
    requires TableInv(t) && ids != {}
    ensures TableInv(Acquire(t, path, ids))
  {
    var id :| id in ids;
    assert id in Active(t, path) + ids;
  }

  lemma AcquireKeepsFlights(t: LockTable, flights: map<nat, Flight>, k: nat, f: Flight)
    requires TableInv(t) && FlightsInv(t, flights) && f.lock == LockFor(t, f.path) && f.ids != {}
    ensures FlightsInv(Acquire(t, f.path, f.ids), flights[k := f])
  {
    var more := flights[k := f];
    forall m | m in more
      ensures more[m].path in Acquire(t, f.path, f.ids).table
              && more[m].ids <= Active(Acquire(t, f.path, f.ids), more[m].path)
    {
      AcquireActive(t, f.path, f.ids, more[m].path);
    }
  }

  lemma AcquireKeepsDisjoint(t: LockTable, flights: map<nat, Flight>, k: nat, f: Flight)
    requires FlightsInv(t, flights) && Disjoint(flights) && f.ids !! Active(t, f.path)
    ensures Disjoint(flights[k := f])
  {
  }

  lemma HeldGrows(flights: map<nat, Flight>, k: nat, f: Flight, path: string, id: string)
    requires k !in flights && (Held(flights, path, id) || (path == f.path && id in f.ids))
    ensures Held(flights[k := f], path, id)
  {
    if Held(flights, path, id) {
      var m :| m in flights && flights[m].path == path && id in flights[m].ids;
      assert m in flights[k := f];
    } else {
      assert k in flights[k := f];
    }
  }

  lemma AcquireKeepsLocks(t: LockTable, flights: map<nat, Flight>, k: nat, path: string, ids: set<string>)
    requires LocksInv(t, flights) && k !in flights && ids != {} && ids !! Active(t, path)
    ensures LocksInv(Acquire(t, path, ids), flights[k := Flight(path, LockFor(t, path), ids)])
  {
    var f := Flight(path, LockFor(t, path), ids);
    AcquireKeepsTable(t, path, ids);
    AcquireKeepsFlights(t, flights, k, f);
    AcquireKeepsDisjoint(t, flights, k, f);
    assert AllHeld(Acquire(t, path, ids), flights[k := f]) by {
      forall p, id | id in Active(Acquire(t, path, ids), p) ensures Held(flights[k := f], p, id) {
        AcquireActive(t, path, ids, p);
        HeldGrows(flights, k, f, p, id);
      }
    }
  }

  lemma ReleaseActive(t: LockTable, f: Flight, p: string)
    requires TableInv(t) && f.path in t.table && t.table[f.path] == f.lock
    ensures Active(Release(t, f), p) == if p == f.path then Active(t, p) - f.ids else Active(t, p)
  {
  }

  lemma ReleaseKeepsTable(t: LockTable, f: Flight)
    requires TableInv(t) && f.path in t.table && t.table[f.path] == f.lock
    ensures TableInv(Release(t, f))
  {
  }

  lemma ReleaseKeepsFlights(t: LockTable, flights: map<nat, Flight>, k: nat, m: nat)
    requires TableInv(t) && FlightsInv(t, flights) && Disjoint(flights) && k in flights && m in flights && m != k
    ensures var after := Release(t, flights[k]);
            flights[m].path in after.table && after.table[flights[m].path] == flights[m].lock
            && flights[m].ids <= Active(after, flights[m].path)
  {
    ReleaseActive(t, flights[k], flights[m].path);
    if flights[m].path == flights[k].path {
      assert flights[m].ids <= Active(t, flights[k].path) - flights[k].ids;
    }
  }

  lemma HeldByOther(flights: map<nat, Flight>, k: nat, path: string, id: string)
    requires k in flights && Held(flights, path, id) && !(path == flights[k].path && id in flights[k].ids)
    ensures Held(flights - {k}, path, id)
  {
    var m :| m in flights && flights[m].path == path && id in flights[m].ids;
    assert m in flights - {k};
  }

  lemma ReleaseKeepsLocks(t: LockTable, flights: map<nat, Flight>, k: nat)
    requires LocksInv(t, flights) && k in flights
    ensures flights[k].lock in t.sets && LocksInv(Release(t, flights[k]), flights - {k})
  {
    var after := Release(t, flights[k]);
    ReleaseKeepsTable(t, flights[k]);
    assert FlightsInv(after, flights - {k}) by {
      forall m | m in flights - {k}
        ensures flights[m].path in after.table && after.table[flights[m].path] == flights[m].lock
                && flights[m].ids <= Active(after, flights[m].path)
      {
        ReleaseKeepsFlights(t, flights, k, m);
      }
    }
    assert AllHeld(after, flights - {k}) by {
      forall p, id | id in Active(after, p) ensures Held(flights - {k}, p, id) {
        ReleaseActive(t, flights[k], p);
        HeldByOther(flights, k, p, id);
      }
    }
  }

  /** Taking ids and giving them straight back leaves the table sound. */
  lemma RefusedKeepsLocks(t: LockTable, flights: map<nat, Flight>, k: nat, path: string, ids: set<string>)
    requires LocksInv(t, flights) && k !in flights && ids != {} && ids !! Active(t, path)
    ensures LocksInv(Release(Acquire(t, path, ids), Flight(path, LockFor(t, path), ids)), flights)
  {
    var f := Flight(path, LockFor(t, path), ids);
    PutAndTaken(flights, k, f);
    AcquireKeepsLocks(t, flights, k, path, ids);
    ReleaseKeepsLocks(Acquire(t, path, ids), flights[k := f], k);
  }

  lemma PutAndTaken(flights: map<nat, Flight>, k: nat, f: Flight)
    requires k !in flights
    ensures k in flights[k := f] && flights[k := f][k] == f && flights[k := f] - {k} == flights
  {
  }
}
