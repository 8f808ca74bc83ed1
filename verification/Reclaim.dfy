/** Reclaiming build caches: what is planned, and what becomes of each planned cache. */
module BuildCacheReclaim {
  const DAY := 24 * 60 * 60 * 1000

  datatype Entry = Entry(key: string, lastUsed: int, size: nat, active: bool, tracked: bool)

  datatype Policy = Policy(retentionDays: int, maxBytes: int, allUnused: bool, now: int)

  function Keys(entries: seq<Entry>): set<string> {
    set i | 0 <= i < |entries| :: entries[i].key
  }

  ghost predicate DistinctKeys(entries: seq<Entry>) {
    forall i, j :: 0 <= i < j < |entries| ==> entries[i].key != entries[j].key
  }

  function Size(entries: seq<Entry>): nat {
    if entries == [] then 0 else Size(entries[..|entries| - 1]) + entries[|entries| - 1].size
  }

  // ----- the plan

  predicate Expired(p: Policy, e: Entry) {
    p.retentionDays > 0 && e.tracked && !e.active && p.now - e.lastUsed >= p.retentionDays * DAY
  }

  /** A cache whose use is recorded expires when the retention period, counted in milliseconds, has passed since its
      last use, but not while it is in use; without a period none does. */
  lemma ExpiresInTime(p: Policy, e: Entry)
    ensures p.retentionDays <= 0 || e.active || !e.tracked ==> !Expired(p, e)
    ensures p.retentionDays > 0 && !e.active && e.tracked ==>
              (Expired(p, e) <==> e.lastUsed + 86_400_000 * p.retentionDays <= p.now)
  {
  }

  function Filter(entries: seq<Entry>, keep: Entry -> bool): (kept: seq<Entry>)
    ensures forall e :: e in kept <==> e in entries && keep(e)
  {
    if entries == [] then []
    else Filter(entries[..|entries| - 1], keep)
         + (if keep(entries[|entries| - 1]) then [entries[|entries| - 1]] else [])
  }

  function Insert(sorted: seq<Entry>, e: Entry): seq<Entry> {
    if sorted == [] || sorted[|sorted| - 1].lastUsed <= e.lastUsed then sorted + [e]
    else Insert(sorted[..|sorted| - 1], e) + [sorted[|sorted| - 1]]
  }

  lemma {:induction false} InsertAdds(sorted: seq<Entry>, e: Entry)
    ensures multiset(Insert(sorted, e)) == multiset(sorted) + multiset{e}
  {
    if sorted != [] && sorted[|sorted| - 1].lastUsed > e.lastUsed {
      InsertAdds(sorted[..|sorted| - 1], e);
      assert sorted == sorted[..|sorted| - 1] + [sorted[|sorted| - 1]];
    }
  }

  lemma {:induction false} InsertSorts(sorted: seq<Entry>, e: Entry)
    requires Oldest(sorted)
    ensures Oldest(Insert(sorted, e))
  {
    if sorted != [] && sorted[|sorted| - 1].lastUsed > e.lastUsed {
      var before, last := sorted[..|sorted| - 1], sorted[|sorted| - 1];
      InsertSorts(before, e);
      InsertAdds(before, e);
      forall x | x in Insert(before, e) ensures x.lastUsed <= last.lastUsed {
        assert x in multiset(Insert(before, e));
        assert x in before || x == e;
      }
      LastSorts(Insert(before, e), last);
    }
  }

  lemma LastSorts(before: seq<Entry>, last: Entry)
    requires Oldest(before) && forall x :: x in before ==> x.lastUsed <= last.lastUsed
    ensures Oldest(before + [last])
  {
  }

  predicate Oldest(entries: seq<Entry>) {
    forall i, j :: 0 <= i < j < |entries| ==> entries[i].lastUsed <= entries[j].lastUsed
  }

  /** The entries, least recently used first. */
  function LeastRecentlyUsed(entries: seq<Entry>): (s: seq<Entry>)
    ensures Oldest(s) && multiset(s) == multiset(entries)
  {
    if entries == [] then []
    else
      var before, last := LeastRecentlyUsed(entries[..|entries| - 1]), entries[|entries| - 1];
      InsertSorts(before, last);
      InsertAdds(before, last);
      assert entries == entries[..|entries| - 1] + [last];
      Insert(before, last)
  }

  function Idle(p: Policy, entries: seq<Entry>): seq<Entry> {
    LeastRecentlyUsed(Filter(entries, (e: Entry) => !e.active && !Expired(p, e)))
  }

  /** How many of the least recently used caches go to meet the limit: no more than needed. */
  ghost predicate Enough(limit: int, total: int, idle: seq<Entry>, n: nat) {
    && n <= |idle|
    && (n < |idle| ==> total - Size(idle[..n]) <= limit)
    && forall k :: 0 <= k < n ==> total - Size(idle[..k]) > limit
  }

  /** The fewest least recently used caches that meet the limit, or all if none do. */
  method TakeOldest(limit: int, total: int, idle: seq<Entry>) returns (n: nat)
    ensures Enough(limit, total, idle, n)
  {
    n := 0;
    var remaining := total;
    while n < |idle|
      invariant n <= |idle| && remaining == total - Size(idle[..n])
      invariant forall k :: 0 <= k < n ==> total - Size(idle[..k]) > limit
    {
      if remaining <= limit {
        return;
      }
      assert idle[..n + 1][..n] == idle[..n];
      remaining := remaining - idle[n].size;
      n := n + 1;
    }
  }

  function Picked(p: Policy, entries: seq<Entry>): seq<Entry> {
    Filter(entries, (e: Entry) => if p.allUnused then !e.active else Expired(p, e))
  }

  /** What is planned: caches that have expired, and the first `n` of the idle others, oldest first. */
  ghost predicate PlanOf(p: Policy, entries: seq<Entry>, planned: set<string>, n: nat) {
    && n <= |Idle(p, entries)|
    && planned == Keys(Picked(p, entries)) + Keys(Idle(p, entries)[..n])
    && if p.allUnused || p.maxBytes <= 0 then n == 0
       else Enough(p.maxBytes, Size(entries) - Size(Picked(p, entries)), Idle(p, entries), n)
  }

  method Plan(p: Policy, entries: seq<Entry>) returns (planned: set<string>, n: nat)
    ensures PlanOf(p, entries, planned, n)
  {
    planned := {};
    for i := 0 to |entries|
      invariant planned == Keys(Picked(p, entries[..i]))
    {
      PickedNext(p, entries, i);
      if if p.allUnused then !entries[i].active else Expired(p, entries[i]) {
        KeysAppended(Picked(p, entries[..i]), entries[i]);
        planned := planned + {entries[i].key};
      }
    }
    assert entries[..|entries|] == entries;
    n := 0;
    if !p.allUnused && p.maxBytes > 0 {
      var idle := Idle(p, entries);
      n := TakeOldest(p.maxBytes, Size(entries) - Size(Picked(p, entries)), idle);
      planned := planned + Keys(idle[..n]);
    }
  }

  lemma PickedNext(p: Policy, entries: seq<Entry>, i: nat)
    requires i < |entries|
    ensures var picked := Picked(p, entries[..i]);
            Picked(p, entries[..i + 1])
            == if if p.allUnused then !entries[i].active else Expired(p, entries[i])
               then picked + [entries[i]] else picked
  {
    assert entries[..i + 1][..i] == entries[..i];
    assert Picked(p, entries[..i]) + [] == Picked(p, entries[..i]);
  }

  lemma KeysAppended(entries: seq<Entry>, e: Entry)
    ensures Keys(entries + [e]) == Keys(entries) + {e.key}
  {
    assert (entries + [e])[|entries|] == e;
    assert forall i :: 0 <= i < |entries| ==> (entries + [e])[i] == entries[i];
  }

  lemma IdleAre(p: Policy, entries: seq<Entry>, e: Entry)
    ensures e in Idle(p, entries) <==> e in entries && !e.active && !Expired(p, e)
  {
    var kept := Filter(entries, (e: Entry) => !e.active && !Expired(p, e));
    assert e in Idle(p, entries) <==> e in multiset(Idle(p, entries));
    assert e in kept <==> e in multiset(kept);
  }

  lemma KeyOf(entries: seq<Entry>, key: string)
    ensures key in Keys(entries) <==> exists e :: e in entries && e.key == key
  {
    if key in Keys(entries) {
      var i :| 0 <= i < |entries| && entries[i].key == key;
      assert entries[i] in entries;
    }
  }

  lemma SameKeySameEntry(entries: seq<Entry>, a: Entry, b: Entry)
    requires DistinctKeys(entries) && a in entries && b in entries && a.key == b.key
    ensures a == b
  {
  }

  /** A cache is planned if it was picked, or is among the first of the idle ones; never one in use. */
  lemma PlannedAre(p: Policy, entries: seq<Entry>, planned: set<string>, n: nat, e: Entry)
    requires DistinctKeys(entries) && PlanOf(p, entries, planned, n) && e in entries
    ensures e.key in planned <==> e in Picked(p, entries) || e in Idle(p, entries)[..n]
    ensures e.key in planned ==> !e.active
  {
    var idle := Idle(p, entries);
    KeyOf(Picked(p, entries), e.key);
    KeyOf(idle[..n], e.key);
    IdleAre(p, entries, e);
    if e.key in planned {
      var other :| (other in Picked(p, entries) || other in idle[..n]) && other.key == e.key;
      IdleAre(p, entries, other);
      SameKeySameEntry(entries, e, other);
    }
  }

  /** For lack of space an idle cache goes only before every one used later. */
  lemma OldestGoFirst(p: Policy, entries: seq<Entry>, planned: set<string>, n: nat, gone: Entry, kept: Entry)
    requires DistinctKeys(entries) && PlanOf(p, entries, planned, n) && gone in entries && kept in entries
    requires gone.key in planned && gone !in Picked(p, entries) && kept.key !in planned && !kept.active
    ensures gone.lastUsed <= kept.lastUsed
  {
    var idle := Idle(p, entries);
    PlannedAre(p, entries, planned, n, gone);
    PlannedAre(p, entries, planned, n, kept);
    IdleAre(p, entries, kept);
    var i :| 0 <= i < |idle[..n]| && idle[..n][i] == gone;
    var j :| 0 <= j < |idle| && idle[j] == kept;
    assert forall k :: 0 <= k < n ==> idle[k] in idle[..n];
  }

  // ----- what the plan leaves

  function Taken(entries: seq<Entry>, planned: set<string>): (taken: seq<Entry>)
    ensures forall e :: e in taken <==> e in entries && e.key in planned
  {
    Filter(entries, (e: Entry) => e.key in planned)
  }

  function Left(entries: seq<Entry>, planned: set<string>): (left: seq<Entry>)
    ensures forall e :: e in left <==> e in entries && e.key !in planned
  {
    Filter(entries, (e: Entry) => e.key !in planned)
  }

  lemma {:induction false} SizeAppended(entries: seq<Entry>, e: Entry)
    ensures Size(entries + [e]) == Size(entries) + e.size
  {
    assert (entries + [e])[..|entries|] == entries;
  }

  lemma {:induction false} SizeJoins(a: seq<Entry>, b: seq<Entry>)
    ensures Size(a + b) == Size(a) + Size(b)
  {
    if b == [] {
      assert a + b == a;
    } else {
      SizeJoins(a, b[..|b| - 1]);
      assert (a + b)[..|a + b| - 1] == a + b[..|b| - 1];
    }
  }

  lemma {:induction false} SameSize(a: seq<Entry>, b: seq<Entry>)
    requires multiset(a) == multiset(b)
    ensures Size(a) == Size(b)
    decreases |a|
  {
    if a == [] {
      assert b == [] by {
        assert |multiset(b)| == 0;
      }
    } else {
      var last := a[|a| - 1];
      assert last in multiset(b);
      var i :| 0 <= i < |b| && b[i] == last;
      var rest := b[..i] + b[i + 1..];
      assert a == a[..|a| - 1] + [last];
      assert b == b[..i] + [last] + b[i + 1..];
      assert multiset(b) == multiset(rest) + multiset{last};
      Cancel(multiset(a[..|a| - 1]), multiset(rest), last);
      SameSize(a[..|a| - 1], rest);
      SizeJoins(b[..i], b[i + 1..]);
      SizeAppended(b[..i], last);
      SizeJoins(b[..i] + [last], b[i + 1..]);
    }
  }

  lemma Cancel(a: multiset<Entry>, b: multiset<Entry>, e: Entry)
    requires a + multiset{e} == b + multiset{e}
    ensures a == b
  {
    assert a == (a + multiset{e}) - multiset{e};
    assert b == (b + multiset{e}) - multiset{e};
  }

  lemma {:induction false} OnceEach(entries: seq<Entry>, e: Entry)
    requires DistinctKeys(entries)
    ensures multiset(entries)[e] == if e in entries then 1 else 0
  {
    if entries != [] {
      var n := |entries| - 1;
      assert entries == entries[..n] + [entries[n]];
      OnceEach(entries[..n], e);
      assert entries[n] !in entries[..n];
    }
  }

  lemma {:induction false} SameMembersSameSize(a: seq<Entry>, b: seq<Entry>)
    requires DistinctKeys(a) && DistinctKeys(b) && forall e :: e in a <==> e in b
    ensures Size(a) == Size(b)
  {
    forall e ensures multiset(a)[e] == multiset(b)[e] {
      OnceEach(a, e);
      OnceEach(b, e);
    }
    SameSize(a, b);
  }

  lemma {:induction false} FilterDistinct(entries: seq<Entry>, keep: Entry -> bool)
    requires DistinctKeys(entries)
    ensures DistinctKeys(Filter(entries, keep))
  {
    if entries != [] {
      var before, last := entries[..|entries| - 1], entries[|entries| - 1];
      FilterDistinct(before, keep);
      forall e | e in Filter(before, keep) ensures e.key != last.key {
        assert e in before;
      }
    }
  }

  /** Distinct keys carry over to the same entries in another order. */
  lemma {:induction false} ShuffledDistinct(a: seq<Entry>, b: seq<Entry>)
    requires DistinctKeys(a) && multiset(a) == multiset(b)
    ensures DistinctKeys(b)
  {
    forall i, j | 0 <= i < j < |b| ensures b[i].key != b[j].key {
      assert b[i] in multiset(b) && b[j] in multiset(b);
      if b[i] == b[j] {
        TwiceIn(b, i, j);
        OnceEach(a, b[i]);
      }
    }
  }

  lemma TwiceIn(b: seq<Entry>, i: nat, j: nat)
    requires i < j < |b| && b[i] == b[j]
    ensures multiset(b)[b[i]] >= 2
  {
    assert b == b[..i] + [b[i]] + b[i + 1..j] + [b[j]] + b[j + 1..];
  }

  /** The planned caches in the order they were chosen. */
  function Chosen(p: Policy, entries: seq<Entry>, n: nat): seq<Entry>
    requires n <= |Idle(p, entries)|
  {
    Picked(p, entries) + Idle(p, entries)[..n]
  }

  /** Each planned cache is chosen once. */
  lemma ChosenOnce(p: Policy, entries: seq<Entry>, planned: set<string>, n: nat)
    requires DistinctKeys(entries) && PlanOf(p, entries, planned, n)
    ensures DistinctKeys(Chosen(p, entries, n)) && Size(Chosen(p, entries, n)) == Size(Taken(entries, planned))
    ensures forall e :: e in Chosen(p, entries, n) <==> e in Taken(entries, planned)
  {
    var picked, idle := Picked(p, entries), Idle(p, entries);
    var pool := Filter(entries, (e: Entry) => !e.active && !Expired(p, e));
    FilterDistinct(entries, (e: Entry) => if p.allUnused then !e.active else Expired(p, e));
    FilterDistinct(entries, (e: Entry) => !e.active && !Expired(p, e));
    ShuffledDistinct(pool, idle);
    var chosen := picked + idle[..n];
    forall a, b | a in picked && b in idle[..n] ensures a.key != b.key {
      IdleAre(p, entries, b);
      if a.key == b.key {
        SameKeySameEntry(entries, a, b);
      }
    }
    JoinDistinct(picked, idle[..n]);
    var taken := Taken(entries, planned);
    FilterDistinct(entries, (e: Entry) => e.key in planned);
    forall e ensures e in chosen <==> e in taken {
      IdleAre(p, entries, e);
      if e in entries {
        PlannedAre(p, entries, planned, n, e);
      }
    }
    SameMembersSameSize(chosen, taken);
  }

  lemma JoinDistinct(a: seq<Entry>, b: seq<Entry>)
    requires DistinctKeys(a) && DistinctKeys(b) && forall x, y :: x in a && y in b ==> x.key != y.key
    ensures DistinctKeys(a + b)
  {
    forall i, j | 0 <= i < j < |a + b| ensures (a + b)[i].key != (a + b)[j].key {
      if i < |a| <= j {
        assert a[i] in a && b[j - |a|] in b;
      }
    }
  }

  /** Once all that is planned is gone, the caches left keep to the limit, or no unused cache is left; and
      sparing the last one planned for lack of space would break the limit. */
  lemma PlanMeetsTheLimit(p: Policy, entries: seq<Entry>, planned: set<string>, n: nat)
    requires DistinctKeys(entries) && PlanOf(p, entries, planned, n) && !p.allUnused && p.maxBytes > 0
    ensures Size(Left(entries, planned)) <= p.maxBytes
            || forall e :: e in entries && !e.active ==> e.key in planned
    ensures n > 0 ==> Size(Left(entries, planned)) + Idle(p, entries)[n - 1].size > p.maxBytes
  {
    var picked, idle := Picked(p, entries), Idle(p, entries);
    LeftSize(p, entries, planned, n);
    if n > 0 {
      assert idle[..n][..n - 1] == idle[..n - 1];
      assert Size(idle[..n]) == Size(idle[..n - 1]) + idle[n - 1].size;
    }
    if n == |idle| {
      AllIdlePlanned(p, entries, planned);
    }
  }

  lemma {:induction false} LeftSize(p: Policy, entries: seq<Entry>, planned: set<string>, n: nat)
    requires DistinctKeys(entries) && PlanOf(p, entries, planned, n)
    ensures Size(Left(entries, planned)) == Size(entries) - Size(Picked(p, entries)) - Size(Idle(p, entries)[..n])
  {
    ChosenOnce(p, entries, planned, n);
    SizeJoins(Picked(p, entries), Idle(p, entries)[..n]);
    KeptSize(entries, planned);
  }

  lemma AllIdlePlanned(p: Policy, entries: seq<Entry>, planned: set<string>)
    requires DistinctKeys(entries) && PlanOf(p, entries, planned, |Idle(p, entries)|) && !p.allUnused
    ensures forall e :: e in entries && !e.active ==> e.key in planned
  {
    var idle := Idle(p, entries);
    assert idle[..|idle|] == idle;
    forall e | e in entries && !e.active ensures e.key in planned {
      PlannedAre(p, entries, planned, |idle|, e);
      IdleAre(p, entries, e);
    }
  }

  lemma {:induction false} KeptSize(entries: seq<Entry>, planned: set<string>)
    ensures Size(entries) == Size(Taken(entries, planned)) + Size(Left(entries, planned))
  {
    if entries != [] {
      var before, last := entries[..|entries| - 1], entries[|entries| - 1];
      KeptSize(before, planned);
      SizeAppended(Taken(before, planned), last);
      SizeAppended(Left(before, planned), last);
      if last.key in planned {
        assert Taken(entries, planned) == Taken(before, planned) + [last];
        assert Left(entries, planned) == Left(before, planned);
      } else {
        assert Taken(entries, planned) == Taken(before, planned);
        assert Left(entries, planned) == Left(before, planned) + [last];
      }
    }
  }

  // ----- caches without a record of use

  predicate Adopts(p: Policy, planned: set<string>, recorded: string -> bool, e: Entry) {
    !p.allUnused && !e.tracked && e.key !in planned && recorded(e.key)
  }

  /** No retention period that began then has it expire before its end. */
  ghost predicate SparedSince(seen: int, e: Entry) {
    forall later: Policy :: later.now < seen + later.retentionDays * DAY ==> !Expired(later, e)
  }

  /** A cache whose last use is not known counts as used when it is first seen, unless everything unused is
      cleared anyway: by age it is not planned before a whole period has passed since. */
  method Adopt(p: Policy, entries: seq<Entry>, planned: set<string>, recorded: string -> bool)
    returns (adopted: seq<Entry>)
    ensures |adopted| == |entries|
    ensures forall i :: 0 <= i < |entries| ==>
              adopted[i] == if !p.allUnused && !entries[i].tracked && entries[i].key !in planned
                               && recorded(entries[i].key)
                            then entries[i].(lastUsed := p.now, tracked := true) else entries[i]
    ensures forall i :: 0 <= i < |entries| && !entries[i].tracked ==> SparedSince(p.now, adopted[i])
  {
    adopted := [];
    for i := 0 to |entries|
      invariant |adopted| == i
      invariant forall k :: 0 <= k < i ==>
                  adopted[k] == if Adopts(p, planned, recorded, entries[k])
                                then entries[k].(lastUsed := p.now, tracked := true) else entries[k]
    {
      var e := entries[i];
      if Adopts(p, planned, recorded, e) {
        e := e.(lastUsed := p.now, tracked := true);
      }
      adopted := adopted + [e];
    }
  }

  // ----- carrying the plan out

  /** What happens to one cache while its turn lasts: whether it is in use at the first and at the last look,
      and which steps the file system lets pass; a new task may make a cache of the same name meanwhile. */
  datatype Turn = Turn(activeFirst: bool, trusted: bool, activeLast: bool, renamed: bool, removed: bool, remade: bool,
                       restored: bool)

  datatype Fate = Skipped | Reclaimed | Failed

  function FateOf(t: Turn): Fate {
    if t.activeFirst then Skipped
    else if !t.trusted then Failed
    else if t.activeLast then Skipped
    else if !t.renamed || !t.removed then Failed
    else Reclaimed
  }

  /** The sizes of those that met this fate. */
  function Total(order: seq<string>, turns: string -> Turn, size: string -> nat, fate: Fate): nat {
    if order == [] then 0
    else Total(order[..|order| - 1], turns, size, fate)
         + (if FateOf(turns(order[|order| - 1])) == fate then size(order[|order| - 1]) else 0)
  }

  function Count(order: seq<string>, turns: string -> Turn, fate: Fate): nat {
    Total(order, turns, _ => 1, fate)
  }

  lemma {:induction false} FatesPartition(order: seq<string>, turns: string -> Turn, size: string -> nat)
    ensures Total(order, turns, size, Reclaimed) + Total(order, turns, size, Skipped)
            + Total(order, turns, size, Failed)
            == Sum(order, size)
  {
    if order != [] {
      FatesPartition(order[..|order| - 1], turns, size);
    }
  }

  function Sum(order: seq<string>, size: string -> nat): nat {
    if order == [] then 0 else Sum(order[..|order| - 1], size) + size(order[|order| - 1])
  }

  /** Each planned cache is counted once, under one fate. */
  lemma {:induction false} CountsPartition(order: seq<string>, turns: string -> Turn)
    ensures Count(order, turns, Reclaimed) + Count(order, turns, Skipped) + Count(order, turns, Failed) == |order|
  {
    FatesPartition(order, turns, _ => 1);
    SumOfOnes(order);
  }

  lemma {:induction false} SumOfOnes(order: seq<string>)
    ensures Sum(order, _ => 1) == |order|
  {
    if order != [] {
      SumOfOnes(order[..|order| - 1]);
    }
  }

  datatype Kept = InPlace | Quarantined | Gone

  /** Where the old content of a cache is after its turn. */
  function KeptAfter(t: Turn): Kept {
    match FateOf(t)
    case Skipped => InPlace
    case Reclaimed => Gone
    case Failed =>
      if !t.trusted || !t.renamed || (!t.remade && t.restored) then InPlace else Quarantined
  }

  lemma {:induction false} TotalsGrow(order: seq<string>, turns: string -> Turn, size: string -> nat, i: nat)
    requires i < |order|
    ensures order[..i + 1] == order[..i] + [order[i]]
    ensures forall fate :: Count(order[..i + 1], turns, fate)
                           == Count(order[..i], turns, fate) + (if FateOf(turns(order[i])) == fate then 1 else 0)
    ensures forall fate :: Total(order[..i + 1], turns, size, fate)
                           == Total(order[..i], turns, size, fate)
                               + (if FateOf(turns(order[i])) == fate then size(order[i]) else 0)
  {
    assert order[..i + 1][..i] == order[..i];
  }

  class BuildCaches {
    var contents: map<string, Kept>

    constructor (keys: set<string>)
      ensures contents == map k | k in keys :: InPlace
    {
      contents := map k | k in keys :: InPlace;
    }

    /** One planned cache: looked at twice, moved aside, and removed from there. */
    method ReclaimOne(key: string, t: Turn) returns (fate: Fate)
      requires key in contents && contents[key] == InPlace
      modifies this
      ensures fate == FateOf(t) && contents == old(contents)[key := KeptAfter(t)]
      // In use at the look that counts, or not trusted before it: nothing is touched.
      ensures t.activeFirst || (t.trusted && t.activeLast) ==> fate == Skipped && contents[key] == InPlace
      ensures !t.activeFirst && !t.trusted ==> fate == Failed && contents[key] == InPlace
      // Otherwise it is gone exactly if both steps pass, and what was moved but not removed is moved back if it can be.
      ensures !t.activeFirst && t.trusted && !t.activeLast ==>
                if t.renamed && t.removed then fate == Reclaimed && contents[key] == Gone
                else fate == Failed
                     && contents[key] == if t.renamed && (t.remade || !t.restored) then Quarantined else InPlace
    {
      if t.activeFirst {
        return Skipped;
      }
      var moved := false;
      if t.trusted {
        if t.activeLast {
          return Skipped;
        }
        if t.renamed {
          contents := contents[key := Quarantined];
          moved := true;
          if t.removed {
            contents := contents[key := Gone];
            return Reclaimed;
          }
        }
      }
      if moved && !t.remade && t.restored {
        contents := contents[key := InPlace];
      }
      return Failed;
    }

    /** Carries a plan out. What it reports is what happened, and a cache in use at either look stays. */
    method Reclaim(order: seq<string>, turns: string -> Turn, size: string -> nat)
      returns (reclaimed: nat, freed: nat, skipped: nat, failed: seq<string>)
      requires forall i, j :: 0 <= i < j < |order| ==> order[i] != order[j]
      requires forall i :: 0 <= i < |order| ==> order[i] in contents && contents[order[i]] == InPlace
      modifies this
      ensures contents.Keys == old(contents).Keys
      ensures forall key :: key in contents ==>
                contents[key] == if key in order then KeptAfter(turns(key)) else old(contents[key])
      ensures freed == Total(order, turns, size, Reclaimed)
      ensures reclaimed == Count(order, turns, Reclaimed) && skipped == Count(order, turns, Skipped)
      ensures |failed| == Count(order, turns, Failed)
      ensures forall key :: key in failed <==> key in order && FateOf(turns(key)) == Failed
      ensures reclaimed + skipped + |failed| == |order|
    {
      reclaimed, freed, skipped, failed := 0, 0, 0, [];
      for i := 0 to |order|
        invariant contents.Keys == old(contents).Keys
        invariant forall key :: key in contents ==>
                    contents[key] == if key in order[..i] then KeptAfter(turns(key)) else old(contents[key])
        invariant freed == Total(order[..i], turns, size, Reclaimed)
        invariant reclaimed == Count(order[..i], turns, Reclaimed) && skipped == Count(order[..i], turns, Skipped)
        invariant |failed| == Count(order[..i], turns, Failed)
        invariant forall key :: key in failed <==> key in order[..i] && FateOf(turns(key)) == Failed
      {
        TotalsGrow(order, turns, size, i);
        assert order[i] !in order[..i];
        var fate := ReclaimOne(order[i], turns(order[i]));
        match fate
        case Skipped => skipped := skipped + 1;
        case Reclaimed =>
          reclaimed := reclaimed + 1;
          freed := freed + size(order[i]);
        case Failed => failed := failed + [order[i]];
      }
      assert order[..|order|] == order;
      CountsPartition(order, turns);
    }

    /** Plans and carries the plan out: the counts add up to the plan, what is freed is the size of the planned
        caches that were reclaimed, and no cache outside the plan is touched. */
    method ReclaimPlanned(p: Policy, entries: seq<Entry>, turns: string -> Turn)
      returns (planned: set<string>, ghost n: nat, reclaimed: nat, freed: nat, skipped: nat, failed: seq<string>)
      requires DistinctKeys(entries)
      requires forall e :: e in entries ==> e.key in contents && contents[e.key] == InPlace
      modifies this
      ensures PlanOf(p, entries, planned, n)
      ensures reclaimed + skipped + |failed| == |planned|
      ensures freed == Size(ReclaimedOf(entries, planned, turns))
      ensures contents.Keys == old(contents).Keys
      ensures forall key :: key in contents ==>
                contents[key] == if key in planned then KeptAfter(turns(key)) else old(contents[key])
      ensures forall key :: key in failed <==> key in planned && FateOf(turns(key)) == Failed
    {
      var count, order;
      planned, count, order := PlanOrder(p, entries);
      n := count;
      FreedIsReclaimed(p, entries, planned, count, turns);
      forall key | key in planned ensures key in contents && contents[key] == InPlace {
        PlannedExists(p, entries, planned, n, key);
      }
      assert forall i :: 0 <= i < |order| ==> order[i] in planned;
      reclaimed, freed, skipped, failed := Reclaim(order, turns, key => SizeOf(entries, key));
    }
  }

  method PlanOrder(p: Policy, entries: seq<Entry>) returns (planned: set<string>, n: nat, order: seq<string>)
    requires DistinctKeys(entries)
    ensures PlanOf(p, entries, planned, n) && order == KeyList(Chosen(p, entries, n)) && |order| == |planned|
    ensures forall key :: key in order <==> key in planned
    ensures forall i, j :: 0 <= i < j < |order| ==> order[i] != order[j]
  {
    planned, n := Plan(p, entries);
    var chosen := Chosen(p, entries, n);
    ChosenOnce(p, entries, planned, n);
    KeysListed(chosen);
    ChosenKeys(p, entries, planned, n);
    order := KeyList(chosen);
  }

  lemma PlannedExists(p: Policy, entries: seq<Entry>, planned: set<string>, n: nat, key: string)
    requires DistinctKeys(entries) && PlanOf(p, entries, planned, n) && key in planned
    ensures exists e :: e in entries && e.key == key
  {
    ChosenOnce(p, entries, planned, n);
    ChosenKeys(p, entries, planned, n);
    KeyOf(Chosen(p, entries, n), key);
    var e :| e in Chosen(p, entries, n) && e.key == key;
    assert e in Taken(entries, planned);
  }

  // ----- the report and the plan

  function KeyList(entries: seq<Entry>): seq<string> {
    if entries == [] then [] else KeyList(entries[..|entries| - 1]) + [entries[|entries| - 1].key]
  }

  function SizeOf(entries: seq<Entry>, key: string): nat {
    if entries == [] then 0
    else if entries[|entries| - 1].key == key then entries[|entries| - 1].size
    else SizeOf(entries[..|entries| - 1], key)
  }

  function ReclaimedOf(entries: seq<Entry>, planned: set<string>, turns: string -> Turn): seq<Entry> {
    Filter(entries, (e: Entry) => e.key in planned && FateOf(turns(e.key)) == Reclaimed)
  }

  lemma {:induction false} KeysListed(entries: seq<Entry>)
    requires DistinctKeys(entries)
    ensures |KeyList(entries)| == |entries| == |Keys(entries)|
    ensures forall i :: 0 <= i < |entries| ==> KeyList(entries)[i] == entries[i].key
    ensures forall key :: key in KeyList(entries) <==> key in Keys(entries)
  {
    if entries != [] {
      var before, last := entries[..|entries| - 1], entries[|entries| - 1];
      KeysListed(before);
      assert entries == before + [last];
      KeysAppended(before, last);
      assert last.key !in Keys(before);
    }
  }

  lemma ChosenKeys(p: Policy, entries: seq<Entry>, planned: set<string>, n: nat)
    requires PlanOf(p, entries, planned, n)
    ensures Keys(Chosen(p, entries, n)) == planned
  {
    var picked, idle := Picked(p, entries), Idle(p, entries)[..n];
    forall key ensures key in Keys(picked + idle) <==> key in Keys(picked) + Keys(idle) {
      KeyOf(picked + idle, key);
      KeyOf(picked, key);
      KeyOf(idle, key);
    }
  }

  lemma {:induction false} SizeIsFound(entries: seq<Entry>, e: Entry)
    requires DistinctKeys(entries) && e in entries
    ensures SizeOf(entries, e.key) == e.size
  {
    var before, last := entries[..|entries| - 1], entries[|entries| - 1];
    if last.key == e.key {
      SameKeySameEntry(entries, e, last);
    } else {
      assert e in before;
      SizeIsFound(before, e);
    }
  }

  lemma {:induction false} TotalIsSize(chosen: seq<Entry>, size: string -> nat, turns: string -> Turn)
    requires forall e :: e in chosen ==> size(e.key) == e.size
    ensures Total(KeyList(chosen), turns, size, Reclaimed)
            == Size(Filter(chosen, (e: Entry) => FateOf(turns(e.key)) == Reclaimed))
  {
    if chosen != [] {
      var before, last := chosen[..|chosen| - 1], chosen[|chosen| - 1];
      TotalIsSize(before, size, turns);
      assert KeyList(chosen)[..|KeyList(chosen)| - 1] == KeyList(before);
      SizeAppended(Filter(before, (e: Entry) => FateOf(turns(e.key)) == Reclaimed), last);
      assert Filter(before, (e: Entry) => FateOf(turns(e.key)) == Reclaimed) + []
             == Filter(before, (e: Entry) => FateOf(turns(e.key)) == Reclaimed);
    }
  }

  lemma {:induction false} FreedIsReclaimed(p: Policy, entries: seq<Entry>, planned: set<string>, n: nat,
                                            turns: string -> Turn)
    requires DistinctKeys(entries) && PlanOf(p, entries, planned, n)
    ensures Total(KeyList(Chosen(p, entries, n)), turns, key => SizeOf(entries, key), Reclaimed)
            == Size(ReclaimedOf(entries, planned, turns))
  {
    var chosen := Chosen(p, entries, n);
    ChosenOnce(p, entries, planned, n);
    forall e | e in chosen ensures SizeOf(entries, e.key) == e.size {
      assert e in Taken(entries, planned);
      SizeIsFound(entries, e);
    }
    TotalIsSize(chosen, key => SizeOf(entries, key), turns);
    FilterDistinct(chosen, (e: Entry) => FateOf(turns(e.key)) == Reclaimed);
    FilterDistinct(entries, (e: Entry) => e.key in planned && FateOf(turns(e.key)) == Reclaimed);
    SameMembersSameSize(Filter(chosen, (e: Entry) => FateOf(turns(e.key)) == Reclaimed),
        ReclaimedOf(entries, planned, turns));
  }

  /** A cache in use at either look is not removed, and one whose removal failed still has its content. */
  lemma OnlyUnusedAreRemoved(t: Turn)
    ensures KeptAfter(t) == Gone <==> FateOf(t) == Reclaimed
    ensures t.activeFirst || (t.trusted && t.activeLast) ==> KeptAfter(t) == InPlace
    ensures FateOf(t) == Reclaimed ==> !t.activeFirst && !t.activeLast && t.trusted
  {
  }
}
