/**
 The background sweep: one bounded page of records per tick, from a cursor that moves on
 whether or not the records of the page could be reconciled, and starts over at the end.
*/
module Sweep {
  import opened Wrappers
  import opened Lexicographic

  const PAGE := 20

  /** A tick does nothing (lock busy, cluster unreachable) or works through one page; records come and go in either case. */
  datatype Tick =
    | Skipped(removed: set<string>, added: set<string>)
    | Swept(page: set<string>, next: string, removed: set<string>, added: set<string>)

  function Above(ids: set<string>, cursor: string): set<string> {
    set id | id in ids && Before(cursor, id)
  }

  /** The first PAGE records past the cursor, and the last of them as the next cursor if there are more. */
  predicate IsPage(ids: set<string>, cursor: string, page: set<string>, next: string) {
    var rest := Above(ids, cursor);
    if |rest| <= PAGE then page == rest && next == ""
    else && page <= rest && |page| == PAGE && next in page
         && (forall id :: id in page ==> id == next || Before(id, next))
         && (forall id :: id in rest - page ==> Before(next, id))
  }

  predicate Possible(ids: set<string>, cursor: string, tick: Tick) {
    "" !in tick.added && (tick.Swept? ==> IsPage(ids, cursor, tick.page, tick.next))
  }

  function Ids(ids: set<string>, tick: Tick): set<string> {
    ids - tick.removed + tick.added
  }

  function Cursor(cursor: string, tick: Tick): string {
    if tick.Skipped? then cursor else tick.next
  }

  predicate Run(ids: set<string>, cursor: string, ticks: seq<Tick>)
    decreases |ticks|
  {
    ticks == [] || (Possible(ids, cursor, ticks[0]) && Run(Ids(ids, ticks[0]), Cursor(cursor, ticks[0]), ticks[1..]))
  }

  /** The record is there before every tick of the run. */
  predicate Stays(ids: set<string>, ticks: seq<Tick>, id: string)
    decreases |ticks|
  {
    id in ids && (ticks == [] || Stays(Ids(ids, ticks[0]), ticks[1..], id))
  }

  function SweptTicks(ticks: seq<Tick>): nat {
    if ticks == [] then 0 else (if ticks[0].Swept? then 1 else 0) + SweptTicks(ticks[1..])
  }

  function Added(ticks: seq<Tick>): nat {
    if ticks == [] then 0 else |ticks[0].added| + Added(ticks[1..])
  }

  function UpTo(ids: set<string>, id: string): set<string> {
    set x | x in ids && !Before(id, x)
  }

  function Between(ids: set<string>, cursor: string, id: string): set<string> {
    set x | x in ids && Before(cursor, x) && !Before(id, x)
  }

  /** How many records the cursor may still pass before a record is visited: up to it, or to the end and then up to it. */
  function Distance(ids: set<string>, cursor: string, id: string): nat {
    if Before(cursor, id) then |Between(ids, cursor, id)| else |Above(ids, cursor)| + PAGE + |UpTo(ids, id)|
  }

  lemma SubsetCount(small: set<string>, large: set<string>)
    requires small <= large
    ensures |small| <= |large|
  {
    assert large == small + (large - small);
  }

  lemma UnionCount(a: set<string>, b: set<string>)
    ensures |a + b| <= |a| + |b|
  {
    assert |a + b| == |a| + |b| - |a * b|;
  }

  /** A set of records picked by their ids grows by no more than what was added. */
  lemma AddedCount(small: set<string>, large: set<string>, added: set<string>)
    requires small <= large + added
    ensures |small| <= |large| + |added|
  {
    SubsetCount(small, large + added);
    UnionCount(large, added);
  }

  /** Past the page's last record only what the page left out remains. */
  lemma PastPage(ids: set<string>, cursor: string, page: set<string>, next: string)
    requires IsPage(ids, cursor, page, next) && |Above(ids, cursor)| > PAGE
    ensures Above(ids, next) == Above(ids, cursor) - page
    ensures |Above(ids, next)| == |Above(ids, cursor)| - PAGE
  {
    var rest := Above(ids, cursor);
    forall id ensures id in Above(ids, next) <==> id in rest - page {
      if id in Above(ids, next) { Transitive(cursor, next, id); Trichotomy(next, id); }
    }
    assert rest == page + (rest - page);
  }

  /** On the way to a record a full page lies before it. */
  lemma PageBefore(ids: set<string>, cursor: string, tick: Tick, id: string)
    requires tick.Swept? && Possible(ids, cursor, tick) && id in ids && id !in tick.page && Before(cursor, id)
    ensures Before(tick.next, id) && |Between(ids, tick.next, id)| + PAGE <= |Between(ids, cursor, id)|
  {
    assert id in Above(ids, cursor);
    PastPage(ids, cursor, tick.page, tick.next);
    assert id in Above(ids, cursor) - tick.page;
    var far, near := Between(ids, cursor, id), Between(ids, tick.next, id);
    forall x | x in tick.page ensures x in far && x !in near {
      Trichotomy(x, tick.next);
      if x != tick.next { Transitive(x, tick.next, id); }
      Trichotomy(x, id);
    }
    forall x | x in near ensures x in far { assert x in Above(ids, tick.next); }
    SubsetCount(near, far - tick.page);
    assert far == tick.page + (far - tick.page);
  }

  /** Past a record the cursor moves on by a full page, or starts over. */
  lemma PageAfter(ids: set<string>, cursor: string, tick: Tick, id: string)
    requires tick.Swept? && Possible(ids, cursor, tick) && !Before(cursor, id) && |Above(ids, cursor)| > PAGE
    ensures !Before(tick.next, id)
  {
    assert Before(cursor, tick.next);
    if Before(tick.next, id) { Transitive(cursor, tick.next, id); }
  }

  lemma DisjointCount(a: set<string>, b: set<string>)
    requires a !! b
    ensures |a + b| == |a| + |b|
  {
  }

  /** A sweep that does not visit a record brings the cursor a page closer to it, but for records added meanwhile. */
  lemma SweepApproaches(ids: set<string>, cursor: string, tick: Tick, id: string)
    requires tick.Swept? && Possible(ids, cursor, tick) && id in ids && id != "" && id !in tick.page
    ensures Distance(Ids(ids, tick), tick.next, id) + PAGE <= Distance(ids, cursor, id) + |tick.added|
  {
    var ids' := Ids(ids, tick);
    if Before(cursor, id) {
      PageBefore(ids, cursor, tick, id);
      AddedCount(Between(ids', tick.next, id), Between(ids, tick.next, id), tick.added);
    } else if |Above(ids, cursor)| > PAGE {
      PageAfter(ids, cursor, tick, id);
      PastPage(ids, cursor, tick.page, tick.next);
      Apart(ids, tick.next, id);
      Apart(ids', tick.next, id);
      DisjointCount(Above(ids, tick.next), UpTo(ids, id));
      DisjointCount(Above(ids', tick.next), UpTo(ids', id));
      AddedCount(Above(ids', tick.next) + UpTo(ids', id), Above(ids, tick.next) + UpTo(ids, id), tick.added);
    } else {
      assert Before("", id);
      AddedCount(Between(ids', "", id), UpTo(ids, id), tick.added);
    }
  }

  /** While nothing is swept a record is not farther away, but for records added. */
  lemma SkippedDistance(ids: set<string>, cursor: string, tick: Tick, id: string)
    ensures Distance(Ids(ids, tick), cursor, id) <= Distance(ids, cursor, id) + |tick.added|
  {
    var ids' := Ids(ids, tick);
    if Before(cursor, id) {
      AddedCount(Between(ids', cursor, id), Between(ids, cursor, id), tick.added);
    } else {
      Apart(ids, cursor, id);
      Apart(ids', cursor, id);
      DisjointCount(Above(ids, cursor), UpTo(ids, id));
      DisjointCount(Above(ids', cursor), UpTo(ids', id));
      AddedCount(Above(ids', cursor) + UpTo(ids', id), Above(ids, cursor) + UpTo(ids, id), tick.added);
    }
  }

  lemma Apart(ids: set<string>, cursor: string, id: string)
    requires !Before(cursor, id)
    ensures Above(ids, cursor) !! UpTo(ids, id)
  {
    forall x | x in Above(ids, cursor) ensures x !in UpTo(ids, id) {
      Trichotomy(cursor, id);
      if cursor != id { Transitive(id, cursor, x); }
    }
  }

  /**
   No record starves: once the ticks that swept have passed more records than lay in between
   and were added meanwhile, at a page each, a record that is there throughout has been
   visited, however many other ticks were skipped and whatever failed on other records.
  */
  lemma {:induction false} EveryRecordIsVisited(ids: set<string>, cursor: string, ticks: seq<Tick>, id: string)
    requires Run(ids, cursor, ticks) && Stays(ids, ticks, id) && id != ""
    requires PAGE * SweptTicks(ticks) > Distance(ids, cursor, id) + Added(ticks)
    ensures exists k :: 0 <= k < |ticks| && ticks[k].Swept? && id in ticks[k].page
    decreases |ticks|
  {
    if ticks != [] {
      var tick, rest := ticks[0], ticks[1..];
      if tick.Skipped? {
        SkippedDistance(ids, cursor, tick, id);
        EveryRecordIsVisited(Ids(ids, tick), cursor, rest, id);
      } else if id !in tick.page {
        SweepApproaches(ids, cursor, tick, id);
        EveryRecordIsVisited(Ids(ids, tick), tick.next, rest, id);
      }
      if tick.Skipped? || id !in tick.page {
        var k :| 0 <= k < |rest| && rest[k].Swept? && id in rest[k].page;
        assert ticks[k + 1] == rest[k];
      }
    }
  }

  /** Steady additions of fewer records than a page holds for each sweep do not keep a record waiting for ever. */
  lemma SteadyAdditionsAreKeptUpWith(ids: set<string>, cursor: string, ticks: seq<Tick>, id: string)
    requires Run(ids, cursor, ticks) && Stays(ids, ticks, id) && id != ""
    requires SweptTicks(ticks) > |ids| + PAGE && Added(ticks) <= (PAGE - 1) * SweptTicks(ticks)
    ensures exists k :: 0 <= k < |ticks| && ticks[k].Swept? && id in ticks[k].page
  {
    DistanceBound(ids, cursor, id);
    EveryRecordIsVisited(ids, cursor, ticks, id);
  }

  lemma DistanceBound(ids: set<string>, cursor: string, id: string)
    ensures Distance(ids, cursor, id) <= |ids| + PAGE
  {
    if Before(cursor, id) {
      SubsetCount(Between(ids, cursor, id), ids);
    } else {
      Apart(ids, cursor, id);
      DisjointCount(Above(ids, cursor), UpTo(ids, id));
      SubsetCount(Above(ids, cursor) + UpTo(ids, id), ids);
    }
  }

  /** With a fixed set of records, as many sweeps as they fill pages and two more visit them all. */
  lemma SteadyInventoryIsCovered(ids: set<string>, cursor: string, ticks: seq<Tick>)
    requires Run(ids, cursor, ticks) && "" !in ids && PAGE * SweptTicks(ticks) > |ids| + PAGE
    requires forall i :: 0 <= i < |ticks| ==> ticks[i].removed == ticks[i].added == {}
    ensures forall id :: id in ids ==> exists k :: 0 <= k < |ticks| && ticks[k].Swept? && id in ticks[k].page
  {
    forall id | id in ids ensures exists k :: 0 <= k < |ticks| && ticks[k].Swept? && id in ticks[k].page {
      NothingChanges(ids, ticks, id);
      DistanceBound(ids, cursor, id);
      EveryRecordIsVisited(ids, cursor, ticks, id);
    }
  }

  lemma {:induction false} NothingChanges(ids: set<string>, ticks: seq<Tick>, id: string)
    requires id in ids && forall i :: 0 <= i < |ticks| ==> ticks[i].removed == ticks[i].added == {}
    ensures Stays(ids, ticks, id) && Added(ticks) == 0
    decreases |ticks|
  {
    if ticks != [] {
      assert Ids(ids, ticks[0]) == ids;
      NothingChanges(ids, ticks[1..], id);
    }
  }

  // ---------------------------------------------------------------- one tick

  datatype Reconciled = Fine | OtherCluster | Failed(code: nat) | TimedOut

  predicate IsFailure(r: Reconciled) {
    r.Failed? || r.TimedOut?
  }

  /** Where a tick leaves the recovery loop: the next cursor, also when some record failed. */
  datatype TickResult = TickResult(cursor: string, failure: Option<Reconciled>)

  /**
   `sweep` and the cursor handling of `start_recovery`: every record of the page is tried, the
   first failure is the one reported, and the cursor moves on all the same.
  */
  method SweepPage(ids: set<string>, cursor: string, page: seq<string>, next: string, results: string -> Reconciled)
    returns (r: TickResult, tried: set<string>)
    requires IsPage(ids, cursor, (set id | id in page), next)
    ensures tried == (set id | id in page) && Possible(ids, cursor, Swept(tried, r.cursor, {}, {}))
    ensures r.failure.None? <==> forall i :: 0 <= i < |page| ==> !IsFailure(results(page[i]))
    ensures r.failure.Some? ==> exists i :: 0 <= i < |page| && results(page[i]) == r.failure.value && IsFailure(r.failure.value)
                                            && forall j :: 0 <= j < i ==> !IsFailure(results(page[j]))
  {
    var failure: Option<Reconciled> := None;
    ghost var first := 0;
    tried := {};
    for i := 0 to |page|
      invariant tried == set id | id in page[..i]
      invariant failure.None? ==> forall j :: 0 <= j < i ==> !IsFailure(results(page[j]))
      invariant failure.Some? ==> first < i && results(page[first]) == failure.value && IsFailure(failure.value)
                                  && forall j :: 0 <= j < first ==> !IsFailure(results(page[j]))
    {
      var result := results(page[i]);
      if IsFailure(result) && failure.None? {
        failure := Some(result);
        first := i;
      }
      assert page[..i + 1] == page[..i] + [page[i]];
      tried := tried + {page[i]};
    }
    assert page[..|page|] == page;
    return TickResult(next, failure), tried;
  }
}

/**
 The other half of a tick: the updates not yet applied are listed without a cursor, at most
 fifty of them and in no promised order, and each listed one is reconciled for a few seconds.
*/
module PendingUpdates {
  const LIMIT := 50

  /** What one tick lists, and what stops and starts being pending until the next one; a skipped tick lists nothing. */
  datatype Tick =
    | Skipped(settled: set<string>, added: set<string>)
    | Listed(listed: set<string>, settled: set<string>, added: set<string>)

  /** What the query may answer. */
  predicate IsList(pending: set<string>, listed: set<string>) {
    listed <= pending && |listed| == if |pending| <= LIMIT then |pending| else LIMIT
  }

  function Pending(pending: set<string>, tick: Tick): set<string> {
    pending - tick.settled + tick.added
  }

  predicate Run(pending: set<string>, ticks: seq<Tick>)
    decreases |ticks|
  {
    || ticks == []
    || ((ticks[0].Listed? ==> IsList(pending, ticks[0].listed)) && Run(Pending(pending, ticks[0]), ticks[1..]))
  }

  /** The update is pending before every tick of the run. */
  predicate Stays(pending: set<string>, ticks: seq<Tick>, id: string)
    decreases |ticks|
  {
    id in pending && (ticks == [] || Stays(Pending(pending, ticks[0]), ticks[1..], id))
  }

  predicate Tried(ticks: seq<Tick>, id: string) {
    exists k :: 0 <= k < |ticks| && ticks[k].Listed? && id in ticks[k].listed
  }

  function ListedTicks(ticks: seq<Tick>): nat {
    if ticks == [] then 0 else (if ticks[0].Listed? then 1 else 0) + ListedTicks(ticks[1..])
  }

  function Added(ticks: seq<Tick>): nat {
    if ticks == [] then 0 else |ticks[0].added| + Added(ticks[1..])
  }

  lemma SubsetEqual(small: set<string>, large: set<string>)
    requires small <= large && |small| == |large|
    ensures small == large
  {
    assert large == small + (large - small);
  }

  /** Some part of a set of any size up to its own, without a given member. */
  lemma {:induction false} PartWithout(large: set<string>, size: nat, id: string) returns (part: set<string>)
    requires size < |large| || (size == |large| && id !in large)
    ensures part <= large && |part| == size && id !in part
    decreases |large|
  {
    if size == |large| { return large; }
    var x :| x in large && (id in large ==> x == id);
    part := PartWithout(large - {x}, size, id);
  }

  /** An update is certain to be tried at a tick if and only if at most fifty are pending. */
  lemma TriedForCertainIff(pending: set<string>, id: string)
    requires id in pending
    ensures (forall listed :: IsList(pending, listed) ==> id in listed) <==> |pending| <= LIMIT
  {
    if |pending| <= LIMIT {
      forall listed | IsList(pending, listed) ensures id in listed { SubsetEqual(listed, pending); }
    } else {
      var others := PartWithout(pending, LIMIT, id);
      assert IsList(pending, others) && id !in others;
    }
  }

  /** What is left when at least the listed ones are taken away. */
  lemma LeftCount(pending: set<string>, gone: set<string>, left: set<string>)
    requires gone <= pending && left <= pending && gone !! left
    ensures |left| + |gone| <= |pending|
  {
    var rest := pending - gone - left;
    assert pending == gone + left + rest;
  }

  /** A tick that settles what it lists leaves that many fewer waiting, but for those added. */
  lemma TickDrains(pending: set<string>, tick: Tick)
    requires tick.Listed? ==> tick.listed <= pending && tick.listed <= tick.settled
    ensures |Pending(pending, tick)| + (if tick.Listed? then |tick.listed| else 0) <= |pending| + |tick.added|
  {
    var left := pending - tick.settled;
    LeftCount(pending, if tick.Listed? then tick.listed else {}, left);
    assert |left + tick.added| == |left| + |tick.added| - |left * tick.added|;
  }

  /**
   While every update that is tried is settled, none waits for ever: once the lists have
   counted more updates than were pending and were added, one that stays pending was tried.
  */
  lemma {:induction false} PendingIsReached(pending: set<string>, ticks: seq<Tick>, id: string)
    requires Run(pending, ticks) && Stays(pending, ticks, id)
    requires forall i :: 0 <= i < |ticks| && ticks[i].Listed? ==> ticks[i].listed <= ticks[i].settled
    requires LIMIT * ListedTicks(ticks) >= |pending| + Added(ticks)
    ensures Tried(ticks, id)
    decreases |ticks|
  {
    if ticks != [] {
      var tick, rest := ticks[0], ticks[1..];
      assert forall i :: 0 <= i < |rest| ==> rest[i] == ticks[i + 1];
      if !(tick.Listed? && id in tick.listed) {
        TickDrains(pending, tick);
        if tick.Listed? && |pending| <= LIMIT { SubsetEqual(tick.listed, pending); }
        PendingIsReached(Pending(pending, tick), rest, id);
        var k :| 0 <= k < |rest| && rest[k].Listed? && id in rest[k].listed;
        assert ticks[k + 1] == rest[k];
      }
    }
  }

  function Repeat(tick: Tick, n: nat): (ticks: seq<Tick>)
    ensures |ticks| == n && forall i :: 0 <= i < n ==> ticks[i] == tick
  {
    seq(n, i => tick)
  }

  /** The same updates are listed n times, never settle, and the one given is not among them. */
  predicate Starves(pending: set<string>, stuck: set<string>, n: nat, id: string) {
    var ticks := Repeat(Listed(stuck, {}, {}), n);
    Run(pending, ticks) && Stays(pending, ticks, id) && !Tried(ticks, id)
  }

  /** As soon as more than fifty are pending, fifty that never settle can keep any other one waiting for any number of ticks. */
  lemma StuckUpdatesStarveOthers(pending: set<string>, n: nat, id: string)
    requires id in pending && |pending| > LIMIT
    ensures exists stuck :: |stuck| == LIMIT && Starves(pending, stuck, n, id)
  {
    var stuck := PartWithout(pending, LIMIT, id);
    StuckRun(pending, stuck, n, id);
    assert Starves(pending, stuck, n, id);
  }

  lemma {:induction false} StuckRun(pending: set<string>, stuck: set<string>, n: nat, id: string)
    requires IsList(pending, stuck) && id in pending
    ensures Run(pending, Repeat(Listed(stuck, {}, {}), n)) && Stays(pending, Repeat(Listed(stuck, {}, {}), n), id)
  {
    if n > 0 {
      var ticks := Repeat(Listed(stuck, {}, {}), n);
      assert ticks[1..] == Repeat(Listed(stuck, {}, {}), n - 1);
      assert Pending(pending, ticks[0]) == pending;
      StuckRun(pending, stuck, n - 1, id);
    }
  }
}
