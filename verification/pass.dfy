/**
 * A tag group's turn from end to end, `_match_tag_group` of src/symba/services/matcher.py: capacity, rate
 * tokens, claim, return of unused tokens, placement.
 */
module TagGroupPass {
  import opened Claims
  import opened Numbers
  import opened Workers
  import opened RateLimiting
  import RateQuotas
  import CursorMap
  import Matching
  import WorkerRing
  import Fleets

  /** Which of the rows a claim looks at it gets to lock: any part of them, in any order. Rows locked
      elsewhere and rows over their group's limit are left out. */
  ghost predicate Picks(pick: seq<ClaimedJob> -> seq<ClaimedJob>) {
    forall rows :: multiset(pick(rows)) <= multiset(rows)
  }

  /** claim.sql: the rows that pass the rate filter and were locked, up to the limit. */
  function Claimed(pick: seq<ClaimedJob> -> seq<ClaimedJob>, ready: seq<ClaimedJob>, exhausted: set<string>,
                   reserved: map<string, int>, limit: nat): (claimed: seq<ClaimedJob>)
    ensures |claimed| <= limit
  {
    var rows := pick(RateQuotas.Eligible(ready, exhausted, reserved));
    rows[..Min(|rows|, limit)]
  }

  /** No class beyond its standing, whatever was locked. */
  lemma ClaimedHonoursQuotas(pick: seq<ClaimedJob> -> seq<ClaimedJob>, ready: seq<ClaimedJob>,
                             exhausted: set<string>, reserved: map<string, int>, limit: nat, c: string)
    requires Picks(pick) && forall x :: x in reserved ==> reserved[x] > 0
    ensures RateQuotas.MayClaim(RateQuotas.StandingOf(exhausted, reserved, c),
                                RateQuotas.Count(Claimed(pick, ready, exhausted, reserved, limit), c))
  {
    var rows := pick(RateQuotas.Eligible(ready, exhausted, reserved));
    var n := Min(|rows|, limit);
    assert rows == rows[..n] + rows[n..];
    assert multiset(rows[..n]) <= multiset(rows);
    RateQuotas.ClaimHonoursQuotas(rows[..n], ready, exhausted, reserved, c);
  }

  /** When every row can be locked the claim is the first eligible jobs, as many as the limit allows. */
  lemma ClaimsAllItCan(pick: seq<ClaimedJob> -> seq<ClaimedJob>, ready: seq<ClaimedJob>, exhausted: set<string>,
                       reserved: map<string, int>, limit: nat)
    requires forall rows :: pick(rows) == rows
    ensures var claimed, eligible := Claimed(pick, ready, exhausted, reserved, limit), RateQuotas.Eligible(ready, exhausted, reserved);
            claimed <= eligible && |claimed| == Min(limit, |eligible|)
  {
  }

  /** The classes were asked for the limit, and what they granted and was not claimed is back. */
  ghost predicate Settled(l: RateQuotas.Limits, buckets: map<string, Pair>, classes: seq<string>, limit: int,
                          asked: string -> RateQuotas.Moment, returned: string -> RateQuotas.Moment,
                          exhausted: set<string>, reserved: map<string, int>, claimed: seq<ClaimedJob>)
  {
    && exhausted == RateQuotas.Exhausted(l, classes, limit, asked)
    && reserved == RateQuotas.Granted(l, classes, limit, asked)
    && buckets == RateQuotas.Restored(l.(buckets := RateQuotas.Asked(l, classes, limit, asked)),
                                      RateQuotas.Unused(reserved, claimed), returned)
  }

  /** What is claimed of the ready jobs: no class beyond its standing, and all that can be locked, as far as
      the limit allows; when every row can be locked, the first eligible jobs. */
  ghost predicate ClaimsOf(pick: seq<ClaimedJob> -> seq<ClaimedJob>, ready: seq<ClaimedJob>, exhausted: set<string>,
                           reserved: map<string, int>, limit: int, claimed: seq<ClaimedJob>)
  {
    && claimed == (if limit <= 0 then [] else Claimed(pick, ready, exhausted, reserved, limit))
    && (forall c :: RateQuotas.MayClaim(RateQuotas.StandingOf(exhausted, reserved, c), RateQuotas.Count(claimed, c)))
    && ((forall rows :: pick(rows) == rows) ==>
          var eligible := RateQuotas.Eligible(ready, exhausted, reserved);
          claimed <= eligible && |claimed| == Max(0, Min(limit, |eligible|)))
  }

  lemma ClaimsNothing(pick: seq<ClaimedJob> -> seq<ClaimedJob>, ready: seq<ClaimedJob>, limit: int)
    requires limit <= 0
    ensures ClaimsOf(pick, ready, {}, map[], limit, [])
  {
  }

  lemma ClaimsWell(pick: seq<ClaimedJob> -> seq<ClaimedJob>, ready: seq<ClaimedJob>, exhausted: set<string>,
                   reserved: map<string, int>, limit: nat)
    requires Picks(pick) && limit > 0 && forall x :: x in reserved ==> reserved[x] > 0
    ensures ClaimsOf(pick, ready, exhausted, reserved, limit, Claimed(pick, ready, exhausted, reserved, limit))
  {
    forall c
      ensures RateQuotas.MayClaim(RateQuotas.StandingOf(exhausted, reserved, c),
                                  RateQuotas.Count(Claimed(pick, ready, exhausted, reserved, limit), c))
    {
      ClaimedHonoursQuotas(pick, ready, exhausted, reserved, limit, c);
    }
    if forall rows :: pick(rows) == rows { ClaimsAllItCan(pick, ready, exhausted, reserved, limit); }
  }

  /** The claim between the reserve and the return: every class within its standing, and what was reserved
      and not claimed is back in the buckets. */
  method ClaimUnderQuotas(rate: RateLimiter?, classes: seq<string>, ready: seq<ClaimedJob>,
                          pick: seq<ClaimedJob> -> seq<ClaimedJob>, limit: nat,
                          asked: string -> RateQuotas.Moment, returned: string -> RateQuotas.Moment)
    returns (claimed: seq<ClaimedJob>, exhausted: set<string>, reserved: map<string, int>)
    requires (rate != null ==> rate.Valid()) && RateQuotas.Distinct(classes) && Picks(pick) && limit > 0
    modifies rate
    ensures |claimed| <= limit && ClaimsOf(pick, ready, exhausted, reserved, limit, claimed)
    ensures rate == null ==> exhausted == {} && reserved == map[]
    ensures rate != null ==>
              && rate.Valid() && rate.cfg == old(rate.cfg)
              && Settled(RateQuotas.Limits(rate.cfg, old(rate.buckets), rate.redisEnabled), rate.buckets, classes, limit,
                         asked, returned, exhausted, reserved, claimed)
  {
    exhausted, reserved := RateQuotas.ReserveRateTokens(rate, classes, limit, asked);
    claimed := Claimed(pick, ready, exhausted, reserved, limit);
    ClaimsWell(pick, ready, exhausted, reserved, limit);
    RateQuotas.ReturnUnusedTokens(rate, reserved, claimed, returned);
  }

  /** No worker has more room than it has free. */
  ghost predicate RoomWithinFree(ring: seq<WorkerConn>, capacity: map<string, int>, loads: seq<Matching.Load>) {
    |loads| == |ring| && forall i :: 0 <= i < |ring| ==> Matching.Room(ring[i], capacity) <= loads[i].free
  }

  /** The capacity of each worker is the room it has. */
  ghost predicate Measured(ws: seq<WorkerConn>, capacity: map<string, int>, running: map<string, int>)
    reads ws
  {
    forall w :: w in ws ==> w.workerId in capacity && capacity[w.workerId] == Matching.RoomOf(w, running)
  }

  lemma RingMeasured(workers: seq<WorkerConn>, capacity: map<string, int>, running: map<string, int>)
    requires Matching.DistinctIds(workers) && Measured(workers, capacity, running)
    ensures Measured(Matching.Ring(workers), capacity, running)
  {
    var ring := Matching.Ring(workers);
    assert multiset(ring) == multiset(workers);
    SameMeasured(ring, workers, capacity, running);
  }

  lemma SameMeasured(a: seq<WorkerConn>, b: seq<WorkerConn>, capacity: map<string, int>, running: map<string, int>)
    requires multiset(a) == multiset(b) && Measured(b, capacity, running)
    ensures Measured(a, capacity, running)
  {
    forall w | w in a
      ensures w.workerId in capacity && capacity[w.workerId] == Matching.RoomOf(w, running)
    {
      assert w in multiset(a) && w in multiset(b) && w in b;
    }
  }

  lemma RoomIsFree(ring: seq<WorkerConn>, capacity: map<string, int>, running: map<string, int>)
    requires Measured(ring, capacity, running)
    ensures RoomWithinFree(ring, capacity, Matching.Loads(ring))
  {
    forall i | 0 <= i < |ring|
      ensures Matching.Room(ring[i], capacity) <= Matching.Loads(ring)[i].free
    {
      var w := ring[i];
      assert w in ring;
      var used := if w.workerId in running then running[w.workerId] else 0;
      Fleets.CapacityIsLargest(w.freeSlots, w.slotsTotal, used, Matching.RoomOf(w, running));
    }
  }

  /** Every worker's capacity, and their sum. */
  method MeasureRoom(workers: seq<WorkerConn>, running: map<string, int>) returns (capacity: map<string, int>, limit: int)
    requires Matching.DistinctIds(workers)
    ensures Measured(workers, capacity, running)
    ensures limit == Matching.Sum(workers, capacity)
    ensures RoomWithinFree(Matching.Ring(workers), capacity, Matching.Loads(Matching.Ring(workers)))
  {
    capacity, limit := Matching.CapacityByWorker(workers, running);
    RingMeasured(workers, capacity, running);
    RoomIsFree(Matching.Ring(workers), capacity, running);
  }

  /** Every claimed job is in a worker's queue, in the fair order, no worker was handed more than its capacity,
      and each has exactly as many fewer slots free. */
  ghost predicate Delivered(claimed: seq<ClaimedJob>, ring: seq<WorkerConn>, capacity: map<string, int>, targets: seq<nat>,
                            attribution: seq<Matching.Attribution>, before: seq<Matching.Load>, after: seq<Matching.Load>)
  {
    && Matching.AllHandedOut(claimed, ring, capacity, targets, attribution)
    && Matching.Queued(claimed, before, after, targets)
    && |before| == |after| == |ring|
    && forall i :: 0 <= i < |ring| ==> after[i].free == before[i].free - WorkerRing.Count(targets, i)
  }

  lemma DeliveredWell(claimed: seq<ClaimedJob>, ring: seq<WorkerConn>, capacity: map<string, int>, targets: seq<nat>,
                      attribution: seq<Matching.Attribution>, before: seq<Matching.Load>, after: seq<Matching.Load>)
    requires RoomWithinFree(ring, capacity, before) && Matching.Queued(claimed, before, after, targets)
    requires Matching.AllHandedOut(claimed, ring, capacity, targets, attribution)
    ensures Delivered(claimed, ring, capacity, targets, attribution, before, after)
  {
    forall i | 0 <= i < |ring|
      ensures after[i].free == before[i].free - WorkerRing.Count(targets, i)
    {
      Matching.QueuedExactly(claimed, before, after, targets, i);
    }
  }

  /** The tag set's cursor after the turn: at the worker of the last placement. */
  ghost predicate CursorMoved(before: CursorMap.Cursors<set<string>>, after: CursorMap.Cursors<set<string>>,
                              tags: set<string>, ids: seq<string>, targets: seq<nat>)
  {
    if ids == [] then after == before else Matching.Remembers(before, after, tags, ids, targets)
  }

  /** Shape and place the claimed jobs, when there are no more of them than room. */
  method HandOut(matcher: Matching.Matcher, claimed: seq<ClaimedJob>, workers: seq<WorkerConn>, capacity: map<string, int>)
    returns (attribution: seq<Matching.Attribution>, ghost ring: seq<WorkerConn>, ghost targets: seq<nat>)
    requires CursorMap.Valid(matcher.lastWorkerByTags) && Matching.DistinctIds(workers)
    requires |claimed| <= Matching.Sum(workers, capacity) || claimed == []
    requires RoomWithinFree(Matching.Ring(workers), capacity, Matching.Loads(Matching.Ring(workers)))
    modifies matcher, (set w | w in workers)`queue, (set w | w in workers)`freeSlots
    ensures ring == Matching.Ring(workers)
    ensures Delivered(claimed, ring, capacity, targets, attribution, old(Matching.Loads(ring)), Matching.Loads(ring))
    ensures CursorMoved(old(matcher.lastWorkerByTags), matcher.lastWorkerByTags, if ring == [] then {} else ring[0].tags,
                        Matching.Ids(ring), targets)
    ensures CursorMap.Valid(matcher.lastWorkerByTags)
  {
    ring := Matching.Ring(workers);
    ghost var before, cursors := Matching.Loads(ring), matcher.lastWorkerByTags;
    if claimed == [] {
      Matching.NothingToHandOut(ring, capacity, before);
      DeliveredWell([], ring, capacity, [], [], before, before);
      if ring != [] { Matching.CursorNamesLast(cursors, ring[0].tags, Matching.Ids(ring), []); }
      attribution, targets := [], [];
      return;
    }
    attribution, ring, targets := matcher.Dispatch(claimed, workers, capacity);
    assert Matching.Queued(claimed, before, Matching.Loads(ring), targets);
    DeliveredWell(claimed, ring, capacity, targets, attribution, before, Matching.Loads(ring));
  }

  /** The whole turn: no more is claimed than the workers have room for together, every class stays within
      its standing, every claimed job is handed out, and no worker gets more than its own room. */
  method MatchTagGroup(matcher: Matching.Matcher, rate: RateLimiter?, classes: seq<string>, ready: seq<ClaimedJob>,
                       pick: seq<ClaimedJob> -> seq<ClaimedJob>, workers: seq<WorkerConn>, running: map<string, int>,
                       asked: string -> RateQuotas.Moment, returned: string -> RateQuotas.Moment)
    returns (capacity: map<string, int>, claimed: seq<ClaimedJob>, exhausted: set<string>, reserved: map<string, int>,
             attribution: seq<Matching.Attribution>, ghost ring: seq<WorkerConn>, ghost targets: seq<nat>)
    requires CursorMap.Valid(matcher.lastWorkerByTags) && Matching.DistinctIds(workers)
    requires (rate != null ==> rate.Valid()) && RateQuotas.Distinct(classes) && Picks(pick)
    modifies matcher, rate, (set w | w in workers)`queue, (set w | w in workers)`freeSlots
    ensures old(Measured(workers, capacity, running))
    ensures ClaimsOf(pick, ready, exhausted, reserved, Matching.Sum(workers, capacity), claimed)
    ensures ring == Matching.Ring(workers)
    ensures Delivered(claimed, ring, capacity, targets, attribution, old(Matching.Loads(ring)), Matching.Loads(ring))
    ensures CursorMoved(old(matcher.lastWorkerByTags), matcher.lastWorkerByTags, if ring == [] then {} else ring[0].tags,
                        Matching.Ids(ring), targets)
    ensures CursorMap.Valid(matcher.lastWorkerByTags) && (rate != null ==> rate.Valid())
    ensures rate != null ==>
              var limit := Matching.Sum(workers, capacity);
              if limit <= 0 then rate.buckets == old(rate.buckets)
              else Settled(RateQuotas.Limits(rate.cfg, old(rate.buckets), rate.redisEnabled), rate.buckets, classes, limit,
                           asked, returned, exhausted, reserved, claimed)
  {
    ghost var before := Matching.Loads(Matching.Ring(workers));
    var limit;
    capacity, limit := MeasureRoom(workers, running);
    assert Matching.Loads(Matching.Ring(workers)) == before;
    claimed, exhausted, reserved := [], {}, map[];
    if limit <= 0 {
      ClaimsNothing(pick, ready, limit);
    } else {
      claimed, exhausted, reserved := ClaimUnderQuotas(rate, classes, ready, pick, limit, asked, returned);
      assert Matching.Loads(Matching.Ring(workers)) == before;
    }
    attribution, ring, targets := HandOut(matcher, claimed, workers, capacity);
    assert Delivered(claimed, ring, capacity, targets, attribution, before, Matching.Loads(ring));
  }
}
