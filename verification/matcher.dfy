/** The bounded cursor map of src/symba/services/matcher.py:43-57,248-251: which worker each tag
    set was served by last, least recently used tag sets forgotten first. `K` is the tag set. */
module CursorMap {

  const MAX_WORKER_CURSORS := 1024

  /** An ordered dictionary: keys oldest first, and their values. */
  datatype Cursors<K> = Cursors(order: seq<K>, last: map<K, string>)

  predicate Distinct<K(==,!new)>(s: seq<K>) {
    s == [] || (s[0] !in s[1..] && Distinct(s[1..]))
  }

  function Without<K(==,!new)>(s: seq<K>, k: K): (r: seq<K>)
    ensures forall x :: x in r <==> x in s && x != k
  {
    if s == [] then [] else (if s[0] == k then [] else [s[0]]) + Without(s[1..], k)
  }

  ghost predicate Valid<K(!new)>(c: Cursors<K>) {
    && Distinct(c.order)
    && |c.order| <= MAX_WORKER_CURSORS
    && forall k :: k in c.last <==> k in c.order
  }

  lemma {:induction false} WithoutAbsent<K(!new)>(s: seq<K>, k: K)
    requires k !in s
    ensures Without(s, k) == s
    decreases s
  {
    if s != [] { WithoutAbsent(s[1..], k); }
  }

  lemma {:induction false} WithoutDistinct<K(!new)>(s: seq<K>, k: K)
    requires Distinct(s)
    ensures Distinct(Without(s, k))
    ensures |Without(s, k)| == if k in s then |s| - 1 else |s|
    decreases s
  {
    if s != [] {
      var t := Without(s[1..], k);
      WithoutDistinct(s[1..], k);
      if s[0] == k {
        assert Without(s, k) == t;
      } else {
        assert Without(s, k)[1..] == t;
      }
    }
  }

  lemma {:induction false} DistinctSnoc<K(!new)>(s: seq<K>, k: K)
    requires Distinct(s) && k !in s
    ensures Distinct(s + [k])
    decreases s
  {
    if s == [] {
      assert (s + [k])[1..] == [];
    } else {
      assert (s + [k])[1..] == s[1..] + [k];
      DistinctSnoc(s[1..], k);
    }
  }

  lemma {:induction false} WithoutLast<K(!new)>(s: seq<K>, k: K)
    requires k !in s
    ensures Without(s + [k], k) == s
    decreases s
  {
    if s == [] {
      assert (s + [k])[1..] == [];
    } else {
      assert (s + [k])[1..] == s[1..] + [k];
      WithoutLast(s[1..], k);
    }
  }

  function Get<K>(c: Cursors<K>, k: K): string {
    if k in c.last then c.last[k] else ""
  }

  /** `k` becomes the most recent key. */
  function Renew<K(==,!new)>(order: seq<K>, k: K): (r: seq<K>)
    ensures r != [] && r[|r| - 1] == k
    ensures forall x :: x in r <==> x in order || x == k
  {
    Without(order, k) + [k]
  }

  lemma RenewDistinct<K(!new)>(order: seq<K>, k: K)
    requires Distinct(order)
    ensures Distinct(Renew(order, k))
    ensures |Renew(order, k)| == if k in order then |order| else |order| + 1
  {
    WithoutDistinct(order, k);
    DistinctSnoc(Without(order, k), k);
  }

  /** Set, move to the end, and drop the oldest key when there are too many. */
  function Stamp<K(==,!new)>(c: Cursors<K>, k: K, worker: string): Cursors<K> {
    var order := Renew(c.order, k);
    var last := c.last[k := worker];
    if |order| > MAX_WORKER_CURSORS then Cursors(order[1..], last - {order[0]}) else Cursors(order, last)
  }

  lemma DistinctTail<K(!new)>(s: seq<K>)
    requires Distinct(s) && s != []
    ensures Distinct(s[1..]) && forall x :: x in s[1..] <==> x in s && x != s[0]
  {
  }

  lemma StampValid<K(!new)>(c: Cursors<K>, k: K, worker: string)
    requires Valid(c)
    ensures Valid(Stamp(c, k, worker))
    ensures Get(Stamp(c, k, worker), k) == worker
    ensures Stamp(c, k, worker).order != [] && Stamp(c, k, worker).order[|Stamp(c, k, worker).order| - 1] == k
  {
    RenewDistinct(c.order, k);
    var order := Renew(c.order, k);
    DistinctTail(order);
    if |order| > MAX_WORKER_CURSORS { assert order[|order| - 1] in order[1..]; }
  }

  lemma RenewTwice<K(!new)>(order: seq<K>, k: K, cut: nat)
    requires cut < |Renew(order, k)|
    ensures Renew(Renew(order, k)[cut..], k) == Renew(order, k)[cut..]
  {
    var w := Without(order, k);
    assert (w + [k])[cut..] == w[cut..] + [k];
    assert forall x :: x in w[cut..] ==> x in w;
    WithoutLast(w[cut..], k);
  }

  /** Serving the same tag set again only replaces its worker. */
  lemma StampTwice<K(!new)>(c: Cursors<K>, k: K, a: string, b: string)
    requires Valid(c)
    ensures Stamp(Stamp(c, k, a), k, b) == Stamp(c, k, b)
  {
    var order := Renew(c.order, k);
    RenewDistinct(c.order, k);
    if |order| > MAX_WORKER_CURSORS {
      DistinctTail(order);
      RenewTwice(c.order, k, 1);
      assert order[|order| - 1] in order[1..];
      LastTwice(c.last, k, a, b, {order[0]});
    } else {
      RenewTwice(c.order, k, 0);
      assert order[0..] == order;
      assert c.last[k := a][k := b] == c.last[k := b];
    }
  }

  lemma LastTwice<K(!new)>(last: map<K, string>, k: K, a: string, b: string, gone: set<K>)
    requires k !in gone
    ensures (last[k := a] - gone)[k := b] == last[k := b] - gone
  {
  }

  // ---------------------------------------------------------------- least recently used

  datatype Use<K> = Use(key: K, worker: string)

  function Replay<K(==,!new)>(uses: seq<Use<K>>): Cursors<K>
    decreases |uses|
  {
    if uses == [] then Cursors([], map[])
    else
      var u := uses[|uses| - 1];
      Stamp(Replay(uses[..|uses| - 1]), u.key, u.worker)
  }

  /** All keys ever served, least recently served first: what an unbounded map would hold. */
  function Recency<K(==,!new)>(uses: seq<Use<K>>): seq<K>
    decreases |uses|
  {
    if uses == [] then [] else Renew(Recency(uses[..|uses| - 1]), uses[|uses| - 1].key)
  }

  /** The worker a key was served by last, "" when never. */
  function LastWorker<K(==,!new)>(uses: seq<Use<K>>, k: K): string
    decreases |uses|
  {
    if uses == [] then ""
    else if uses[|uses| - 1].key == k then uses[|uses| - 1].worker
    else LastWorker(uses[..|uses| - 1], k)
  }

  function LastOf<K>(s: seq<K>, n: nat): seq<K> {
    if |s| <= n then s else s[|s| - n..]
  }

  lemma {:induction false} WithoutConcat<K(!new)>(a: seq<K>, b: seq<K>, k: K)
    ensures Without(a + b, k) == Without(a, k) + Without(b, k)
    decreases a
  {
    if a == [] {
      assert a + b == b;
    } else {
      assert (a + b)[0] == a[0] && (a + b)[1..] == a[1..] + b;
      WithoutConcat(a[1..], b, k);
    }
  }

  lemma {:induction false} DistinctConcat<K(!new)>(a: seq<K>, b: seq<K>)
    requires Distinct(a + b)
    ensures Distinct(a) && Distinct(b) && forall x :: x in a ==> x !in b
    decreases a
  {
    if a == [] {
      assert a + b == b;
    } else {
      assert (a + b)[0] == a[0] && (a + b)[1..] == a[1..] + b;
      DistinctConcat(a[1..], b);
    }
  }

  /** Renewing a key of the unbounded order, seen from its recent part. */
  lemma RenewSuffix<K(!new)>(past: seq<K>, recent: seq<K>, k: K)
    requires Distinct(past + recent) && past != [] && |recent| == MAX_WORKER_CURSORS
    ensures LastOf(Renew(recent, k), MAX_WORKER_CURSORS) == LastOf(Renew(past + recent, k), MAX_WORKER_CURSORS)
  {
    DistinctConcat(past, recent);
    WithoutConcat(past, recent, k);
    WithoutDistinct(past, k);
    var w, front := Without(recent, k), Without(past, k);
    assert (front + w) + [k] == front + (w + [k]);
    if k in past {
      WithoutAbsent(recent, k);
      LastOfConcat(front, recent + [k]);
    } else {
      WithoutAbsent(past, k);
      if k in recent {
        WithoutDistinct(recent, k);
        LastOfConcat(front, w + [k]);
      } else {
        WithoutAbsent(recent, k);
        LastOfConcat(front, recent + [k]);
      }
    }
  }

  lemma LastOfConcat<K>(front: seq<K>, back: seq<K>)
    requires |back| >= MAX_WORKER_CURSORS
    ensures LastOf(front + back, MAX_WORKER_CURSORS) == LastOf(back, MAX_WORKER_CURSORS)
  {
  }

  /** Renewing commutes with keeping only the most recent keys. */
  lemma RenewRecent<K(!new)>(all: seq<K>, k: K)
    requires Distinct(all)
    ensures LastOf(Renew(LastOf(all, MAX_WORKER_CURSORS), k), MAX_WORKER_CURSORS)
         == LastOf(Renew(all, k), MAX_WORKER_CURSORS)
  {
    if |all| > MAX_WORKER_CURSORS {
      var cut := |all| - MAX_WORKER_CURSORS;
      assert all == all[..cut] + all[cut..];
      RenewSuffix(all[..cut], all[cut..], k);
    }
  }

  lemma StampOrder<K(!new)>(c: Cursors<K>, k: K, worker: string)
    requires Valid(c)
    ensures Stamp(c, k, worker).order == LastOf(Renew(c.order, k), MAX_WORKER_CURSORS)
  {
    RenewDistinct(c.order, k);
  }

  /** The bounded map is exactly the most recent part of the unbounded one: a key keeps its cursor
      while fewer than 1024 others have been served since. */
  lemma {:induction false} KeepsMostRecent<K(!new)>(uses: seq<Use<K>>)
    ensures Distinct(Recency(uses)) && Valid(Replay(uses))
    ensures Replay(uses).order == LastOf(Recency(uses), MAX_WORKER_CURSORS)
    decreases |uses|
  {
    if uses != [] {
      var u, before := uses[|uses| - 1], uses[..|uses| - 1];
      KeepsMostRecent(before);
      StampValid(Replay(before), u.key, u.worker);
      StampOrder(Replay(before), u.key, u.worker);
      RenewDistinct(Recency(before), u.key);
      RenewRecent(Recency(before), u.key);
    }
  }

  lemma {:induction false} RemembersWorker<K(!new)>(uses: seq<Use<K>>, k: K)
    ensures k in Replay(uses).last ==> Get(Replay(uses), k) == LastWorker(uses, k)
    decreases |uses|
  {
    if uses != [] { RemembersWorker(uses[..|uses| - 1], k); }
  }
}

/** src/symba/services/matcher.py: capacity, ordering and placement of one tag group's batch. */
module Matching {
  import opened Claims
  import opened Numbers
  import opened Workers
  import opened TextOrder
  import opened CursorMap
  import WorkerRing
  import RingRuns
  import opened Fleets
  import Fairness

  datatype Attribution = Attribution(jobId: string, workerId: string, leaseToken: string)

  // ---------------------------------------------------------------- sorting the workers

  predicate DistinctIds(ws: seq<WorkerConn>) {
    forall i, j :: 0 <= i < j < |ws| ==> ws[i].workerId != ws[j].workerId
  }

  function Ids(ws: seq<WorkerConn>): (ids: seq<string>)
    ensures |ids| == |ws| && forall i :: 0 <= i < |ws| ==> ids[i] == ws[i].workerId
  {
    if ws == [] then [] else [ws[0].workerId] + Ids(ws[1..])
  }

  function InsertById(ws: seq<WorkerConn>, w: WorkerConn): seq<WorkerConn> {
    if ws == [] then [w]
    else if LessEq(w.workerId, ws[0].workerId) then [w] + ws
    else [ws[0]] + InsertById(ws[1..], w)
  }

  lemma {:induction false} InsertSorts(ws: seq<WorkerConn>, w: WorkerConn)
    requires Ascending(Ids(ws)) && forall x :: x in ws ==> x.workerId != w.workerId
    ensures Ascending(Ids(InsertById(ws, w)))
    ensures multiset(InsertById(ws, w)) == multiset(ws) + multiset{w}
    decreases |ws|
  {
    if ws == [] {
      assert Ids([w]) == [w.workerId];
    } else if LessEq(w.workerId, ws[0].workerId) {
      InsertFront(ws, w);
    } else {
      assert Ids(ws[1..]) == Ids(ws)[1..];
      assert ws == [ws[0]] + ws[1..];
      InsertSorts(ws[1..], w);
      InsertLater(ws, w, InsertById(ws[1..], w));
    }
  }

  lemma InsertFront(ws: seq<WorkerConn>, w: WorkerConn)
    requires ws != [] && Ascending(Ids(ws)) && LessEq(w.workerId, ws[0].workerId)
    requires forall x :: x in ws ==> x.workerId != w.workerId
    ensures Ascending(Ids([w] + ws))
  {
    var ids := Ids([w] + ws);
    forall i, j | 0 <= i < j < |ids|
      ensures LessEq(ids[i], ids[j]) && ids[i] != ids[j]
    {
      assert ids[j] == Ids(ws)[j - 1] && ws[j - 1] in ws;
      if i == 0 {
        if j > 1 { Transitive(w.workerId, Ids(ws)[0], Ids(ws)[j - 1]); }
      } else {
        assert ids[i] == Ids(ws)[i - 1];
      }
    }
  }

  lemma InsertLater(ws: seq<WorkerConn>, w: WorkerConn, r: seq<WorkerConn>)
    requires ws != [] && Ascending(Ids(ws)) && !LessEq(w.workerId, ws[0].workerId)
    requires Ascending(Ids(r)) && multiset(r) == multiset(ws[1..]) + multiset{w}
    ensures Ascending(Ids([ws[0]] + r))
  {
    var ids := Ids([ws[0]] + r);
    forall i, j | 0 <= i < j < |ids|
      ensures LessEq(ids[i], ids[j]) && ids[i] != ids[j]
    {
      assert ids[j] == Ids(r)[j - 1];
      if i == 0 {
        HeadBelow(ws, w, r, j - 1);
      } else {
        assert ids[i] == Ids(r)[i - 1];
      }
    }
  }

  lemma HeadBelow(ws: seq<WorkerConn>, w: WorkerConn, r: seq<WorkerConn>, j: nat)
    requires ws != [] && Ascending(Ids(ws)) && !LessEq(w.workerId, ws[0].workerId)
    requires multiset(r) == multiset(ws[1..]) + multiset{w} && j < |r|
    ensures LessEq(ws[0].workerId, r[j].workerId) && ws[0].workerId != r[j].workerId
  {
    var x := r[j];
    assert x in multiset(r);
    if x == w {
      Total(ws[0].workerId, w.workerId);
    } else {
      assert x in ws[1..];
      var m :| 0 <= m < |ws[1..]| && ws[1..][m] == x;
      assert Ids(ws)[m + 1] == x.workerId && Ids(ws)[0] == ws[0].workerId;
    }
  }

  /** The stable ring: the group's workers in order of their ids. */
  function Ring(ws: seq<WorkerConn>): (r: seq<WorkerConn>)
    requires DistinctIds(ws)
    ensures Ascending(Ids(r))
    ensures multiset(r) == multiset(ws)
    decreases |ws|
  {
    if ws == [] then []
    else
      var front := ws[..|ws| - 1];
      assert ws == front + [ws[|ws| - 1]];
      assert forall x :: x in front ==> x.workerId != ws[|ws| - 1].workerId;
      assert forall x :: x in Ring(front) ==> x in multiset(front);
      InsertSorts(Ring(front), ws[|ws| - 1]);
      InsertById(Ring(front), ws[|ws| - 1])
  }

  // ---------------------------------------------------------------- what a batch does

  /** `capacity.get(worker_id, 0)` for every worker of the ring. */
  function Caps(ids: seq<string>, capacity: map<string, int>): (c: seq<int>)
    ensures |c| == |ids|
  {
    if ids == [] then []
    else [if ids[0] in capacity then capacity[ids[0]] else 0] + Caps(ids[1..], capacity)
  }

  ghost predicate InRing(targets: seq<nat>, n: nat) {
    forall k :: 0 <= k < |targets| ==> targets[k] < n
  }

  /** The jobs that went to ring position `i`, in order. */
  ghost function Given(jobs: seq<ClaimedJob>, targets: seq<nat>, i: nat): seq<ClaimedJob>
    requires |targets| <= |jobs|
    decreases |targets|
  {
    if targets == [] then []
    else
      var n := |targets| - 1;
      Given(jobs, targets[..n], i) + (if targets[n] == i then [jobs[n]] else [])
  }

  /** free_slots after `c` decrements that stop at zero. */
  function Drained(free: int, c: nat): int {
    if c == 0 then free else Max(0, free - c)
  }

  ghost function Attribute(jobs: seq<ClaimedJob>, ids: seq<string>, targets: seq<nat>): seq<Attribution>
    requires |targets| <= |jobs| && InRing(targets, |ids|)
    decreases |targets|
  {
    if targets == [] then []
    else
      var n := |targets| - 1;
      Attribute(jobs, ids, targets[..n]) + [Attribution(jobs[n].id, ids[targets[n]], jobs[n].leaseToken)]
  }

  lemma GivenStep(jobs: seq<ClaimedJob>, targets: seq<nat>, i: nat, x: nat)
    requires |targets| < |jobs|
    ensures Given(jobs, targets + [i], x) == Given(jobs, targets, x) + (if i == x then [jobs[|targets|]] else [])
    ensures WorkerRing.Count(targets + [i], x) == WorkerRing.Count(targets, x) + (if i == x then 1 else 0)
  {
    assert (targets + [i])[..|targets|] == targets;
    WorkerRing.CountConcat(targets, [i], x);
    assert [i][1..] == [];
  }

  lemma AttributeStep(jobs: seq<ClaimedJob>, ids: seq<string>, targets: seq<nat>, i: nat)
    requires |targets| < |jobs| && i < |ids| && InRing(targets, |ids|)
    ensures Attribute(jobs, ids, targets + [i])
         == Attribute(jobs, ids, targets) + [Attribution(jobs[|targets|].id, ids[i], jobs[|targets|].leaseToken)]
  {
    assert (targets + [i])[..|targets|] == targets;
  }

  /** The workers' queues and free slots, in ring order. */
  datatype Load = Load(queue: seq<ClaimedJob>, free: int)

  ghost function Loads(ring: seq<WorkerConn>): (l: seq<Load>)
    reads ring
  {
    seq(|ring|, i requires 0 <= i < |ring| reads ring => Load(ring[i].queue, ring[i].freeSlots))
  }

  /** What a batch does to the ring: queues and free slots follow the placements. */
  ghost predicate Placed(before: seq<Load>, after: seq<Load>, jobs: seq<ClaimedJob>, targets: seq<nat>) {
    && |before| == |after| && |targets| <= |jobs|
    && forall i :: 0 <= i < |before| ==> Served(before[i], after[i], jobs, targets, i)
  }

  ghost predicate Served(before: Load, after: Load, jobs: seq<ClaimedJob>, targets: seq<nat>, i: nat)
    requires |targets| <= |jobs|
  {
    && after.queue == before.queue + Given(jobs, targets, i)
    && after.free == Drained(before.free, WorkerRing.Count(targets, i))
  }

  lemma PlacedNothing(loads: seq<Load>, jobs: seq<ClaimedJob>)
    ensures Placed(loads, loads, jobs, [])
  {
    forall i | 0 <= i < |loads|
      ensures Served(loads[i], loads[i], jobs, [], i)
    {
      assert loads[i].queue + [] == loads[i].queue;
    }
  }

  /** The ring's loads once worker `i` got `job`. */
  ghost function Handed(loads: seq<Load>, i: nat, job: ClaimedJob): seq<Load>
    requires i < |loads|
  {
    loads[i := Load(loads[i].queue + [job], Max(0, loads[i].free - 1))]
  }

  lemma PlacedStep(before: seq<Load>, mid: seq<Load>, jobs: seq<ClaimedJob>, targets: seq<nat>, i: nat)
    requires Placed(before, mid, jobs, targets) && |targets| < |jobs| && i < |mid|
    ensures Placed(before, Handed(mid, i, jobs[|targets|]), jobs, targets + [i])
  {
    var after := Handed(mid, i, jobs[|targets|]);
    forall x | 0 <= x < |before|
      ensures Served(before[x], after[x], jobs, targets + [i], x)
    {
      assert Served(before[x], mid[x], jobs, targets, x);
      GivenStep(jobs, targets, i, x);
    }
  }

  /** Each placed job is stamped, under its own lease, with the worker it was placed with. */
  lemma {:induction false} AttributeAt(jobs: seq<ClaimedJob>, ids: seq<string>, targets: seq<nat>, k: nat)
    requires k < |targets| <= |jobs| && InRing(targets, |ids|)
    ensures |Attribute(jobs, ids, targets)| == |targets|
    ensures var a := Attribute(jobs, ids, targets)[k];
            a.jobId == jobs[k].id && a.workerId == ids[targets[k]] && a.leaseToken == jobs[k].leaseToken
    decreases |targets|
  {
    var n := |targets| - 1;
    if n > 0 { AttributeAt(jobs, ids, targets[..n], if k < n then k else 0); }
  }

  /** Every job placed is in the queue of the worker it was placed with, and the queues together grow by as many
      jobs as were placed. */
  lemma {:induction false} PlacedJobIsQueued(jobs: seq<ClaimedJob>, targets: seq<nat>, k: nat)
    requires k < |targets| <= |jobs|
    ensures jobs[k] in Given(jobs, targets, targets[k])
    decreases |targets|
  {
    var n := |targets| - 1;
    if k < n {
      assert targets[..n][k] == targets[k];
      PlacedJobIsQueued(jobs, targets[..n], k);
    }
  }

  lemma {:induction false} QueueGrowth(jobs: seq<ClaimedJob>, targets: seq<nat>, i: nat)
    requires |targets| <= |jobs|
    ensures |Given(jobs, targets, i)| == WorkerRing.Count(targets, i)
    decreases |targets|
  {
    if targets != [] {
      var n := |targets| - 1;
      QueueGrowth(jobs, targets[..n], i);
      assert targets == targets[..n] + [targets[n]];
      GivenStep(jobs, targets[..n], targets[n], i);
    }
  }

  lemma RingMembers(ws: seq<WorkerConn>)
    requires DistinctIds(ws)
    ensures forall w :: w in Ring(ws) <==> w in ws
  {
    forall w
      ensures w in Ring(ws) <==> w in ws
    {
      assert w in multiset(Ring(ws)) <==> w in multiset(ws);
    }
  }

  /** Hand one job to a worker of the ring. */
  method Give(w: WorkerConn, job: ClaimedJob, ghost ring: seq<WorkerConn>, ghost i: nat)
    requires i < |ring| && ring[i] == w && Separate(ring)
    modifies w`queue, w`freeSlots
    ensures Loads(ring) == Handed(old(Loads(ring)), i, job)
  {
    w.queue := w.queue + [job];
    w.freeSlots := Max(0, w.freeSlots - 1);
  }

  ghost predicate Separate(ring: seq<WorkerConn>) {
    forall i, j :: 0 <= i < j < |ring| ==> ring[i] != ring[j]
  }

  /** The inner loop: the next worker, round-robin, that still has room. */
  method NextWithRoom(room: seq<int>, start: nat) returns (found: WorkerRing.Found)
    requires start < |room|
    ensures found == WorkerRing.Probe(room, start, |room|)
  {
    var pos: nat := start;
    for k := 0 to |room|
      invariant pos < |room|
      invariant var f := WorkerRing.Probe(room, pos, |room| - k);
                WorkerRing.Probe(room, start, |room|)
                == match f case Nobody => WorkerRing.Nobody case Found(at, s) => WorkerRing.Found(at, s + k)
    {
      if room[pos] > 0 {
        return WorkerRing.Found(pos, k + 1);
      }
      pos := WorkerRing.Succ(pos, |room|);
    }
    return WorkerRing.Nobody;
  }

  /** After `t` jobs: the placements so far are the scan's, and the rest of the scan continues from
      here; a job was passed over only once every worker was full. */
  ghost predicate Progress(m: nat, plan: seq<nat>, t: nat, room: seq<int>, pos: nat, targets: seq<nat>) {
    && pos < |room| && |targets| <= t <= m
    && InRing(targets, |room|)
    && (|targets| == t || forall i :: 0 <= i < |room| ==> room[i] <= 0)
    && plan == targets + WorkerRing.Assign(room, pos, m - t).targets
  }

  lemma HitStep(m: nat, plan: seq<nat>, t: nat, room: seq<int>, pos: nat, targets: seq<nat>, at: nat, steps: nat)
    requires Progress(m, plan, t, room, pos, targets) && t < m
    requires WorkerRing.Probe(room, pos, |room|) == WorkerRing.Found(at, steps)
    ensures |targets| == t && at < |room|
    ensures Progress(m, plan, t + 1, room[at := room[at] - 1], WorkerRing.Succ(at, |room|), targets + [at])
  {
    var rest := WorkerRing.Assign(room[at := room[at] - 1], WorkerRing.Succ(at, |room|), m - t - 1).targets;
    assert WorkerRing.Assign(room, pos, m - t).targets == [at] + rest;
    assert targets + ([at] + rest) == (targets + [at]) + rest;
  }

  lemma MissStep(m: nat, plan: seq<nat>, t: nat, room: seq<int>, pos: nat, targets: seq<nat>)
    requires Progress(m, plan, t, room, pos, targets) && t < m
    requires WorkerRing.Probe(room, pos, |room|).Nobody?
    ensures Progress(m, plan, t + 1, room, pos, targets)
  {
    WorkerRing.NobodyMeansFull(room, pos);
  }

  ghost function CursorAfter(before: Cursors<set<string>>, key: set<string>, ids: seq<string>, targets: seq<nat>)
    : Cursors<set<string>>
    requires InRing(targets, |ids|)
  {
    if targets == [] then before else Stamp(before, key, ids[targets[|targets| - 1]])
  }

  lemma StampAgain(before: Cursors<set<string>>, key: set<string>, ids: seq<string>, targets: seq<nat>, i: nat)
    requires Valid(before) && i < |ids| && InRing(targets, |ids|)
    ensures Stamp(CursorAfter(before, key, ids, targets), key, ids[i]) == CursorAfter(before, key, ids, targets + [i])
  {
    if targets != [] { StampTwice(before, key, ids[targets[|targets| - 1]], ids[i]); }
  }

  /** What the placement loop keeps: everything so far follows from the targets so far. */
  ghost predicate Batch(jobs: seq<ClaimedJob>, ids: seq<string>, key: set<string>, before: seq<Load>, after: seq<Load>,
                        cursors: Cursors<set<string>>, cursor: Cursors<set<string>>, targets: seq<nat>,
                        attribution: seq<Attribution>)
  {
    && |targets| <= |jobs| && InRing(targets, |ids|)
    && attribution == Attribute(jobs, ids, targets)
    && Placed(before, after, jobs, targets)
    && cursor == CursorAfter(cursors, key, ids, targets)
  }

  lemma BatchStep(jobs: seq<ClaimedJob>, ids: seq<string>, key: set<string>, before: seq<Load>, after: seq<Load>,
                  cursors: Cursors<set<string>>, cursor: Cursors<set<string>>, targets: seq<nat>,
                  attribution: seq<Attribution>, i: nat)
    requires Batch(jobs, ids, key, before, after, cursors, cursor, targets, attribution) && Valid(cursors)
    requires |targets| < |jobs| && i < |ids| == |after|
    ensures var job := jobs[|targets|];
            Batch(jobs, ids, key, before, Handed(after, i, job), cursors, Stamp(cursor, key, ids[i]), targets + [i],
                  attribution + [Attribution(job.id, ids[i], job.leaseToken)])
  {
    AttributeStep(jobs, ids, targets, i);
    StampAgain(cursors, key, ids, targets, i);
    PlacedStep(before, after, jobs, targets, i);
  }

  class Matcher {
    var lastWorkerByTags: Cursors<set<string>>

    /** One turn of the placement loop: the job goes to the next worker with room, if there is one. */
    method PlaceOne(ghost jobs: seq<ClaimedJob>, job: ClaimedJob, ring: seq<WorkerConn>, ids: seq<string>,
                    tagKey: set<string>, remaining: seq<int>, pos: nat, attribution: seq<Attribution>,
                    ghost plan: seq<nat>, ghost t: nat, ghost targets: seq<nat>,
                    ghost before: seq<Load>, ghost cursors: Cursors<set<string>>)
      returns (remaining': seq<int>, pos': nat, attribution': seq<Attribution>, ghost targets': seq<nat>)
      requires |ring| == |ids| == |remaining| && Separate(ring) && Valid(cursors) && t < |jobs| && job == jobs[t]
      requires Progress(|jobs|, plan, t, remaining, pos, targets)
      requires Batch(jobs, ids, tagKey, before, Loads(ring), cursors, lastWorkerByTags, targets, attribution)
      modifies this, (set w | w in ring)`queue, (set w | w in ring)`freeSlots
      ensures |remaining'| == |ids| && Progress(|jobs|, plan, t + 1, remaining', pos', targets')
      ensures Batch(jobs, ids, tagKey, before, Loads(ring), cursors, lastWorkerByTags, targets', attribution')
    {
      remaining', pos', attribution', targets' := remaining, pos, attribution, targets;
      var found := NextWithRoom(remaining, pos);
      if found.Nobody? {
        MissStep(|jobs|, plan, t, remaining, pos, targets);
        return;
      }
      var i := found.at;
      HitStep(|jobs|, plan, t, remaining, pos, targets, i, found.steps);
      BatchStep(jobs, ids, tagKey, before, Loads(ring), cursors, lastWorkerByTags, targets, attribution, i);
      lastWorkerByTags := Stamp(lastWorkerByTags, tagKey, ids[i]);
      Give(ring[i], job, ring, i);
      remaining' := remaining[i := remaining[i] - 1];
      attribution' := attribution + [Attribution(job.id, ids[i], job.leaseToken)];
      targets', pos' := targets + [i], WorkerRing.Succ(i, |ids|);
    }

    /** The placement loop over the sorted ring. */
    method PlaceBatch(jobs: seq<ClaimedJob>, ring: seq<WorkerConn>, ids: seq<string>, capacity: seq<int>,
                      tagKey: set<string>, start: nat)
      returns (attribution: seq<Attribution>, ghost targets: seq<nat>)
      requires |ring| == |ids| == |capacity| && start < |ids| && Separate(ring) && Valid(lastWorkerByTags)
      modifies this, (set w | w in ring)`queue, (set w | w in ring)`freeSlots
      ensures targets == WorkerRing.Assign(capacity, start, |jobs|).targets
      ensures |targets| <= |jobs| && InRing(targets, |ids|)
      ensures attribution == Attribute(jobs, ids, targets)
      ensures Placed(old(Loads(ring)), Loads(ring), jobs, targets)
      ensures lastWorkerByTags == CursorAfter(old(lastWorkerByTags), tagKey, ids, targets)
    {
      var pos: nat, remaining := start, capacity;
      attribution, targets := [], [];
      ghost var before, cursors := Loads(ring), lastWorkerByTags;
      PlacedNothing(before, jobs);
      ghost var plan := WorkerRing.Assign(capacity, start, |jobs|).targets;
      for t := 0 to |jobs|
        invariant |remaining| == |ids|
        invariant Progress(|jobs|, plan, t, remaining, pos, targets)
        invariant Batch(jobs, ids, tagKey, before, Loads(ring), cursors, lastWorkerByTags, targets, attribution)
      {
        remaining, pos, attribution, targets :=
          PlaceOne(jobs, jobs[t], ring, ids, tagKey, remaining, pos, attribution, plan, t, targets, before, cursors);
      }
    }

    /** Every claimed job of the batch goes to the next worker of the ring with room; queues, free
        slots and attribution follow, and the cursor remembers the last worker served. */
    method AssignRoundRobin(jobs: seq<ClaimedJob>, workers: seq<WorkerConn>, capacity: map<string, int>)
      returns (attribution: seq<Attribution>, ghost ring: seq<WorkerConn>, ghost targets: seq<nat>)
      requires Valid(lastWorkerByTags) && DistinctIds(workers)
      modifies this, (set w | w in workers)`queue, (set w | w in workers)`freeSlots
      ensures ring == Ring(workers) && (forall w :: w in ring ==> w in workers)
      ensures jobs == [] || workers == [] ==> targets == []
      ensures ring != [] ==>
                targets == Plan(|jobs|, Ids(ring), capacity, Get(old(lastWorkerByTags), ring[0].tags))
      ensures |targets| <= |jobs| && InRing(targets, |ring|)
      ensures attribution == Attribute(jobs, Ids(ring), targets)
      ensures Placed(old(Loads(ring)), Loads(ring), jobs, targets)
      ensures lastWorkerByTags == if ring == [] then old(lastWorkerByTags)
              else CursorAfter(old(lastWorkerByTags), ring[0].tags, Ids(ring), targets)
      ensures Valid(lastWorkerByTags)
    {
      attribution, targets := [], [];
      RingMembers(workers);
      var sorted := Ring(workers);
      ring := sorted;
      PlacedNothing(Loads(sorted), jobs);
      if jobs == [] || workers == [] {
        return;
      }
      var ids := Ids(sorted);
      RingSeparate(sorted);
      var tagKey := sorted[0].tags;
      var start := RingRuns.Start(ids, Get(lastWorkerByTags, tagKey));
      attribution, targets := PlaceBatch(jobs, sorted, ids, Caps(ids, capacity), tagKey, start);
      CursorValid(old(lastWorkerByTags), tagKey, ids, targets);
    }

    /** `_match_tag_group` after the claim: shape, then place. When the claim kept to the limit no
        claimed job is left without a worker. */
    method Dispatch(claimed: seq<ClaimedJob>, workers: seq<WorkerConn>, capacity: map<string, int>)
      returns (attribution: seq<Attribution>, ghost ring: seq<WorkerConn>, ghost targets: seq<nat>)
      requires Valid(lastWorkerByTags) && DistinctIds(workers)
      requires workers != [] && |claimed| <= Sum(workers, capacity)
      modifies this, (set w | w in workers)`queue, (set w | w in workers)`freeSlots
      ensures ring == Ring(workers) && ring != [] && (forall w :: w in ring ==> w in workers)
      ensures AllHandedOut(claimed, ring, capacity, targets, attribution)
      ensures Queued(claimed, old(Loads(ring)), Loads(ring), targets)
      ensures Remembers(old(lastWorkerByTags), lastWorkerByTags, ring[0].tags, Ids(ring), targets)
      ensures Valid(lastWorkerByTags)
    {
      ghost var before, cursors := Loads(Ring(workers)), lastWorkerByTags;
      var ordered := Fairness.FairnessShape(claimed);
      assert Loads(Ring(workers)) == before;
      attribution, ring, targets := AssignRoundRobin(ordered, workers, capacity);
      assert Placed(before, Loads(ring), ordered, targets);
      PlanHandsOut(claimed, workers, capacity, Get(cursors, ring[0].tags));
      CursorNamesLast(cursors, ring[0].tags, Ids(ring), targets);
    }
  }

  /** Every claimed job is with a worker of the ring, in the fair order, and no worker has more of them
      than its capacity. */
  ghost predicate AllHandedOut(claimed: seq<ClaimedJob>, ring: seq<WorkerConn>, capacity: map<string, int>,
                               targets: seq<nat>, attribution: seq<Attribution>)
  {
    && |targets| == |claimed| == |Fairness.Shape(claimed)|
    && InRing(targets, |ring|)
    && attribution == Attribute(Fairness.Shape(claimed), Ids(ring), targets)
    && forall i :: 0 <= i < |ring| ==> WorkerRing.Count(targets, i) <= WorkerRing.Pos(Room(ring[i], capacity))
  }

  /** The workers' queues and free slots follow the placements of the fair order. */
  ghost predicate Queued(claimed: seq<ClaimedJob>, before: seq<Load>, after: seq<Load>, targets: seq<nat>) {
    Placed(before, after, Fairness.Shape(claimed), targets)
  }

  /** As long as no worker is handed more than it has free, each has exactly that many fewer free, and that many
      more jobs in its queue, after those it had. */
  lemma QueuedExactly(claimed: seq<ClaimedJob>, before: seq<Load>, after: seq<Load>, targets: seq<nat>, i: nat)
    requires Queued(claimed, before, after, targets) && i < |before|
    requires WorkerRing.Count(targets, i) == 0 || WorkerRing.Count(targets, i) <= before[i].free
    ensures after[i].free == before[i].free - WorkerRing.Count(targets, i)
    ensures before[i].queue <= after[i].queue && |after[i].queue| == |before[i].queue| + WorkerRing.Count(targets, i)
  {
    assert Served(before[i], after[i], Fairness.Shape(claimed), targets, i);
    QueueGrowth(Fairness.Shape(claimed), targets, i);
  }

  /** The tag set's cursor names the worker of the last placement. */
  ghost predicate Remembers(before: Cursors<set<string>>, after: Cursors<set<string>>, key: set<string>, ids: seq<string>,
                            targets: seq<nat>)
  {
    && InRing(targets, |ids|)
    && after == CursorAfter(before, key, ids, targets)
    && (targets != [] ==> Get(after, key) == ids[targets[|targets| - 1]])
  }

  lemma CursorNamesLast(before: Cursors<set<string>>, key: set<string>, ids: seq<string>, targets: seq<nat>)
    requires Valid(before) && InRing(targets, |ids|)
    ensures Remembers(before, CursorAfter(before, key, ids, targets), key, ids, targets)
  {
    if targets != [] { StampValid(before, key, ids[targets[|targets| - 1]]); }
  }

  lemma NothingToHandOut(ring: seq<WorkerConn>, capacity: map<string, int>, loads: seq<Load>)
    ensures AllHandedOut([], ring, capacity, [], []) && Queued([], loads, loads, [])
  {
    ShapeLength([]);
    PlacedNothing(loads, Fairness.Shape([]));
  }

  lemma PlanHandsOut(claimed: seq<ClaimedJob>, workers: seq<WorkerConn>, capacity: map<string, int>, cursor: string)
    requires DistinctIds(workers) && workers != [] && |claimed| <= Sum(workers, capacity)
    ensures Ring(workers) != [] && |Fairness.Shape(claimed)| == |claimed|
    ensures var ids, ordered := Ids(Ring(workers)), Fairness.Shape(claimed);
            var t := Plan(|ordered|, ids, capacity, cursor);
            InRing(t, |ids|) && |t| == |claimed|
            && AllHandedOut(claimed, Ring(workers), capacity, t, Attribute(ordered, ids, t))
  {
    RingNotEmpty(workers);
    ShapeLength(claimed);
    LimitIsTotal(Ring(workers), workers, capacity);
    PlanTotal(|claimed|, Ids(Ring(workers)), capacity, cursor);
    PlanWithin(|claimed|, Ring(workers), capacity, cursor);
  }

  lemma RingNotEmpty(workers: seq<WorkerConn>)
    requires DistinctIds(workers) && workers != []
    ensures Ring(workers) != []
  {
    assert workers[0] in multiset(Ring(workers));
  }

  lemma {:induction false} CapsAt(ids: seq<string>, capacity: map<string, int>, i: nat)
    requires i < |ids|
    ensures Caps(ids, capacity)[i] == if ids[i] in capacity then capacity[ids[i]] else 0
    decreases ids
  {
    if i > 0 { CapsAt(ids[1..], capacity, i - 1); }
  }

  lemma PlanWithin(m: nat, ring: seq<WorkerConn>, capacity: map<string, int>, cursor: string)
    requires ring != [] && Ascending(Ids(ring))
    ensures forall i :: 0 <= i < |ring| ==>
              WorkerRing.Count(Plan(m, Ids(ring), capacity, cursor), i) <= WorkerRing.Pos(Room(ring[i], capacity))
  {
    forall i | 0 <= i < |ring|
      ensures WorkerRing.Count(Plan(m, Ids(ring), capacity, cursor), i) <= WorkerRing.Pos(Room(ring[i], capacity))
    {
      PlanFair(m, Ids(ring), capacity, cursor, i, i);
      CapsAt(Ids(ring), capacity, i);
    }
  }

  lemma ShapeLength(claimed: seq<ClaimedJob>)
    ensures |Fairness.Shape(claimed)| == |claimed|
  {
    Fairness.ShapeIsFair(claimed);
    assert |multiset(Fairness.Shape(claimed))| == |multiset(claimed)|;
  }

  /** Where a batch of `m` jobs goes, as ring positions. */
  function Plan(m: nat, ids: seq<string>, capacity: map<string, int>, cursor: string): seq<nat>
    requires ids != [] && Ascending(ids)
  {
    WorkerRing.Assign(Caps(ids, capacity), RingRuns.Start(ids, cursor), m).targets
  }

  /** As many jobs are placed as there is room for. */
  lemma PlanTotal(m: nat, ids: seq<string>, capacity: map<string, int>, cursor: string)
    requires ids != [] && Ascending(ids)
    ensures |Plan(m, ids, capacity, cursor)| == Min(m, WorkerRing.Total(Caps(ids, capacity)))
  {
    WorkerRing.AssignTotal(Caps(ids, capacity), RingRuns.Start(ids, cursor), m);
  }

  /** No worker beyond its capacity, and none with room left more than one job behind another. */
  lemma PlanFair(m: nat, ids: seq<string>, capacity: map<string, int>, cursor: string, a: nat, b: nat)
    requires ids != [] && Ascending(ids) && a < |ids| && b < |ids|
    ensures var t, caps := Plan(m, ids, capacity, cursor), Caps(ids, capacity);
            && WorkerRing.Count(t, a) <= WorkerRing.Pos(caps[a])
            && (WorkerRing.Count(t, a) < WorkerRing.Pos(caps[a]) ==> WorkerRing.Count(t, b) <= WorkerRing.Count(t, a) + 1)
  {
    WorkerRing.AssignFair(Caps(ids, capacity), RingRuns.Start(ids, cursor), m, a, b);
  }

  lemma RingSeparate(ring: seq<WorkerConn>)
    requires Ascending(Ids(ring))
    ensures Separate(ring)
  {
    forall i, j | 0 <= i < j < |ring|
      ensures ring[i] != ring[j]
    {
      assert Ids(ring)[i] != Ids(ring)[j];
    }
  }

  lemma CursorValid(before: Cursors<set<string>>, key: set<string>, ids: seq<string>, targets: seq<nat>)
    requires Valid(before) && InRing(targets, |ids|)
    ensures Valid(CursorAfter(before, key, ids, targets))
  {
    if targets != [] { StampValid(before, key, ids[targets[|targets| - 1]]); }
  }

  // ---------------------------------------------------------------- capacity

  /** Slot frames are advisory: a worker's capacity is what it reports free, bounded by its total
      less the jobs running under its name. The limit handed to the claim is their sum. */
  method CapacityByWorker(workers: seq<WorkerConn>, running: map<string, int>)
    returns (capacity: map<string, int>, limit: int)
    requires DistinctIds(workers)
    ensures forall w :: w in workers ==> w.workerId in capacity && capacity[w.workerId] == RoomOf(w, running)
    ensures limit == Sum(workers, capacity)
  {
    capacity, limit := map[], 0;
    for k := 0 to |workers|
      invariant forall j :: 0 <= j < k ==>
                  workers[j].workerId in capacity && capacity[workers[j].workerId] == RoomOf(workers[j], running)
      invariant forall j :: k <= j < |workers| ==> workers[j].workerId !in capacity
      invariant limit == Sum(workers[..k], capacity)
    {
      var c := RoomOf(workers[k], running);
      SumSnoc(workers, k, capacity, c);
      capacity := capacity[workers[k].workerId := c];
      limit := limit + c;
    }
    assert workers[..|workers|] == workers;
  }

  /** min(free_slots, max(0, slots_total - running)) */
  function RoomOf(w: WorkerConn, running: map<string, int>): int
    reads w
  {
    Capacity(w.freeSlots, w.slotsTotal, if w.workerId in running then running[w.workerId] else 0)
  }

  function Room(w: WorkerConn, capacity: map<string, int>): int {
    if w.workerId in capacity then capacity[w.workerId] else 0
  }

  function Sum(ws: seq<WorkerConn>, capacity: map<string, int>): int {
    if ws == [] then 0 else Room(ws[0], capacity) + Sum(ws[1..], capacity)
  }

  lemma {:induction false} SumConcat(ws: seq<WorkerConn>, w: WorkerConn, capacity: map<string, int>)
    ensures Sum(ws + [w], capacity) == Sum(ws, capacity) + Room(w, capacity)
    decreases ws
  {
    if ws == [] {
      assert (ws + [w])[1..] == [];
    } else {
      assert (ws + [w])[1..] == ws[1..] + [w];
      SumConcat(ws[1..], w, capacity);
    }
  }

  lemma {:induction false} SumSplit(ws: seq<WorkerConn>, k: nat, capacity: map<string, int>)
    requires k < |ws|
    ensures Sum(ws, capacity) == Room(ws[k], capacity) + Sum(ws[..k] + ws[k + 1..], capacity)
    decreases k
  {
    if k == 0 {
      assert ws[..0] + ws[1..] == ws[1..];
    } else {
      SumSplit(ws[1..], k - 1, capacity);
      assert (ws[..k] + ws[k + 1..])[1..] == ws[1..][..k - 1] + ws[1..][k..];
      assert ws[1..][k - 1] == ws[k];
    }
  }

  lemma SameWithout<T>(a: seq<T>, b: seq<T>, k: nat)
    requires a != [] && k < |b| && b[k] == a[0]
    requires multiset(a) == multiset(b)
    ensures multiset(a[1..]) == multiset(b[..k] + b[k + 1..])
  {
    assert a == [a[0]] + a[1..];
    assert b == b[..k] + ([b[k]] + b[k + 1..]);
    assert multiset(a[1..]) == multiset(a) - multiset{a[0]};
  }

  /** Reordering the workers does not change what they can take together. */
  lemma {:induction false} SumOfSame(a: seq<WorkerConn>, b: seq<WorkerConn>, capacity: map<string, int>)
    requires multiset(a) == multiset(b)
    ensures Sum(a, capacity) == Sum(b, capacity)
    decreases |a|
  {
    if a == [] {
      assert |multiset(b)| == 0;
    } else {
      assert a[0] in multiset(b);
      var k: nat :| k < |b| && b[k] == a[0];
      SameWithout(a, b, k);
      SumSplit(b, k, capacity);
      SumOfSame(a[1..], b[..k] + b[k + 1..], capacity);
    }
  }

  lemma {:induction false} SumIsTotalIff(ring: seq<WorkerConn>, capacity: map<string, int>)
    ensures Sum(ring, capacity) <= WorkerRing.Total(Caps(Ids(ring), capacity))
    ensures Sum(ring, capacity) == WorkerRing.Total(Caps(Ids(ring), capacity))
            <==> forall w :: w in ring ==> Room(w, capacity) >= 0
    decreases ring
  {
    if ring != [] {
      SumIsTotalIff(ring[1..], capacity);
      assert Ids(ring)[1..] == Ids(ring[1..]);
      assert Caps(Ids(ring), capacity)[1..] == Caps(Ids(ring[1..]), capacity);
      assert forall w :: w in ring <==> w == ring[0] || w in ring[1..];
    }
  }

  /** The limit handed to the claim never exceeds the room in the ring, and is exactly that when and only
      when no worker reports fewer than no slots. */
  lemma LimitIsTotal(ring: seq<WorkerConn>, workers: seq<WorkerConn>, capacity: map<string, int>)
    requires multiset(ring) == multiset(workers)
    ensures Sum(workers, capacity) <= WorkerRing.Total(Caps(Ids(ring), capacity))
    ensures Sum(workers, capacity) == WorkerRing.Total(Caps(Ids(ring), capacity))
            <==> forall w :: w in ring ==> Room(w, capacity) >= 0
  {
    SumOfSame(ring, workers, capacity);
    SumIsTotalIff(ring, capacity);
  }

  lemma SumSnoc(ws: seq<WorkerConn>, k: nat, capacity: map<string, int>, c: int)
    requires k < |ws| && DistinctIds(ws)
    ensures Sum(ws[..k + 1], capacity[ws[k].workerId := c]) == Sum(ws[..k], capacity) + c
  {
    assert ws[..k + 1] == ws[..k] + [ws[k]];
    SumConcat(ws[..k], ws[k], capacity[ws[k].workerId := c]);
    SumSame(ws[..k], capacity, capacity[ws[k].workerId := c]);
  }

  lemma {:induction false} SumSame(ws: seq<WorkerConn>, a: map<string, int>, b: map<string, int>)
    requires forall i :: 0 <= i < |ws| ==> Room(ws[i], a) == Room(ws[i], b)
    ensures Sum(ws, a) == Sum(ws, b)
    decreases ws
  {
    if ws != [] { SumSame(ws[1..], a, b); }
  }
}
