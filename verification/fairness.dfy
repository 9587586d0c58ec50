/** src/symba/services/matcher.py:290-315: priority bands, round-robin over groups inside a band. */
module Fairness {
  import opened Claims

  /** Ungrouped jobs are a group of their own. */
  function Key(j: ClaimedJob): string {
    if j.groupKey.Some? && j.groupKey.value != "" then j.groupKey.value else j.id
  }

  function OfKey(jobs: seq<ClaimedJob>, k: string): seq<ClaimedJob> {
    if jobs == [] then [] else (if Key(jobs[0]) == k then [jobs[0]] else []) + OfKey(jobs[1..], k)
  }

  function OfPriority(jobs: seq<ClaimedJob>, p: int): seq<ClaimedJob> {
    if jobs == [] then [] else (if jobs[0].priority == p then [jobs[0]] else []) + OfPriority(jobs[1..], p)
  }

  lemma OfKeyCons(x: ClaimedJob, rest: seq<ClaimedJob>, k: string)
    ensures OfKey([x] + rest, k) == (if Key(x) == k then [x] else []) + OfKey(rest, k)
  {
  }

  lemma {:induction false} OfKeyConcat(a: seq<ClaimedJob>, b: seq<ClaimedJob>, k: string)
    ensures OfKey(a + b, k) == OfKey(a, k) + OfKey(b, k)
    decreases a
  {
    if a == [] {
      assert a + b == b;
    } else {
      var x, a' := a[0], a[1..];
      assert a + b == [x] + (a' + b);
      OfKeyCons(x, a' + b, k);
      OfKeyConcat(a', b, k);
    }
  }

  lemma {:induction false} OfPriorityMembers(jobs: seq<ClaimedJob>, p: int)
    ensures forall j :: j in OfPriority(jobs, p) ==> j.priority == p
    decreases jobs
  {
    if jobs != [] { OfPriorityMembers(jobs[1..], p); }
  }

  lemma OfPriorityCons(x: ClaimedJob, rest: seq<ClaimedJob>, p: int)
    ensures OfPriority([x] + rest, p) == (if x.priority == p then [x] else []) + OfPriority(rest, p)
  {
  }

  lemma {:induction false} OfPriorityConcat(a: seq<ClaimedJob>, b: seq<ClaimedJob>, p: int)
    ensures OfPriority(a + b, p) == OfPriority(a, p) + OfPriority(b, p)
    decreases a
  {
    if a == [] {
      assert a + b == b;
    } else {
      var x, a' := a[0], a[1..];
      assert a + b == [x] + (a' + b);
      OfPriorityCons(x, a' + b, p);
      OfPriorityConcat(a', b, p);
    }
  }

  // ---------------------------------------------------------------- buckets

  datatype Bucket = Bucket(key: string, jobs: seq<ClaimedJob>) {
    ghost predicate Good() {
      jobs != [] && forall j :: j in jobs ==> Key(j) == key
    }
  }

  ghost predicate HasKey(qs: seq<Bucket>, k: string) {
    qs != [] && (qs[0].key == k || HasKey(qs[1..], k))
  }

  /** One nonempty bucket per group. */
  ghost predicate Keyed(qs: seq<Bucket>) {
    qs == [] || (qs[0].Good() && !HasKey(qs[1..], qs[0].key) && Keyed(qs[1..]))
  }

  /** `buckets[key].append(j)` on an insertion-ordered dictionary of lists. */
  function Add(qs: seq<Bucket>, j: ClaimedJob): seq<Bucket> {
    if qs == [] then [Bucket(Key(j), [j])]
    else if qs[0].key == Key(j) then [Bucket(qs[0].key, qs[0].jobs + [j])] + qs[1..]
    else [qs[0]] + Add(qs[1..], j)
  }

  function Buckets(jobs: seq<ClaimedJob>): seq<Bucket>
    decreases |jobs|
  {
    if jobs == [] then [] else Add(Buckets(jobs[..|jobs| - 1]), jobs[|jobs| - 1])
  }

  /** The jobs waiting in the bucket of group `k`. */
  ghost function Queue(qs: seq<Bucket>, k: string): seq<ClaimedJob> {
    if qs == [] then [] else if qs[0].key == k then qs[0].jobs else Queue(qs[1..], k)
  }

  lemma {:induction false} AddKeyed(qs: seq<Bucket>, j: ClaimedJob, k: string)
    requires Keyed(qs)
    ensures Keyed(Add(qs, j))
    ensures HasKey(Add(qs, j), k) <==> HasKey(qs, k) || k == Key(j)
    ensures Queue(Add(qs, j), k) == Queue(qs, k) + (if Key(j) == k then [j] else [])
    decreases qs
  {
    if qs != [] && qs[0].key != Key(j) {
      AddKeyed(qs[1..], j, k);
      AddKeyed(qs[1..], j, qs[0].key);
    }
  }

  lemma {:induction false} BucketsKeyed(jobs: seq<ClaimedJob>, k: string)
    ensures Keyed(Buckets(jobs))
    ensures Queue(Buckets(jobs), k) == OfKey(jobs, k)
    decreases |jobs|
  {
    if jobs != [] {
      var front, last := jobs[..|jobs| - 1], jobs[|jobs| - 1];
      BucketsKeyed(front, k);
      AddKeyed(Buckets(front), last, k);
      OfKeySnoc(front, last, k);
      assert jobs == front + [last];
    }
  }

  lemma OfKeySnoc(front: seq<ClaimedJob>, last: ClaimedJob, k: string)
    ensures OfKey(front + [last], k) == OfKey(front, k) + (if Key(last) == k then [last] else [])
  {
    OfKeyConcat(front, [last], k);
    assert [last][1..] == [];
  }

  // ---------------------------------------------------------------- interleaving

  function Heads(qs: seq<Bucket>): (r: seq<ClaimedJob>)
    requires forall i :: 0 <= i < |qs| ==> qs[i].jobs != []
    ensures |r| == |qs|
  {
    if qs == [] then [] else [qs[0].jobs[0]] + Heads(qs[1..])
  }

  /** What is left of the buckets after one round; emptied ones are gone. */
  function Tails(qs: seq<Bucket>): (r: seq<Bucket>)
    requires forall i :: 0 <= i < |qs| ==> qs[i].jobs != []
    ensures forall i :: 0 <= i < |r| ==> r[i].jobs != []
    ensures Load(r) == Load(qs) - |qs|
  {
    if qs == [] then []
    else if |qs[0].jobs| == 1 then Tails(qs[1..])
    else [Bucket(qs[0].key, qs[0].jobs[1..])] + Tails(qs[1..])
  }

  function Load(qs: seq<Bucket>): nat {
    if qs == [] then 0 else |qs[0].jobs| + Load(qs[1..])
  }

  /** One job per bucket, round after round. */
  function Interleave(qs: seq<Bucket>): seq<ClaimedJob>
    requires forall i :: 0 <= i < |qs| ==> qs[i].jobs != []
    decreases Load(qs)
  {
    if qs == [] then [] else Heads(qs) + Interleave(Tails(qs))
  }

  lemma {:induction false} KeyedNonempty(qs: seq<Bucket>)
    requires Keyed(qs)
    ensures forall i :: 0 <= i < |qs| ==> qs[i].jobs != []
    decreases qs
  {
    if qs != [] {
      KeyedNonempty(qs[1..]);
      assert forall i :: 1 <= i < |qs| ==> qs[i] == qs[1..][i - 1];
    }
  }

  lemma {:induction false} TailsKeyed(qs: seq<Bucket>, k: string)
    requires Keyed(qs) && forall i :: 0 <= i < |qs| ==> qs[i].jobs != []
    ensures Keyed(Tails(qs))
    ensures HasKey(Tails(qs), k) ==> HasKey(qs, k)
    ensures Queue(Tails(qs), k) == if Queue(qs, k) == [] then [] else Queue(qs, k)[1..]
    ensures OfKey(Heads(qs), k) == if Queue(qs, k) == [] then [] else [Queue(qs, k)[0]]
    decreases qs
  {
    if qs != [] {
      TailsKeyed(qs[1..], k);
      TailsKeyed(qs[1..], qs[0].key);
      NoQueue(qs[1..], qs[0].key);
      HeadsCons(qs, k);
    }
  }

  lemma HeadsCons(qs: seq<Bucket>, k: string)
    requires qs != [] && Keyed(qs) && forall i :: 0 <= i < |qs| ==> qs[i].jobs != []
    ensures OfKey(Heads(qs), k) == (if qs[0].key == k then [qs[0].jobs[0]] else []) + OfKey(Heads(qs[1..]), k)
  {
  }

  lemma {:induction false} NoQueue(qs: seq<Bucket>, k: string)
    requires !HasKey(qs, k)
    ensures Queue(qs, k) == []
    decreases qs
  {
    if qs != [] { NoQueue(qs[1..], k); }
  }

  /** Each group's own order survives the interleaving. */
  lemma {:induction false} InterleaveKeepsOrder(qs: seq<Bucket>, k: string)
    requires Keyed(qs) && forall i :: 0 <= i < |qs| ==> qs[i].jobs != []
    ensures OfKey(Interleave(qs), k) == Queue(qs, k)
    decreases Load(qs)
  {
    if qs != [] {
      TailsKeyed(qs, k);
      InterleaveKeepsOrder(Tails(qs), k);
      OfKeyConcat(Heads(qs), Interleave(Tails(qs)), k);
      assert Queue(qs, k) != [] ==> [Queue(qs, k)[0]] + Queue(qs, k)[1..] == Queue(qs, k);
    }
  }

  // ---------------------------------------------------------------- balance

  function Count(s: seq<ClaimedJob>, k: string): nat { |OfKey(s, k)| }

  /** In every prefix, a group is at most one job ahead of any group that still has jobs to come. */
  ghost predicate Balanced(out: seq<ClaimedJob>) {
    forall p, g, h :: 0 <= p <= |out| && Count(out[..p], h) < Count(out, h) ==>
      Count(out[..p], g) <= Count(out[..p], h) + 1
  }

  lemma CountPrefix(round: seq<ClaimedJob>, rest: seq<ClaimedJob>, p: nat, k: string)
    requires p <= |round| + |rest|
    ensures Count(round + rest, k) == Count(round, k) + Count(rest, k)
    ensures p <= |round| ==> Count((round + rest)[..p], k) <= Count(round, k)
    ensures p > |round| ==> Count((round + rest)[..p], k) == Count(round, k) + Count(rest[..p - |round|], k)
  {
    OfKeyConcat(round, rest, k);
    if p <= |round| {
      assert (round + rest)[..p] == round[..p] && round == round[..p] + round[p..];
      OfKeyConcat(round[..p], round[p..], k);
    } else {
      assert (round + rest)[..p] == round + rest[..p - |round|];
      OfKeyConcat(round, rest[..p - |round|], k);
    }
  }

  lemma {:induction false} InterleaveBalanced(qs: seq<Bucket>, p: nat, g: string, h: string)
    requires Keyed(qs) && forall i :: 0 <= i < |qs| ==> qs[i].jobs != []
    requires p <= |Interleave(qs)|
    requires Count(Interleave(qs)[..p], h) < Count(Interleave(qs), h)
    ensures Count(Interleave(qs)[..p], g) <= Count(Interleave(qs)[..p], h) + 1
    decreases Load(qs)
  {
    if qs != [] {
      var round, rest := Heads(qs), Interleave(Tails(qs));
      InterleaveKeepsOrder(qs, h);
      TailsKeyed(qs, g);
      TailsKeyed(qs, h);
      CountPrefix(round, rest, p, g);
      CountPrefix(round, rest, p, h);
      if p > |round| { InterleaveBalanced(Tails(qs), p - |round|, g, h); }
    }
  }

  /** The order one priority band is dispatched in. */
  function RoundRobin(jobs: seq<ClaimedJob>): seq<ClaimedJob> {
    BucketsNonempty(jobs);
    Interleave(Buckets(jobs))
  }

  lemma BucketsNonempty(jobs: seq<ClaimedJob>)
    ensures forall i :: 0 <= i < |Buckets(jobs)| ==> Buckets(jobs)[i].jobs != []
  {
    BucketsKeyed(jobs, "");
    KeyedNonempty(Buckets(jobs));
  }

  lemma RoundRobinFair(jobs: seq<ClaimedJob>)
    ensures forall k :: OfKey(RoundRobin(jobs), k) == OfKey(jobs, k)
    ensures Balanced(RoundRobin(jobs))
  {
    BucketsNonempty(jobs);
    var qs := Buckets(jobs);
    forall k
      ensures OfKey(RoundRobin(jobs), k) == OfKey(jobs, k)
    {
      BucketsKeyed(jobs, k);
      InterleaveKeepsOrder(qs, k);
    }
    var out := RoundRobin(jobs);
    forall p, g, h | 0 <= p <= |out| && Count(out[..p], h) < Count(out, h)
      ensures Count(out[..p], g) <= Count(out[..p], h) + 1
    {
      BucketsKeyed(jobs, g);
      InterleaveBalanced(qs, p, g, h);
    }
  }

  /** Two sequences that agree on every group hold the same jobs. */
  lemma SameGroupsSameJobs(a: seq<ClaimedJob>, b: seq<ClaimedJob>)
    requires forall k :: OfKey(a, k) == OfKey(b, k)
    ensures multiset(a) == multiset(b)
  {
    forall j: ClaimedJob
      ensures multiset(a)[j] == multiset(b)[j]
    {
      OfKeyCounts(a, j);
      OfKeyCounts(b, j);
    }
  }

  lemma {:induction false} OfKeyCounts(s: seq<ClaimedJob>, j: ClaimedJob)
    ensures multiset(OfKey(s, Key(j)))[j] == multiset(s)[j]
    decreases s
  {
    if s != [] {
      OfKeyCounts(s[1..], j);
      assert s == [s[0]] + s[1..];
    }
  }

  // ---------------------------------------------------------------- priority bands

  predicate Descending(ps: seq<int>) {
    forall i, j :: 0 <= i < j < |ps| ==> ps[i] > ps[j]
  }

  /** `sorted(.., reverse=True)` on distinct priorities, one at a time. */
  function Insert(ps: seq<int>, p: int): (r: seq<int>)
    requires Descending(ps)
    ensures Descending(r)
    ensures forall x :: x in r <==> x in ps || x == p
  {
    if ps == [] then [p]
    else if p > ps[0] then [p] + ps
    else if p == ps[0] then ps
    else
      var r := [ps[0]] + Insert(ps[1..], p);
      assert forall i :: 1 <= i < |r| ==> r[i] in Insert(ps[1..], p);
      r
  }

  function Priorities(jobs: seq<ClaimedJob>): (r: seq<int>)
    ensures Descending(r)
    ensures forall p :: p in r <==> exists i :: 0 <= i < |jobs| && jobs[i].priority == p
    decreases |jobs|
  {
    if jobs == [] then []
    else
      var front := jobs[..|jobs| - 1];
      assert forall i :: 0 <= i < |front| ==> front[i] == jobs[i];
      Insert(Priorities(front), jobs[|jobs| - 1].priority)
  }

  function Bands(jobs: seq<ClaimedJob>, ps: seq<int>): seq<ClaimedJob> {
    if ps == [] then [] else RoundRobin(OfPriority(jobs, ps[0])) + Bands(jobs, ps[1..])
  }

  /** The order jobs are dispatched in. */
  function Shape(jobs: seq<ClaimedJob>): seq<ClaimedJob> {
    Bands(jobs, Priorities(jobs))
  }

  lemma BandFacts(jobs: seq<ClaimedJob>, p: int)
    ensures forall j :: j in RoundRobin(OfPriority(jobs, p)) ==> j.priority == p
    ensures forall q :: OfPriority(RoundRobin(OfPriority(jobs, p)), q)
                     == if q == p then RoundRobin(OfPriority(jobs, p)) else []
  {
    var band := OfPriority(jobs, p);
    OfPriorityMembers(jobs, p);
    RoundRobinFair(band);
    SameGroupsSameJobs(RoundRobin(band), band);
    forall j | j in RoundRobin(band)
      ensures j.priority == p
    {
      assert j in multiset(RoundRobin(band)) && j in multiset(band);
    }
    forall q
      ensures OfPriority(RoundRobin(band), q) == if q == p then RoundRobin(band) else []
    {
      OfPrioritySame(RoundRobin(band), p, q);
    }
  }

  lemma {:induction false} OfPrioritySame(s: seq<ClaimedJob>, p: int, q: int)
    requires forall j :: j in s ==> j.priority == p
    ensures OfPriority(s, q) == if q == p then s else []
    decreases s
  {
    if s != [] {
      assert s[0] in s;
      OfPrioritySame(s[1..], p, q);
    }
  }

  lemma {:induction false} BandsMembers(jobs: seq<ClaimedJob>, ps: seq<int>)
    ensures forall j :: j in Bands(jobs, ps) ==> j.priority in ps
    decreases ps
  {
    if ps != [] {
      BandFacts(jobs, ps[0]);
      BandsMembers(jobs, ps[1..]);
    }
  }

  lemma {:induction false} BandsByPriority(jobs: seq<ClaimedJob>, ps: seq<int>, q: int)
    requires Descending(ps)
    ensures OfPriority(Bands(jobs, ps), q) == if q in ps then RoundRobin(OfPriority(jobs, q)) else []
    decreases ps
  {
    if ps != [] {
      BandFacts(jobs, ps[0]);
      BandsByPriority(jobs, ps[1..], q);
      OfPriorityConcat(RoundRobin(OfPriority(jobs, ps[0])), Bands(jobs, ps[1..]), q);
    }
  }

  ghost predicate NonIncreasing(s: seq<ClaimedJob>) {
    forall a, b :: 0 <= a < b < |s| ==> s[a].priority >= s[b].priority
  }

  lemma BandAbove(x: seq<ClaimedJob>, y: seq<ClaimedJob>, p: int)
    requires forall j :: j in x ==> j.priority == p
    requires forall j :: j in y ==> j.priority < p
    requires NonIncreasing(y)
    ensures NonIncreasing(x + y)
  {
  }

  lemma {:induction false} BandsDescend(jobs: seq<ClaimedJob>, ps: seq<int>)
    requires Descending(ps)
    ensures NonIncreasing(Bands(jobs, ps))
    decreases ps
  {
    if ps != [] {
      BandFacts(jobs, ps[0]);
      BandsMembers(jobs, ps[1..]);
      BandsDescend(jobs, ps[1..]);
      BandAbove(RoundRobin(OfPriority(jobs, ps[0])), Bands(jobs, ps[1..]), ps[0]);
    }
  }

  /** Priority always wins; inside a priority every group keeps its order and none runs ahead of
      another by more than one; and exactly the claimed jobs are dispatched. */
  lemma ShapeIsFair(jobs: seq<ClaimedJob>)
    ensures NonIncreasing(Shape(jobs))
    ensures forall p, k :: OfKey(OfPriority(Shape(jobs), p), k) == OfKey(OfPriority(jobs, p), k)
    ensures forall p :: Balanced(OfPriority(Shape(jobs), p))
    ensures multiset(Shape(jobs)) == multiset(jobs)
  {
    var ps, out := Priorities(jobs), Shape(jobs);
    BandsDescend(jobs, ps);
    forall p
      ensures OfPriority(out, p) == RoundRobin(OfPriority(jobs, p))
      ensures Balanced(OfPriority(out, p))
      ensures forall k :: OfKey(OfPriority(out, p), k) == OfKey(OfPriority(jobs, p), k)
    {
      ShapeBand(jobs, p);
      RoundRobinFair(OfPriority(jobs, p));
    }
    forall j: ClaimedJob
      ensures multiset(out)[j] == multiset(jobs)[j]
    {
      OfPriorityCounts(out, j);
      OfPriorityCounts(jobs, j);
      SameGroupsSameJobs(OfPriority(out, j.priority), OfPriority(jobs, j.priority));
    }
  }

  lemma ShapeBand(jobs: seq<ClaimedJob>, p: int)
    ensures OfPriority(Shape(jobs), p) == RoundRobin(OfPriority(jobs, p))
  {
    BandsByPriority(jobs, Priorities(jobs), p);
    if p !in Priorities(jobs) { NoneOfPriority(jobs, p); }
  }

  lemma {:induction false} NoneOfPriority(jobs: seq<ClaimedJob>, p: int)
    requires forall i :: 0 <= i < |jobs| ==> jobs[i].priority != p
    ensures OfPriority(jobs, p) == []
    decreases jobs
  {
    if jobs != [] { NoneOfPriority(jobs[1..], p); }
  }

  lemma {:induction false} OfPriorityCounts(s: seq<ClaimedJob>, j: ClaimedJob)
    ensures multiset(OfPriority(s, j.priority))[j] == multiset(s)[j]
    decreases s
  {
    if s != [] {
      OfPriorityCounts(s[1..], j);
      assert s == [s[0]] + s[1..];
    }
  }

  // ---------------------------------------------------------------- the code

  method CollectBuckets(jobs: seq<ClaimedJob>) returns (queues: seq<Bucket>)
    ensures queues == Buckets(jobs)
  {
    queues := [];
    for n := 0 to |jobs|
      invariant queues == Buckets(jobs[..n])
    {
      assert jobs[..n + 1][..n] == jobs[..n] && jobs[..n + 1][n] == jobs[n];
      queues := Add(queues, jobs[n]);
    }
    assert jobs[..|jobs|] == jobs;
  }

  /** One sweep over the lists: pop each head, drop a list once it is empty. */
  method TakeRound(qs: seq<Bucket>) returns (queues: seq<Bucket>, round: seq<ClaimedJob>)
    requires forall i :: 0 <= i < |qs| ==> qs[i].jobs != []
    ensures queues == Tails(qs) && round == Heads(qs)
  {
    queues, round := qs, [];
    ghost var done, todo := [], qs;
    var i := 0;
    while i < |queues|
      invariant queues == done + todo && i == |done|
      invariant forall k :: 0 <= k < |todo| ==> todo[k].jobs != []
      invariant Tails(qs) == done + Tails(todo)
      invariant Heads(qs) == round + Heads(todo)
      decreases |todo|
    {
      var b := queues[i];
      RoundStep(done, todo, round);
      ListStep(done, todo, Bucket(b.key, b.jobs[1..]));
      round := round + [b.jobs[0]];
      if |b.jobs| == 1 {
        queues := queues[..i] + queues[i + 1..];
      } else {
        queues := queues[i := Bucket(b.key, b.jobs[1..])];
        i := i + 1;
        done := done + [Bucket(b.key, b.jobs[1..])];
      }
      todo := todo[1..];
    }
  }

  lemma RoundStep(done: seq<Bucket>, todo: seq<Bucket>, round: seq<ClaimedJob>)
    requires todo != [] && forall k :: 0 <= k < |todo| ==> todo[k].jobs != []
    ensures round + Heads(todo) == (round + [todo[0].jobs[0]]) + Heads(todo[1..])
    ensures |todo[0].jobs| == 1 ==> Tails(todo) == Tails(todo[1..])
    ensures |todo[0].jobs| != 1 ==>
              done + Tails(todo) == (done + [Bucket(todo[0].key, todo[0].jobs[1..])]) + Tails(todo[1..])
  {
  }

  lemma ListStep(done: seq<Bucket>, todo: seq<Bucket>, left: Bucket)
    requires todo != []
    ensures (done + todo)[|done|] == todo[0]
    ensures (done + todo)[..|done|] + (done + todo)[|done| + 1..] == done + todo[1..]
    ensures (done + todo)[|done| := left] == (done + [left]) + todo[1..]
  {
  }

  /** `_round_robin_by_group` */
  method RoundRobinByGroup(jobs: seq<ClaimedJob>) returns (out: seq<ClaimedJob>)
    ensures out == RoundRobin(jobs)
  {
    var queues := CollectBuckets(jobs);
    BucketsNonempty(jobs);
    out := [];
    while queues != []
      invariant forall i :: 0 <= i < |queues| ==> queues[i].jobs != []
      invariant out + Interleave(queues) == RoundRobin(jobs)
      decreases Load(queues)
    {
      var rest, round := TakeRound(queues);
      assert out + (round + Interleave(rest)) == (out + round) + Interleave(rest);
      queues, out := rest, out + round;
    }
  }

  ghost predicate Grouped(byPriority: map<int, seq<ClaimedJob>>, jobs: seq<ClaimedJob>) {
    forall p :: OfPriority(jobs, p) == if p in byPriority then byPriority[p] else []
  }

  method CollectPriorities(jobs: seq<ClaimedJob>) returns (order: seq<int>, byPriority: map<int, seq<ClaimedJob>>)
    ensures order == Priorities(jobs) && Grouped(byPriority, jobs)
  {
    byPriority, order := map[], [];
    for n := 0 to |jobs|
      invariant order == Priorities(jobs[..n])
      invariant Grouped(byPriority, jobs[..n])
    {
      var p := jobs[n].priority;
      assert jobs[..n + 1][..n] == jobs[..n] && jobs[..n + 1][n] == jobs[n];
      ghost var before := byPriority;
      byPriority := byPriority[p := (if p in byPriority then byPriority[p] else []) + [jobs[n]]];
      GroupedSnoc(before, byPriority, jobs[..n], jobs[n]);
      assert jobs[..n + 1] == jobs[..n] + [jobs[n]];
      order := Insert(order, p);
    }
    assert jobs[..|jobs|] == jobs;
  }

  lemma GroupedSnoc(before: map<int, seq<ClaimedJob>>, after: map<int, seq<ClaimedJob>>,
                    front: seq<ClaimedJob>, last: ClaimedJob)
    requires Grouped(before, front)
    requires after == before[last.priority :=
                             (if last.priority in before then before[last.priority] else []) + [last]]
    ensures Grouped(after, front + [last])
  {
    forall p
      ensures OfPriority(front + [last], p) == if p in after then after[p] else []
    {
      OfPriorityConcat(front, [last], p);
      assert [last][1..] == [];
    }
  }

  /** `_fairness_shape` */
  method FairnessShape(jobs: seq<ClaimedJob>) returns (out: seq<ClaimedJob>)
    ensures out == Shape(jobs)
  {
    var order, byPriority := CollectPriorities(jobs);
    out := [];
    for n := 0 to |order|
      invariant out + Bands(jobs, order[n..]) == Shape(jobs)
    {
      var p := order[n];
      var band := RoundRobinByGroup(if p in byPriority then byPriority[p] else []);
      assert band == RoundRobin(OfPriority(jobs, p));
      BandsStep(jobs, order, n, out);
      out := out + band;
    }
  }

  lemma BandsStep(jobs: seq<ClaimedJob>, order: seq<int>, n: nat, out: seq<ClaimedJob>)
    requires n < |order|
    ensures out + Bands(jobs, order[n..])
         == (out + RoundRobin(OfPriority(jobs, order[n]))) + Bands(jobs, order[n + 1..])
  {
    assert order[n..][1..] == order[n + 1..] && order[n..][0] == order[n];
    Assoc(out, RoundRobin(OfPriority(jobs, order[n])), Bands(jobs, order[n + 1..]));
  }

  lemma Assoc(a: seq<ClaimedJob>, b: seq<ClaimedJob>, c: seq<ClaimedJob>)
    ensures a + (b + c) == (a + b) + c
  {
  }
}
