/** Lexicographic order of worker ids, as Python compares strings. */
module TextOrder {

  predicate LessEq(a: string, b: string) {
    a == "" || (b != "" && (a[0] < b[0] || (a[0] == b[0] && LessEq(a[1..], b[1..]))))
  }

  lemma {:induction false} Total(a: string, b: string)
    ensures LessEq(a, b) || LessEq(b, a)
    decreases a
  {
    if a != "" && b != "" { Total(a[1..], b[1..]); }
  }

  lemma {:induction false} Antisymmetric(a: string, b: string)
    requires LessEq(a, b) && LessEq(b, a)
    ensures a == b
    decreases a
  {
    if a != "" && b != "" {
      Antisymmetric(a[1..], b[1..]);
      assert a == [a[0]] + a[1..] && b == [b[0]] + b[1..];
    }
  }

  lemma {:induction false} Transitive(a: string, b: string, c: string)
    requires LessEq(a, b) && LessEq(b, c)
    ensures LessEq(a, c)
    decreases a
  {
    if a != "" && a[0] == b[0] == c[0] { Transitive(a[1..], b[1..], c[1..]); }
  }

  predicate Ascending(ids: seq<string>) {
    forall i, j :: 0 <= i < j < |ids| ==> LessEq(ids[i], ids[j]) && ids[i] != ids[j]
  }

  /** `bisect_right`: how many of the ids come no later than `x`. */
  function BisectRight(ids: seq<string>, x: string): (r: nat)
    requires Ascending(ids)
    ensures r <= |ids|
    ensures forall k :: 0 <= k < r ==> LessEq(ids[k], x)
    ensures forall k :: r <= k < |ids| ==> !LessEq(ids[k], x)
  {
    if ids == [] then 0
    else if LessEq(ids[0], x) then
      var r := BisectRight(ids[1..], x);
      assert forall k :: 1 <= k < |ids| ==> ids[k] == ids[1..][k - 1];
      1 + r
    else
      assert forall k :: 0 < k < |ids| ==> !LessEq(ids[k], x) by {
        forall k | 0 < k < |ids| ensures !LessEq(ids[k], x) {
          if LessEq(ids[k], x) { Transitive(ids[0], ids[k], x); }
        }
      }
      0
  }

  /** Resuming after a worker that is in the ring means its right-hand neighbour. */
  lemma BisectAfter(ids: seq<string>, i: nat)
    requires Ascending(ids) && i < |ids|
    ensures BisectRight(ids, ids[i]) == i + 1
  {
    var r := BisectRight(ids, ids[i]);
    Total(ids[i], ids[i]);
    if r > i + 1 { Antisymmetric(ids[i + 1], ids[i]); }
  }
}

/** The round-robin scan of src/symba/services/matcher.py:222-260 over a ring of workers, as a
    function of the workers' capacities, and what it guarantees. The scan index is kept reduced
    modulo the number of workers, which is all the code ever uses of it. */
module WorkerRing {
  import opened Numbers


  function Succ(p: nat, n: nat): nat { if p + 1 == n then 0 else p + 1 }

  /** Reducing and stepping commute, so the reduced index is `idx % n`. */
  lemma SuccIsRemainder(idx: nat, n: nat)
    requires n > 0
    ensures (idx + 1) % n == Succ(idx % n, n)
  {
    var q, r := idx / n, idx % n;
    assert idx == q * n + r;
    if r == n - 1 {
      assert idx + 1 == (q + 1) * n + 0;
      RemainderUnique(idx + 1, n, q + 1, 0);
    } else {
      RemainderUnique(idx + 1, n, q, r + 1);
    }
  }

  lemma RemainderUnique(x: nat, n: nat, q: nat, r: nat)
    requires n > 0 && r < n && x == q * n + r
    ensures x % n == r
  {
    var q', r' := x / n, x % n;
    assert (q - q') * n == r' - r by { assert x == q' * n + r' && (q - q') * n == q * n - q' * n; }
    assert (q' - q) * n == -((q - q') * n);
    if q' < q {
      MulAtLeast(q - q', n);
    } else if q' > q {
      MulAtLeast(q' - q, n);
    }
  }

  lemma MulAtLeast(a: int, n: nat)
    requires a >= 1
    ensures a * n >= n
  {
  }

  function Pos(c: int): nat { if c > 0 then c else 0 }

  // ---------------------------------------------------------------- positions and visits

  function Advance(pos: nat, steps: nat, n: nat): (r: nat)
    requires pos < n
    ensures r < n
    decreases steps
  {
    if steps == 0 then pos else Advance(Succ(pos, n), steps - 1, n)
  }

  /** How often `steps` consecutive positions from `pos` on meet worker `i`. */
  function Visits(pos: nat, steps: nat, n: nat, i: nat): nat
    requires pos < n
    decreases steps
  {
    if steps == 0 then 0 else (if pos == i then 1 else 0) + Visits(Succ(pos, n), steps - 1, n, i)
  }

  lemma {:induction false} VisitsSplit(pos: nat, a: nat, b: nat, n: nat, i: nat)
    requires pos < n
    ensures Visits(pos, a + b, n, i) == Visits(pos, a, n, i) + Visits(Advance(pos, a, n), b, n, i)
    decreases a
  {
    if a > 0 { VisitsSplit(Succ(pos, n), a - 1, b, n, i); }
  }

  lemma {:induction false} AdvanceShort(pos: nat, steps: nat, n: nat)
    requires pos < n && steps <= n
    ensures Advance(pos, steps, n) == if pos + steps < n then pos + steps else pos + steps - n
    decreases steps
  {
    if steps > 0 { AdvanceShort(Succ(pos, n), steps - 1, n); }
  }

  /** Within a lap a worker is met once its distance has been covered. */
  lemma {:induction false} VisitsShort(pos: nat, steps: nat, n: nat, i: nat)
    requires pos < n && i < n && steps <= n
    ensures Visits(pos, steps, n, i) == if (if i >= pos then i - pos else i - pos + n) < steps then 1 else 0
    decreases steps
  {
    if steps > 0 { VisitsShort(Succ(pos, n), steps - 1, n, i); }
  }

  /** A full lap meets everyone once and ends where it began. */
  lemma VisitsLap(pos: nat, steps: nat, n: nat, i: nat)
    requires pos < n && i < n && steps >= n
    ensures Visits(pos, n, n, i) == 1 && Advance(pos, n, n) == pos
    ensures Visits(pos, steps, n, i) == 1 + Visits(pos, steps - n, n, i)
  {
    VisitsShort(pos, n, n, i);
    AdvanceShort(pos, n, n);
    VisitsSplit(pos, n, steps - n, n, i);
  }

  /** A scan never meets one worker two times more often than another. */
  lemma {:induction false} VisitsBalanced(pos: nat, steps: nat, n: nat, i: nat, j: nat)
    requires pos < n && i < n && j < n
    ensures Visits(pos, steps, n, i) <= Visits(pos, steps, n, j) + 1
    decreases steps
  {
    if steps < n {
      VisitsShort(pos, steps, n, i);
    } else {
      VisitsLap(pos, steps, n, i);
      VisitsLap(pos, steps, n, j);
      VisitsBalanced(pos, steps - n, n, i, j);
    }
  }

  // ---------------------------------------------------------------- finding a worker

  datatype Found = Nobody | Found(at: nat, steps: nat)

  /** The first of the next `tries` positions whose worker has capacity left. */
  function Probe(caps: seq<int>, pos: nat, tries: nat): (f: Found)
    requires pos < |caps|
    ensures f.Found? ==> f.at < |caps| && caps[f.at] > 0 && 1 <= f.steps <= tries
    decreases tries
  {
    if tries == 0 then Nobody
    else if caps[pos] > 0 then Found(pos, 1)
    else
      match Probe(caps, Succ(pos, |caps|), tries - 1)
      case Nobody => Nobody
      case Found(at, steps) => Found(at, steps + 1)
  }

  /** On the way to the hit only full workers were met. */
  lemma {:induction false} ProbeVisits(caps: seq<int>, pos: nat, tries: nat, i: nat)
    requires pos < |caps| && i < |caps| && caps[i] > 0 && Probe(caps, pos, tries).Found?
    ensures var f := Probe(caps, pos, tries);
            Visits(pos, f.steps, |caps|, i) == if i == f.at then 1 else 0
    decreases tries
  {
    if caps[pos] <= 0 { ProbeVisits(caps, Succ(pos, |caps|), tries - 1, i); }
  }

  lemma {:induction false} ProbeAdvance(caps: seq<int>, pos: nat, tries: nat)
    requires pos < |caps| && Probe(caps, pos, tries).Found?
    ensures var f := Probe(caps, pos, tries); Advance(pos, f.steps, |caps|) == Succ(f.at, |caps|)
    decreases tries
  {
    if caps[pos] <= 0 { ProbeAdvance(caps, Succ(pos, |caps|), tries - 1); }
  }

  lemma {:induction false} ProbeNobody(caps: seq<int>, pos: nat, tries: nat, i: nat)
    requires pos < |caps| && i < |caps| && Probe(caps, pos, tries).Nobody?
    ensures Visits(pos, tries, |caps|, i) > 0 ==> caps[i] <= 0
    decreases tries
  {
    if tries > 0 { ProbeNobody(caps, Succ(pos, |caps|), tries - 1, i); }
  }

  /** A fruitless lap means every worker is full. */
  lemma NobodyMeansFull(caps: seq<int>, pos: nat)
    requires pos < |caps| && Probe(caps, pos, |caps|).Nobody?
    ensures forall i :: 0 <= i < |caps| ==> caps[i] <= 0
  {
    forall i | 0 <= i < |caps|
      ensures caps[i] <= 0
    {
      VisitsLap(pos, |caps|, |caps|, i);
      ProbeNobody(caps, pos, |caps|, i);
    }
  }

  // ---------------------------------------------------------------- one batch

  /** Ring positions in the order jobs were placed, and how many positions were looked at. */
  datatype Outcome = Outcome(targets: seq<nat>, steps: nat)

  function Assign(caps: seq<int>, pos: nat, m: nat): (o: Outcome)
    requires pos < |caps|
    ensures forall k :: 0 <= k < |o.targets| ==> o.targets[k] < |caps|
    decreases m
  {
    if m == 0 then Outcome([], 0)
    else
      match Probe(caps, pos, |caps|)
      case Nobody =>
        var rest := Assign(caps, pos, m - 1);
        Outcome(rest.targets, |caps| + rest.steps)
      case Found(at, steps) =>
        var rest := Assign(caps[at := caps[at] - 1], Succ(at, |caps|), m - 1);
        Outcome([at] + rest.targets, steps + rest.steps)
  }

  function Count(targets: seq<nat>, i: nat): nat {
    if targets == [] then 0 else (if targets[0] == i then 1 else 0) + Count(targets[1..], i)
  }

  lemma {:induction false} CountConcat(a: seq<nat>, b: seq<nat>, i: nat)
    ensures Count(a + b, i) == Count(a, i) + Count(b, i)
    decreases a
  {
    if a == [] {
      assert a + b == b;
    } else {
      assert (a + b)[0] == a[0] && (a + b)[1..] == a[1..] + b;
      CountConcat(a[1..], b, i);
    }
  }

  lemma CountCons(hit: nat, t: seq<nat>, i: nat)
    ensures Count([hit] + t, i) == (if hit == i then 1 else 0) + Count(t, i)
  {
  }

  lemma VisitsOfHit(caps: seq<int>, pos: nat, at: nat, steps: nat, more: nat, i: nat)
    requires pos < |caps| && i < |caps| && Probe(caps, pos, |caps|) == Found(at, steps)
    requires caps[i] > 0
    ensures Visits(pos, steps + more, |caps|, i)
         == (if i == at then 1 else 0) + Visits(Succ(at, |caps|), more, |caps|, i)
  {
    ProbeVisits(caps, pos, |caps|, i);
    ProbeAdvance(caps, pos, |caps|);
    VisitsSplit(pos, steps, more, |caps|, i);
  }

  lemma CountOfHit(caps: seq<int>, pos: nat, at: nat, steps: nat, rest: Outcome, i: nat)
    requires pos < |caps| && i < |caps| && Probe(caps, pos, |caps|) == Found(at, steps)
    requires Count(rest.targets, i)
          == Min(Pos(caps[at := caps[at] - 1][i]), Visits(Succ(at, |caps|), rest.steps, |caps|, i))
    ensures Count([at] + rest.targets, i) == Min(Pos(caps[i]), Visits(pos, steps + rest.steps, |caps|, i))
  {
    CountCons(at, rest.targets, i);
    if caps[i] > 0 { VisitsOfHit(caps, pos, at, steps, rest.steps, i); }
  }

  /** Each worker receives its visits, up to its capacity: the closed form behind everything else. */
  lemma {:induction false} AssignCount(caps: seq<int>, pos: nat, m: nat, i: nat)
    requires pos < |caps| && i < |caps|
    ensures var o := Assign(caps, pos, m);
            Count(o.targets, i) == Min(Pos(caps[i]), Visits(pos, o.steps, |caps|, i))
    decreases m
  {
    if m > 0 {
      match Probe(caps, pos, |caps|) {
        case Nobody =>
          NobodyMeansFull(caps, pos);
          AssignCount(caps, pos, m - 1, i);
        case Found(at, steps) =>
          var caps' := caps[at := caps[at] - 1];
          var rest := Assign(caps', Succ(at, |caps|), m - 1);
          AssignCount(caps', Succ(at, |caps|), m - 1, i);
          CountOfHit(caps, pos, at, steps, rest, i);
      }
    }
  }

  function Total(caps: seq<int>): nat {
    if caps == [] then 0 else Pos(caps[0]) + Total(caps[1..])
  }

  lemma {:induction false} TotalDrops(caps: seq<int>, i: nat)
    requires i < |caps| && caps[i] > 0
    ensures Total(caps) >= 1 && Total(caps[i := caps[i] - 1]) == Total(caps) - 1
    decreases caps
  {
    var caps' := caps[i := caps[i] - 1];
    if i == 0 {
      assert caps'[1..] == caps[1..];
    } else {
      assert caps'[1..] == caps[1..][i - 1 := caps[i] - 1];
      TotalDrops(caps[1..], i - 1);
    }
  }

  lemma {:induction false} TotalZero(caps: seq<int>)
    requires forall i :: 0 <= i < |caps| ==> caps[i] <= 0
    ensures Total(caps) == 0
    decreases caps
  {
    if caps != [] { TotalZero(caps[1..]); }
  }

  /** Work conservation: a job is left over only when every slot is taken. */
  lemma {:induction false} AssignTotal(caps: seq<int>, pos: nat, m: nat)
    requires pos < |caps|
    ensures |Assign(caps, pos, m).targets| == Min(m, Total(caps))
    decreases m
  {
    if m > 0 {
      match Probe(caps, pos, |caps|) {
        case Nobody =>
          NobodyMeansFull(caps, pos);
          TotalZero(caps);
          AssignTotal(caps, pos, m - 1);
        case Found(at, steps) =>
          TotalDrops(caps, at);
          AssignTotal(caps[at := caps[at] - 1], Succ(at, |caps|), m - 1);
      }
    }
  }

  /** No worker is given more than it has room for, and a worker with room left is at most one job
      behind any other: max-min fairness of the scan. */
  lemma AssignFair(caps: seq<int>, pos: nat, m: nat, a: nat, b: nat)
    requires pos < |caps| && a < |caps| && b < |caps|
    ensures var t := Assign(caps, pos, m).targets;
            && Count(t, a) <= Pos(caps[a])
            && (Count(t, a) < Pos(caps[a]) ==> Count(t, b) <= Count(t, a) + 1)
  {
    AssignCount(caps, pos, m, a);
    AssignCount(caps, pos, m, b);
    VisitsBalanced(pos, Assign(caps, pos, m).steps, |caps|, b, a);
  }

  // ---------------------------------------------------------------- gap-free walks

  function Walk(pos: nat, m: nat, n: nat): (w: seq<nat>)
    requires pos < n
    ensures |w| == m && forall k :: 0 <= k < m ==> w[k] < n
    decreases m
  {
    if m == 0 then [] else [pos] + Walk(Succ(pos, n), m - 1, n)
  }

  lemma {:induction false} WalkCount(pos: nat, m: nat, n: nat, i: nat)
    requires pos < n
    ensures Count(Walk(pos, m, n), i) == Visits(pos, m, n, i)
    decreases m
  {
    if m > 0 {
      WalkCount(Succ(pos, n), m - 1, n, i);
      CountCons(pos, Walk(Succ(pos, n), m - 1, n), i);
    }
  }

  lemma {:induction false} WalkConcat(pos: nat, m: nat, m': nat, n: nat)
    requires pos < n
    ensures Walk(pos, m + m', n) == Walk(pos, m, n) + Walk(Advance(pos, m, n), m', n)
    decreases m
  {
    if m > 0 { WalkConcat(Succ(pos, n), m - 1, m', n); }
  }

  lemma {:induction false} WalkLast(pos: nat, m: nat, n: nat)
    requires pos < n && m > 0
    ensures Succ(Walk(pos, m, n)[m - 1], n) == Advance(pos, m, n)
    decreases m
  {
    if m > 1 { WalkLast(Succ(pos, n), m - 1, n); }
  }

  ghost predicate Roomy(caps: seq<int>, pos: nat, m: nat)
    requires pos < |caps|
  {
    forall i :: 0 <= i < |caps| ==> Visits(pos, m, |caps|, i) <= Pos(caps[i])
  }

  /** A batch walks the ring without skipping anyone exactly when every worker has room for the
      visits the walk pays it. */
  lemma GapFreeIff(caps: seq<int>, pos: nat, m: nat)
    requires pos < |caps|
    ensures Assign(caps, pos, m).targets == Walk(pos, m, |caps|) <==> Roomy(caps, pos, m)
  {
    if Assign(caps, pos, m).targets == Walk(pos, m, |caps|) {
      forall i | 0 <= i < |caps|
        ensures Visits(pos, m, |caps|, i) <= Pos(caps[i])
      {
        AssignCount(caps, pos, m, i);
        WalkCount(pos, m, |caps|, i);
      }
    }
    if Roomy(caps, pos, m) { RoomyWalk(caps, pos, m); }
  }

  lemma {:induction false} RoomyWalk(caps: seq<int>, pos: nat, m: nat)
    requires pos < |caps| && Roomy(caps, pos, m)
    ensures Assign(caps, pos, m).targets == Walk(pos, m, |caps|)
    decreases m
  {
    if m > 0 {
      RoomyStep(caps, pos, m);
      RoomyWalk(caps[pos := caps[pos] - 1], Succ(pos, |caps|), m - 1);
    }
  }

  lemma RoomyStep(caps: seq<int>, pos: nat, m: nat)
    requires pos < |caps| && m > 0 && Roomy(caps, pos, m)
    ensures Probe(caps, pos, |caps|) == Found(pos, 1)
    ensures Roomy(caps[pos := caps[pos] - 1], Succ(pos, |caps|), m - 1)
  {
  }
}

/** What the cursor map gives across dispatch passes: src/symba/services/matcher.py:219-251. */
module RingRuns {
  import opened TextOrder
  import opened WorkerRing

  /** One pass over the same workers: their capacities then, and how many jobs were claimed. */
  datatype Batch = Batch(caps: seq<int>, jobs: nat) {
    /** Room for an even share of the batch, rounded up, on every one of n workers. */
    predicate Even(n: nat) {
      |caps| == n && forall i :: 0 <= i < n ==> jobs <= caps[i] * n
    }
  }

  /** The ring position a batch starts from: after the worker the cursor names. */
  function Start(ids: seq<string>, cursor: string): (p: nat)
    requires |ids| > 0 && Ascending(ids)
    ensures p < |ids|
  {
    var r := BisectRight(ids, cursor);
    if r == |ids| then 0 else r
  }

  lemma StartAfter(ids: seq<string>, i: nat)
    requires Ascending(ids) && i < |ids|
    ensures Start(ids, ids[i]) == Succ(i, |ids|)
  {
    BisectAfter(ids, i);
  }

  /** All placements of a run; each batch resumes after the worker the cursor names. */
  function Run(ids: seq<string>, cursor: string, batches: seq<Batch>): seq<nat>
    requires |ids| > 0 && Ascending(ids)
    requires forall k :: 0 <= k < |batches| ==> |batches[k].caps| == |ids|
    decreases batches
  {
    if batches == [] then []
    else
      var t := Assign(batches[0].caps, Start(ids, cursor), batches[0].jobs).targets;
      t + Run(ids, if t == [] then cursor else ids[t[|t| - 1]], batches[1..])
  }

  function Jobs(batches: seq<Batch>): nat {
    if batches == [] then 0 else batches[0].jobs + Jobs(batches[1..])
  }

  lemma {:induction false} VisitsAtMostShare(pos: nat, m: nat, n: nat, i: nat, c: int)
    requires pos < n && i < n && m <= c * n
    ensures Visits(pos, m, n, i) <= Pos(c)
    decreases m
  {
    if m > 0 {
      assert c <= 0 ==> c * n <= 0;
      if m <= n {
        VisitsShort(pos, m, n, i);
      } else {
        VisitsLap(pos, m, n, i);
        assert (c - 1) * n == c * n - n;
        VisitsAtMostShare(pos, m - n, n, i, c - 1);
      }
    }
  }

  /** The batch walks the ring from wherever it starts. */
  ghost predicate Walks(b: Batch, n: nat) {
    |b.caps| == n && forall pos :: 0 <= pos < n ==> Assign(b.caps, pos, b.jobs).targets == Walk(pos, b.jobs, n)
  }

  lemma EvenBatchWalks(b: Batch, n: nat)
    requires b.Even(n)
    ensures Walks(b, n)
  {
    forall pos | 0 <= pos < n
      ensures Assign(b.caps, pos, b.jobs).targets == Walk(pos, b.jobs, n)
    {
      EvenBatchWalksFrom(b, pos, n);
    }
  }

  lemma EvenBatchWalksFrom(b: Batch, pos: nat, n: nat)
    requires pos < n && b.Even(n)
    ensures Assign(b.caps, pos, b.jobs).targets == Walk(pos, b.jobs, n)
  {
    forall i | 0 <= i < n
      ensures Visits(pos, b.jobs, n, i) <= Pos(b.caps[i])
    {
      VisitsAtMostShare(pos, b.jobs, n, i, b.caps[i]);
    }
    GapFreeIff(b.caps, pos, b.jobs);
  }

  /** The same run told by ring positions alone. */
  function RunFrom(n: nat, pos: nat, batches: seq<Batch>): (t: seq<nat>)
    requires pos < n
    requires forall k :: 0 <= k < |batches| ==> |batches[k].caps| == n
    decreases batches
  {
    if batches == [] then []
    else
      var t := Assign(batches[0].caps, pos, batches[0].jobs).targets;
      t + RunFrom(n, if t == [] then pos else Succ(t[|t| - 1], n), batches[1..])
  }

  lemma RunCons(ids: seq<string>, cursor: string, b: Batch, rest: seq<Batch>, t: seq<nat>)
    requires |ids| > 0 && Ascending(ids) && |b.caps| == |ids|
    requires forall k :: 0 <= k < |rest| ==> |rest[k].caps| == |ids|
    requires t == Assign(b.caps, Start(ids, cursor), b.jobs).targets
    ensures Run(ids, cursor, [b] + rest) == t + Run(ids, if t == [] then cursor else ids[t[|t| - 1]], rest)
  {
    assert ([b] + rest)[0] == b && ([b] + rest)[1..] == rest;
  }

  lemma RunFromCons(n: nat, pos: nat, b: Batch, rest: seq<Batch>, t: seq<nat>)
    requires pos < n && |b.caps| == n
    requires forall k :: 0 <= k < |rest| ==> |rest[k].caps| == n
    requires t == Assign(b.caps, pos, b.jobs).targets
    ensures RunFrom(n, pos, [b] + rest) == t + RunFrom(n, if t == [] then pos else Succ(t[|t| - 1], n), rest)
  {
    assert ([b] + rest)[0] == b && ([b] + rest)[1..] == rest;
  }

  lemma {:induction false} RunIsRunFrom(ids: seq<string>, cursor: string, batches: seq<Batch>)
    requires |ids| > 0 && Ascending(ids)
    requires forall k :: 0 <= k < |batches| ==> |batches[k].caps| == |ids|
    ensures Run(ids, cursor, batches) == RunFrom(|ids|, Start(ids, cursor), batches)
    decreases batches
  {
    if batches != [] {
      var b, rest := batches[0], batches[1..];
      var t := Assign(b.caps, Start(ids, cursor), b.jobs).targets;
      var cursor' := if t == [] then cursor else ids[t[|t| - 1]];
      assert batches == [b] + rest;
      RunCons(ids, cursor, b, rest, t);
      RunFromCons(|ids|, Start(ids, cursor), b, rest, t);
      RunIsRunFrom(ids, cursor', rest);
      if t != [] { StartAfter(ids, t[|t| - 1]); }
    }
  }

  lemma FirstBatch(n: nat, pos: nat, b: Batch, rest: seq<Batch>)
    requires pos < n && Walks(b, n)
    requires forall k :: 0 <= k < |rest| ==> |rest[k].caps| == n
    ensures RunFrom(n, pos, [b] + rest) == Walk(pos, b.jobs, n) + RunFrom(n, Advance(pos, b.jobs, n), rest)
  {
    RunFromCons(n, pos, b, rest, Walk(pos, b.jobs, n));
    if b.jobs > 0 { WalkLast(pos, b.jobs, n); }
  }

  lemma {:induction false} RunFromWalks(n: nat, pos: nat, batches: seq<Batch>)
    requires pos < n
    requires forall k :: 0 <= k < |batches| ==> |batches[k].caps| == n && Walks(batches[k], n)
    ensures RunFrom(n, pos, batches) == Walk(pos, Jobs(batches), n)
    decreases batches
  {
    if batches != [] {
      var b, rest := batches[0], batches[1..];
      FirstBatch(n, pos, b, rest);
      assert batches == [b] + rest;
      RunFromWalks(n, Advance(pos, b.jobs, n), rest);
      WalkConcat(pos, b.jobs, Jobs(rest), n);
    }
  }

  /** Over any number of passes with room for their even shares, the placements walk the ring
      without a gap, as if the passes had been one. */
  lemma RunWalks(ids: seq<string>, cursor: string, batches: seq<Batch>)
    requires |ids| > 0 && Ascending(ids)
    requires forall k :: 0 <= k < |batches| ==> |batches[k].caps| == |ids| && batches[k].Even(|ids|)
    ensures Run(ids, cursor, batches) == Walk(Start(ids, cursor), Jobs(batches), |ids|)
  {
    RunIsRunFrom(ids, cursor, batches);
    forall k | 0 <= k < |batches|
      ensures Walks(batches[k], |ids|)
    {
      EvenBatchWalks(batches[k], |ids|);
    }
    RunFromWalks(|ids|, Start(ids, cursor), batches);
  }

  /** Lifetime fairness: after any such run no worker has had two jobs more than another. */
  lemma RunFair(ids: seq<string>, cursor: string, batches: seq<Batch>, a: nat, b: nat)
    requires |ids| > 0 && Ascending(ids) && a < |ids| && b < |ids|
    requires forall k :: 0 <= k < |batches| ==> |batches[k].caps| == |ids| && batches[k].Even(|ids|)
    ensures var t := Run(ids, cursor, batches);
            |t| == Jobs(batches) && Count(t, a) <= Count(t, b) + 1
  {
    var start, m := Start(ids, cursor), Jobs(batches);
    RunWalks(ids, cursor, batches);
    WalkCount(start, m, |ids|, a);
    WalkCount(start, m, |ids|, b);
    VisitsBalanced(start, m, |ids|, a, b);
  }
}
