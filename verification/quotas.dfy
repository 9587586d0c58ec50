/**
 * The dispatcher's reserve, claim and return cycle: src/symba/services/matcher.py:99-127 and
 * 167-194, and the rate-class filter of src/symba/db/queries/claim.sql.
 */
module RateQuotas {
  import opened Claims
  import opened TokenBuckets
  import opened RateLimiting

  /** When a call on a class is made, and what Redis does with it. */
  datatype Moment = Moment(at: real, reply: Reply)

  predicate InClass(j: ClaimedJob, c: string) {
    j.rateClass.Some? && j.rateClass.value == c
  }

  /** How many of the jobs are of class `c`. */
  function Count(jobs: seq<ClaimedJob>, c: string): nat {
    if jobs == [] then 0
    else Count(jobs[..|jobs| - 1], c) + (if InClass(jobs[|jobs| - 1], c) then 1 else 0)
  }

  /** What the claim query makes of a class: skipped, limited to a quota, or not limited at all. The
      last happens when no class at all was reserved and this one was not found exhausted. */
  datatype Standing = Skipped | Quota(tokens: int) | Open

  function StandingOf(exhausted: set<string>, reserved: map<string, int>, c: string): Standing {
    if c in exhausted then Skipped
    else if reserved == map[] then Open
    else if c in reserved then Quota(reserved[c])
    else Skipped
  }

  predicate MayClaim(s: Standing, n: nat) {
    match s
    case Skipped => n == 0
    case Quota(tokens) => n <= tokens
    case Open => true
  }

  /** Nothing limits a class exactly when it was not found exhausted and no class at all was reserved. */
  lemma UnlimitedIff(exhausted: set<string>, reserved: map<string, int>, c: string)
    ensures (forall n: nat :: MayClaim(StandingOf(exhausted, reserved, c), n)) <==> c !in exhausted && reserved == map[]
  {
    var s := StandingOf(exhausted, reserved, c);
    if s.Skipped? {
      assert !MayClaim(s, 1);
    } else if s.Quota? {
      assert !MayClaim(s, if s.tokens < 0 then 0 else s.tokens + 1);
    }
  }

  /** The jobs that pass the rate filter, out of the ready jobs in claim order: a job's rank among
      the ready jobs of its class must be within the quota. */
  function Eligible(ready: seq<ClaimedJob>, exhausted: set<string>, reserved: map<string, int>): seq<ClaimedJob> {
    if ready == [] then []
    else
      var j := ready[|ready| - 1];
      Eligible(ready[..|ready| - 1], exhausted, reserved)
      + (if Passes(j, ready, exhausted, reserved) then [j] else [])
  }

  predicate Passes(j: ClaimedJob, upTo: seq<ClaimedJob>, exhausted: set<string>, reserved: map<string, int>) {
    j.rateClass.None?
    || match StandingOf(exhausted, reserved, j.rateClass.value)
       case Skipped => false
       case Quota(tokens) => Count(upTo, j.rateClass.value) <= tokens
       case Open => true
  }

  lemma CountSnoc(jobs: seq<ClaimedJob>, j: ClaimedJob, c: string)
    ensures Count(jobs + [j], c) == Count(jobs, c) + (if InClass(j, c) then 1 else 0)
  {
  }

  lemma {:induction false} EligibleCount(ready: seq<ClaimedJob>, exhausted: set<string>, reserved: map<string, int>, c: string)
    requires forall x :: x in reserved ==> reserved[x] > 0
    ensures Count(Eligible(ready, exhausted, reserved), c) <= Count(ready, c)
    ensures MayClaim(StandingOf(exhausted, reserved, c), Count(Eligible(ready, exhausted, reserved), c))
    decreases |ready|
  {
    if ready != [] {
      var front, j := ready[..|ready| - 1], ready[|ready| - 1];
      EligibleCount(front, exhausted, reserved, c);
      CountSnoc(Eligible(front, exhausted, reserved), j, c);
      assert Eligible(front, exhausted, reserved) + [] == Eligible(front, exhausted, reserved);
    }
  }

  lemma {:induction false} CountIsMultiplicity(jobs: seq<ClaimedJob>, more: seq<ClaimedJob>, c: string)
    requires multiset(jobs) <= multiset(more)
    ensures Count(jobs, c) <= Count(more, c)
    decreases |jobs|
  {
    if jobs != [] {
      var front, j := jobs[..|jobs| - 1], jobs[|jobs| - 1];
      assert jobs == front + [j];
      assert j in multiset(more);
      var k: nat :| k < |more| && more[k] == j;
      Without(front, j, more, k);
      CountIsMultiplicity(front, more[..k] + more[k + 1..], c);
      CountSplit(more, k, c);
    }
  }

  lemma Without(front: seq<ClaimedJob>, j: ClaimedJob, more: seq<ClaimedJob>, k: nat)
    requires k < |more| && more[k] == j && multiset(front + [j]) <= multiset(more)
    ensures multiset(front) <= multiset(more[..k] + more[k + 1..])
  {
    assert more == more[..k] + ([j] + more[k + 1..]);
    assert multiset(more[..k] + more[k + 1..]) == multiset(more) - multiset{j};
  }

  lemma {:induction false} CountSplit(more: seq<ClaimedJob>, k: nat, c: string)
    requires k < |more|
    ensures Count(more, c) == Count(more[..k] + more[k + 1..], c) + (if InClass(more[k], c) then 1 else 0)
    decreases |more|
  {
    var front, j := more[..|more| - 1], more[|more| - 1];
    if k == |more| - 1 {
      assert more[..k] + more[k + 1..] == front;
    } else {
      CountSplit(front, k, c);
      assert more[..k] + more[k + 1..] == (front[..k] + front[k + 1..]) + [j];
      CountSnoc(front[..k] + front[k + 1..], j, c);
    }
  }

  /** Whatever the claim picks from the eligible jobs (row locks and the batch limit may drop some),
      each class stays within its quota; only a class with an open standing can exceed one. */
  lemma ClaimHonoursQuotas(claimed: seq<ClaimedJob>, ready: seq<ClaimedJob>, exhausted: set<string>,
                           reserved: map<string, int>, c: string)
    requires forall x :: x in reserved ==> reserved[x] > 0
    requires multiset(claimed) <= multiset(Eligible(ready, exhausted, reserved))
    ensures MayClaim(StandingOf(exhausted, reserved, c), Count(claimed, c))
  {
    EligibleCount(ready, exhausted, reserved, c);
    CountIsMultiplicity(claimed, Eligible(ready, exhausted, reserved), c);
  }

  // ---------------------------------------------------------------- what passes, exactly

  /** The jobs of class `c`, in order. */
  function OfClass(jobs: seq<ClaimedJob>, c: string): seq<ClaimedJob> {
    if jobs == [] then []
    else OfClass(jobs[..|jobs| - 1], c) + (if InClass(jobs[|jobs| - 1], c) then [jobs[|jobs| - 1]] else [])
  }

  /** The jobs without a class, in order. */
  function Unclassed(jobs: seq<ClaimedJob>): seq<ClaimedJob> {
    if jobs == [] then []
    else Unclassed(jobs[..|jobs| - 1]) + (if jobs[|jobs| - 1].rateClass.None? then [jobs[|jobs| - 1]] else [])
  }

  predicate IsSubsequence(a: seq<ClaimedJob>, b: seq<ClaimedJob>)
    decreases |b|
  {
    a == []
    || (b != [] && ((a[|a| - 1] == b[|b| - 1] && IsSubsequence(a[..|a| - 1], b[..|b| - 1]))
                    || IsSubsequence(a, b[..|b| - 1])))
  }

  lemma {:induction false} OfClassCounts(jobs: seq<ClaimedJob>, c: string)
    ensures |OfClass(jobs, c)| == Count(jobs, c)
    decreases |jobs|
  {
    if jobs != [] { OfClassCounts(jobs[..|jobs| - 1], c); }
  }

  /** Nothing else is in it, and nothing is missing. */
  lemma {:induction false} OfClassMembers(jobs: seq<ClaimedJob>, c: string, j: ClaimedJob)
    ensures j in OfClass(jobs, c) <==> j in jobs && j.rateClass == Some(c)
    decreases |jobs|
  {
    if jobs != [] {
      OfClassMembers(jobs[..|jobs| - 1], c, j);
      assert j in jobs <==> j in jobs[..|jobs| - 1] || j == jobs[|jobs| - 1];
    }
  }

  /** How many of `n` ready jobs a standing lets through. */
  function Admitted(s: Standing, n: nat): nat {
    match s
    case Skipped => 0
    case Quota(tokens) => if tokens < 0 then 0 else if n < tokens then n else tokens
    case Open => n
  }

  lemma PartSnoc(jobs: seq<ClaimedJob>, j: ClaimedJob, c: string)
    ensures OfClass(jobs + [j], c) == OfClass(jobs, c) + (if InClass(j, c) then [j] else [])
    ensures Unclassed(jobs + [j]) == Unclassed(jobs) + (if j.rateClass.None? then [j] else [])
  {
    assert (jobs + [j])[..|jobs|] == jobs;
  }

  lemma {:induction false} EligibleOfClass(ready: seq<ClaimedJob>, exhausted: set<string>, reserved: map<string, int>, c: string)
    ensures OfClass(Eligible(ready, exhausted, reserved), c)
         == OfClass(ready, c)[..Admitted(StandingOf(exhausted, reserved, c), |OfClass(ready, c)|)]
    decreases |ready|
  {
    if ready != [] {
      var front, j := ready[..|ready| - 1], ready[|ready| - 1];
      var e := Eligible(front, exhausted, reserved);
      EligibleOfClass(front, exhausted, reserved, c);
      OfClassCounts(ready, c);
      PartSnoc(e, j, c);
      assert e + [] == e;
    }
  }

  lemma {:induction false} EligibleInOrder(ready: seq<ClaimedJob>, exhausted: set<string>, reserved: map<string, int>)
    ensures Unclassed(Eligible(ready, exhausted, reserved)) == Unclassed(ready)
    ensures IsSubsequence(Eligible(ready, exhausted, reserved), ready)
    decreases |ready|
  {
    if ready != [] {
      var front, j := ready[..|ready| - 1], ready[|ready| - 1];
      var e := Eligible(front, exhausted, reserved);
      EligibleInOrder(front, exhausted, reserved);
      PartSnoc(e, j, "");
      assert e + [] == e && (e + [j])[..|e|] == e;
    }
  }

  /** Of every class the first ready jobs pass: all of them if it is open, as many as its quota, or none; all
      jobs without a class pass; and all in the order in which they were ready. */
  lemma EligibleExactly(ready: seq<ClaimedJob>, exhausted: set<string>, reserved: map<string, int>, c: string)
    ensures OfClass(Eligible(ready, exhausted, reserved), c)
         == OfClass(ready, c)[..Admitted(StandingOf(exhausted, reserved, c), |OfClass(ready, c)|)]
    ensures Unclassed(Eligible(ready, exhausted, reserved)) == Unclassed(ready)
    ensures IsSubsequence(Eligible(ready, exhausted, reserved), ready)
  {
    EligibleOfClass(ready, exhausted, reserved, c);
    EligibleInOrder(ready, exhausted, reserved);
  }

  /** So, as a number. */
  lemma EligibleNumber(ready: seq<ClaimedJob>, exhausted: set<string>, reserved: map<string, int>, c: string)
    ensures Count(Eligible(ready, exhausted, reserved), c) == Admitted(StandingOf(exhausted, reserved, c), Count(ready, c))
  {
    EligibleExactly(ready, exhausted, reserved, c);
    OfClassCounts(ready, c);
    OfClassCounts(Eligible(ready, exhausted, reserved), c);
  }

  // ---------------------------------------------------------------- the two loops

  predicate Distinct(classes: seq<string>) {
    forall i, j :: 0 <= i < j < |classes| ==> classes[i] != classes[j]
  }

  /** The limiter as a pass finds it. */
  datatype Limits = Limits(cfg: map<string, Config>, buckets: map<string, Pair>, redisOn: bool)

  function Effective(l: Limits, m: Moment): Reply { if l.redisOn then m.reply else Refused }

  /** What a class grants to a pass that asks for `limit`. */
  function Grant(l: Limits, c: string, limit: int, m: Moment): int {
    if limit <= 0 then 0
    else if c !in l.cfg || c !in l.buckets then limit
    else Change(l.cfg[c], l.buckets[c], Reserve(m.at, limit, Effective(l, m)))
  }

  ghost function Exhausted(l: Limits, classes: seq<string>, limit: int, when: string -> Moment): set<string> {
    set c | c in classes && Grant(l, c, limit, when(c)) <= 0
  }

  ghost function Granted(l: Limits, classes: seq<string>, limit: int, when: string -> Moment): map<string, int> {
    map c | c in classes && Grant(l, c, limit, when(c)) > 0 :: Grant(l, c, limit, when(c))
  }

  /** What the claim makes of a class after the reserve loop asked `classes`: its grant is its quota; one
      that was not asked is skipped when some class granted something, and open otherwise. */
  lemma StandingAfterAsking(l: Limits, classes: seq<string>, limit: int, when: string -> Moment, c: string)
    ensures StandingOf(Exhausted(l, classes, limit, when), Granted(l, classes, limit, when), c)
         == if c in classes
            then (if Grant(l, c, limit, when(c)) > 0 then Quota(Grant(l, c, limit, when(c))) else Skipped)
            else (if Granted(l, classes, limit, when) != map[] then Skipped else Open)
  {
    var granted := Granted(l, classes, limit, when);
    if c in classes && Grant(l, c, limit, when(c)) > 0 {
      assert c in granted;
    }
  }

  /** So the class is claimed without limit exactly when it was not among the classes asked and none of
      those granted anything. */
  lemma OverlookedIff(l: Limits, classes: seq<string>, limit: int, when: string -> Moment, c: string)
    ensures (forall n: nat ::
               MayClaim(StandingOf(Exhausted(l, classes, limit, when), Granted(l, classes, limit, when), c), n))
        <==> c !in classes && forall x :: x in classes ==> Grant(l, x, limit, when(x)) <= 0
  {
    var exhausted, granted := Exhausted(l, classes, limit, when), Granted(l, classes, limit, when);
    UnlimitedIff(exhausted, granted, c);
    if x :| x in classes && Grant(l, x, limit, when(x)) > 0 {
      assert x in granted;
    } else {
      assert granted.Keys == {};
    }
  }

  /** The buckets once the classes have been asked, each class on its own. */
  ghost function Asked(l: Limits, classes: seq<string>, limit: int, when: string -> Moment): map<string, Pair> {
    map c | c in l.buckets ::
      if c in classes && c in l.cfg && limit > 0
      then After(l.cfg[c], l.buckets[c], Reserve(when(c).at, limit, Effective(l, when(c))))
      else l.buckets[c]
  }

  /** `_reserve_rate_tokens`. */
  method ReserveRateTokens(rate: RateLimiter?, classes: seq<string>, limit: int, when: string -> Moment)
    returns (exhausted: set<string>, reserved: map<string, int>)
    requires rate != null ==> rate.Valid()
    requires Distinct(classes)
    modifies rate
    ensures rate == null ==> exhausted == {} && reserved == map[]
    ensures rate != null ==>
              var l := Limits(rate.cfg, old(rate.buckets), rate.redisEnabled);
              && rate.Valid() && rate.cfg == old(rate.cfg)
              && exhausted == Exhausted(l, classes, limit, when)
              && reserved == Granted(l, classes, limit, when)
              && rate.buckets == Asked(l, classes, limit, when)
  {
    exhausted, reserved := {}, map[];
    if rate == null {
      return;
    }
    ghost var l := Limits(rate.cfg, rate.buckets, rate.redisEnabled);
    assert rate.buckets == Asked(l, classes[..0], limit, when);
    for i := 0 to |classes|
      invariant rate.Valid() && rate.cfg == l.cfg
      invariant exhausted == Exhausted(l, classes[..i], limit, when)
      invariant reserved == Granted(l, classes[..i], limit, when)
      invariant rate.buckets == Asked(l, classes[..i], limit, when)
    {
      var rc := classes[i];
      AskedNext(l, classes, i, limit, when);
      GrantedNext(l, classes, i, limit, when);
      var granted := rate.Reserve(rc, limit, when(rc).at, when(rc).reply);
      if granted <= 0 {
        exhausted := exhausted + {rc};
      } else {
        reserved := reserved[rc := granted];
      }
    }
    assert classes[..|classes|] == classes;
  }

  lemma NextClass(classes: seq<string>, i: nat)
    requires Distinct(classes) && i < |classes|
    ensures classes[i] !in classes[..i]
    ensures forall c :: c in classes[..i + 1] <==> c in classes[..i] || c == classes[i]
  {
  }

  lemma GrantedNext(l: Limits, classes: seq<string>, i: nat, limit: int, when: string -> Moment)
    requires Distinct(classes) && i < |classes|
    ensures var c, front, next := classes[i], classes[..i], classes[..i + 1];
            var g := Grant(l, c, limit, when(c));
            && Exhausted(l, next, limit, when) == Exhausted(l, front, limit, when) + (if g <= 0 then {c} else {})
            && Granted(l, next, limit, when)
               == (if g > 0 then Granted(l, front, limit, when)[c := g] else Granted(l, front, limit, when))
  {
    NextClass(classes, i);
  }

  lemma AskedNext(l: Limits, classes: seq<string>, i: nat, limit: int, when: string -> Moment)
    requires Distinct(classes) && i < |classes| && l.cfg.Keys <= l.buckets.Keys
    ensures var c, front := classes[i], Asked(l, classes[..i], limit, when);
            && (c in l.buckets ==> front[c] == l.buckets[c])
            && Asked(l, classes[..i + 1], limit, when)
               == if limit <= 0 || c !in l.cfg then front
                  else front[c := After(l.cfg[c], l.buckets[c], Reserve(when(c).at, limit, Effective(l, when(c))))]
  {
  }

  /** The buckets once unused tokens went back. */
  ghost function Restored(l: Limits, unused: map<string, int>, when: string -> Moment): map<string, Pair> {
    map c | c in l.buckets ::
      if c in unused && c in l.cfg && unused[c] > 0
      then After(l.cfg[c], l.buckets[c], Release(when(c).at, unused[c], Effective(l, when(c))))
      else l.buckets[c]
  }

  function Unused(reserved: map<string, int>, claimed: seq<ClaimedJob>): map<string, int> {
    map c | c in reserved :: reserved[c] - Count(claimed, c)
  }

  /** The counting loop of `_return_unused_tokens`. */
  method CountConsumed(claimed: seq<ClaimedJob>) returns (consumed: map<string, nat>)
    ensures forall c :: (if c in consumed then consumed[c] else 0) == Count(claimed, c)
  {
    consumed := map[];
    for i := 0 to |claimed|
      invariant forall c :: (if c in consumed then consumed[c] else 0) == Count(claimed[..i], c)
    {
      var job := claimed[i];
      assert claimed[..i + 1] == claimed[..i] + [job];
      forall c
        ensures Count(claimed[..i + 1], c) == Count(claimed[..i], c) + (if InClass(job, c) then 1 else 0)
      {
        CountSnoc(claimed[..i], job, c);
      }
      if job.rateClass.Some? {
        var rc := job.rateClass.value;
        consumed := consumed[rc := (if rc in consumed then consumed[rc] else 0) + 1];
      }
    }
    assert claimed[..|claimed|] == claimed;
  }

  /** The returning loop of `_return_unused_tokens`. */
  method GiveBack(rate: RateLimiter, unused: map<string, int>, when: string -> Moment)
    requires rate.Valid()
    modifies rate
    ensures rate.Valid() && rate.cfg == old(rate.cfg)
    ensures rate.buckets == Restored(Limits(rate.cfg, old(rate.buckets), rate.redisEnabled), unused, when)
  {
    ghost var l := Limits(rate.cfg, rate.buckets, rate.redisEnabled);
    var todo := unused.Keys;
    PartEnds(l, unused, when);
    while todo != {}
      invariant todo <= unused.Keys
      invariant rate.Valid() && rate.cfg == l.cfg
      invariant rate.buckets == Restored(l, Part(unused, unused.Keys - todo), when)
      decreases |todo|
    {
      var rc :| rc in todo;
      RestoredNext(l, unused, unused.Keys - todo, rc, when);
      assert unused.Keys - (todo - {rc}) == unused.Keys - todo + {rc};
      if unused[rc] > 0 {
        rate.Release(rc, unused[rc], when(rc).at, when(rc).reply);
      }
      todo := todo - {rc};
    }
  }

  lemma PartEnds(l: Limits, unused: map<string, int>, when: string -> Moment)
    ensures Restored(l, Part(unused, unused.Keys - unused.Keys), when) == l.buckets
    ensures Part(unused, unused.Keys - {}) == unused
  {
  }

  /** `_return_unused_tokens`: every reserved class gets back what was not claimed. */
  method ReturnUnusedTokens(rate: RateLimiter?, reserved: map<string, int>, claimed: seq<ClaimedJob>,
                            when: string -> Moment)
    requires rate != null ==> rate.Valid()
    modifies rate
    ensures rate != null ==>
              && rate.Valid() && rate.cfg == old(rate.cfg)
              && rate.buckets == Restored(Limits(rate.cfg, old(rate.buckets), rate.redisEnabled),
                                          Unused(reserved, claimed), when)
  {
    if rate == null {
      return;
    }
    var consumed := CountConsumed(claimed);
    var unused := map rc | rc in reserved :: reserved[rc] - (if rc in consumed then consumed[rc] else 0);
    assert unused == Unused(reserved, claimed);
    GiveBack(rate, unused, when);
  }

  ghost function Part(unused: map<string, int>, done: set<string>): map<string, int> {
    map c | c in unused && c in done :: unused[c]
  }

  lemma RestoredNext(l: Limits, unused: map<string, int>, done: set<string>, rc: string, when: string -> Moment)
    requires rc in unused && rc !in done && l.cfg.Keys <= l.buckets.Keys
    ensures var before := Restored(l, Part(unused, done), when);
            && (rc in l.buckets ==> before[rc] == l.buckets[rc])
            && Restored(l, Part(unused, done + {rc}), when)
               == if rc !in l.cfg || unused[rc] <= 0 then before
                  else before[rc := After(l.cfg[rc], l.buckets[rc],
                                          Release(when(rc).at, unused[rc], Effective(l, when(rc))))]
  {
  }
}

/** What a pass costs a class: the tokens it reserved and did not claim are back. */
module PassCosts {
  import opened Claims
  import opened TokenBuckets
  import opened RateLimiting
  import opened RateQuotas

  /** The bucket Redis answered from, after the reserve and the return of a pass. */
  lemma CostIsClaims(l: Limits, classes: seq<string>, limit: int, asked: string -> Moment, returned: string -> Moment,
                     claimed: seq<ClaimedJob>, c: string)
    requires c in classes && c in l.cfg && c in l.buckets && limit > 0 && l.redisOn
    requires l.cfg[c].Valid() && InRange(l.cfg[c], l.buckets[c].redis, asked(c).at)
    requires asked(c).reply.Answered? && returned(c).reply.Answered? && asked(c).at <= returned(c).at < asked(c).at + IDLE
    requires Grant(l, c, limit, asked(c)) > 0 && Count(claimed, c) <= Grant(l, c, limit, asked(c))
    ensures var after := Restored(l.(buckets := Asked(l, classes, limit, asked)),
                                  Unused(RateQuotas.Granted(l, classes, limit, asked), claimed), returned)[c];
            && after.redis.Bucket? && after.redis.ts == asked(c).at && after.pg == l.buckets[c].pg
            && after.redis.tokens == Refilled(l.cfg[c], Redis, Live(l.buckets[c].redis, asked(c).at), asked(c).at)
                                     - Count(claimed, c) as real
  {
    var cfg, p, t := l.cfg[c], l.buckets[c], asked(c).at;
    var granted := Grant(l, c, limit, asked(c));
    var q := After(cfg, p, Reserve(t, limit, Answered));
    assert granted == Change(cfg, p, Reserve(t, limit, Answered)) && Asked(l, classes, limit, asked)[c] == q;
    HandedBack(cfg, p, t, limit, Count(claimed, c), returned(c).at);
  }
}

/**
 * Any number of engines running passes over one configured class, step by step: ask the class, claim,
 * hand back. An engine may stop between any two steps.
 */
module RatePasses {
  import opened TokenBuckets
  import opened RateLimiting
  import opened RateQuotas

  datatype Pass = Idle | Ready(standing: Standing) | Spent(left: nat)

  datatype Event =
    | Peek(engine: nat, at: real, want: nat, reply: Reply)
    | Overlook(engine: nat, othersReserved: bool)
    | Claim(engine: nat, jobs: nat)
    | Settle(engine: nat, at: real, reply: Reply)
    | Feedback(at: real, reply: Reply)

  /** `claimed` counts jobs claimed by passes with a quota, `unmetered` the others; `calls` is what
      the limiter was asked, in order. */
  datatype Fleet = Fleet(passes: seq<Pass>, claimed: nat, unmetered: nat, calls: seq<Call>)

  predicate Enabled(t: real, f: Fleet, ev: Event) {
    match ev
    case Peek(e, at, want, _) => e < |f.passes| && f.passes[e].Idle? && Clock(t, f.calls) <= at && want > 0
    case Overlook(e, _) => e < |f.passes| && f.passes[e].Idle?
    case Claim(e, jobs) => e < |f.passes| && f.passes[e].Ready? && MayClaim(f.passes[e].standing, jobs)
    case Settle(e, at, _) => e < |f.passes| && f.passes[e].Spent? && Clock(t, f.calls) <= at
    case Feedback(at, _) => Clock(t, f.calls) <= at
  }

  function Next(cfg: Config, start: Pair, t: real, f: Fleet, ev: Event): Fleet
    requires Enabled(t, f, ev)
  {
    match ev
    case Peek(e, at, want, reply) =>
      var call := Reserve(at, want, reply);
      var granted := Change(cfg, Last(cfg, start, f.calls), call);
      f.(passes := f.passes[e := Ready(if granted > 0 then Quota(granted) else Skipped)], calls := f.calls + [call])
    case Overlook(e, othersReserved) =>
      f.(passes := f.passes[e := Ready(if othersReserved then Skipped else Open)])
    case Claim(e, jobs) =>
      var s := f.passes[e].standing;
      if s.Open? then f.(passes := f.passes[e := Spent(0)], unmetered := f.unmetered + jobs)
      else f.(passes := f.passes[e := Spent(if s.Quota? then s.tokens - jobs else 0)], claimed := f.claimed + jobs)
    case Settle(e, at, reply) =>
      var left := f.passes[e].left;
      f.(passes := f.passes[e := Idle], calls := f.calls + (if left > 0 then [Release(at, left, reply)] else []))
    case Feedback(at, reply) => f.(calls := f.calls + [Empty(at, reply)])
  }

  /** Every event is possible when its turn comes. */
  predicate Possible(cfg: Config, start: Pair, t: real, f: Fleet, evs: seq<Event>)
    decreases |evs|
  {
    evs == [] || (Enabled(t, f, evs[0]) && Possible(cfg, start, t, Next(cfg, start, t, f, evs[0]), evs[1..]))
  }

  function Run(cfg: Config, start: Pair, t: real, f: Fleet, evs: seq<Event>): Fleet
    requires Possible(cfg, start, t, f, evs)
    decreases |evs|
  {
    if evs == [] then f else Run(cfg, start, t, Next(cfg, start, t, f, evs[0]), evs[1..])
  }

  /** Tokens a pass has reserved and neither claimed against nor handed back. */
  function Held(p: Pass): int {
    match p
    case Idle => 0
    case Ready(s) => if s.Quota? then s.tokens else 0
    case Spent(left) => left
  }

  function AllHeld(passes: seq<Pass>): int {
    if passes == [] then 0 else Held(passes[0]) + AllHeld(passes[1..])
  }

  /** No pass is in flight. */
  function Quiet(engines: nat): Fleet {
    Fleet(seq(engines, _ => Idle), 0, 0, [])
  }

  ghost predicate Conserved(cfg: Config, start: Pair, t: real, f: Fleet) {
    && (forall i :: 0 <= i < |f.passes| ==> Held(f.passes[i]) >= 0)
    && InOrder(t, f.calls)
    && Balance(cfg, start, f.calls) == f.claimed + AllHeld(f.passes)
  }

  lemma {:induction false} HeldUpdate(passes: seq<Pass>, e: nat, p: Pass)
    requires e < |passes|
    ensures AllHeld(passes[e := p]) == AllHeld(passes) - Held(passes[e]) + Held(p)
    decreases |passes|
  {
    if e == 0 {
      assert passes[e := p][1..] == passes[1..];
    } else {
      HeldUpdate(passes[1..], e - 1, p);
      assert passes[e := p][1..] == passes[1..][e - 1 := p];
    }
  }

  lemma {:induction false} HeldNotNegative(passes: seq<Pass>)
    requires forall i :: 0 <= i < |passes| ==> Held(passes[i]) >= 0
    ensures AllHeld(passes) >= 0
    decreases |passes|
  {
    if passes != [] { HeldNotNegative(passes[1..]); }
  }

  lemma {:induction false} QuietHoldsNothing(engines: nat)
    ensures AllHeld(Quiet(engines).passes) == 0
    decreases engines
  {
    if engines > 0 {
      QuietHoldsNothing(engines - 1);
      assert Quiet(engines).passes[1..] == Quiet(engines - 1).passes;
    }
  }

  lemma {:induction false} BalanceSnoc(cfg: Config, p: Pair, t: real, calls: seq<Call>, call: Call)
    ensures Balance(cfg, p, calls + [call]) == Balance(cfg, p, calls) + Change(cfg, Last(cfg, p, calls), call)
    ensures InOrder(t, calls + [call]) <==> InOrder(t, calls) && Clock(t, calls) <= call.at
    decreases |calls|
  {
    if calls == [] {
      assert [] + [call] == [call] && [call][1..] == [];
    } else {
      BalanceSnoc(cfg, After(cfg, p, calls[0]), calls[0].at, calls[1..], call);
      assert (calls + [call])[1..] == calls[1..] + [call];
    }
  }

  lemma NextConserves(cfg: Config, start: Pair, t: real, f: Fleet, ev: Event)
    requires Conserved(cfg, start, t, f) && Enabled(t, f, ev)
    requires GrantsSound(cfg, start, t, f, ev)
    ensures Conserved(cfg, start, t, Next(cfg, start, t, f, ev))
  {
    var f' := Next(cfg, start, t, f, ev);
    if !ev.Feedback? {
      HeldUpdate(f.passes, ev.engine, f'.passes[ev.engine]);
    }
    if f'.calls != f.calls {
      var call := f'.calls[|f.calls|];
      assert f'.calls == f.calls + [call];
      BalanceSnoc(cfg, start, t, f.calls, call);
    } else {
      assert f.calls + [] == f.calls;
    }
  }

  /** A grant is never negative, so asking an exhausted class changes nothing. */
  ghost predicate GrantsSound(cfg: Config, start: Pair, t: real, f: Fleet, ev: Event) {
    ev.Peek? ==> Change(cfg, Last(cfg, start, f.calls), Reserve(ev.at, ev.want, ev.reply)) >= 0
  }

  lemma {:induction false} LastInRange(cfg: Config, p: Pair, t: real, calls: seq<Call>)
    requires cfg.Valid() && InRange(cfg, p.redis, t) && InRange(cfg, p.pg, t) && InOrder(t, calls)
    ensures InRange(cfg, Last(cfg, p, calls).redis, Clock(t, calls))
    ensures InRange(cfg, Last(cfg, p, calls).pg, Clock(t, calls))
    decreases |calls|
  {
    if calls != [] {
      StepInRange(cfg, Redis, p.redis, t, OpOf(calls[0]));
      StepInRange(cfg, Postgres, p.pg, t, OpOf(calls[0]));
      LastInRange(cfg, After(cfg, p, calls[0]), calls[0].at, calls[1..]);
    }
  }

  lemma GrantNotNegative(cfg: Config, start: Pair, t: real, f: Fleet, ev: Event)
    requires cfg.Valid() && SoundPair(cfg, start, t) && Conserved(cfg, start, t, f) && Enabled(t, f, ev)
    ensures GrantsSound(cfg, start, t, f, ev)
  {
    if ev.Peek? {
      LastInRange(cfg, start, t, f.calls);
      var p := Last(cfg, start, f.calls);
      TakeIsExact(cfg, Redis, Live(p.redis, ev.at), ev.at, ev.want);
      TakeIsExact(cfg, Postgres, Live(p.pg, ev.at), ev.at, ev.want);
    }
  }

  /** In every run, tokens granted less tokens returned are exactly the jobs claimed against quotas
      plus the tokens still held by passes in flight. */
  lemma {:induction false} RunConserves(cfg: Config, start: Pair, t: real, f: Fleet, evs: seq<Event>)
    requires cfg.Valid() && SoundPair(cfg, start, t)
    requires Conserved(cfg, start, t, f) && Possible(cfg, start, t, f, evs)
    ensures Conserved(cfg, start, t, Run(cfg, start, t, f, evs))
    decreases |evs|
  {
    if evs != [] {
      GrantNotNegative(cfg, start, t, f, evs[0]);
      NextConserves(cfg, start, t, f, evs[0]);
      RunConserves(cfg, start, t, Next(cfg, start, t, f, evs[0]), evs[1..]);
    }
  }

  lemma BalanceCoversClaims(cfg: Config, start: Pair, t: real, engines: nat, evs: seq<Event>)
    requires cfg.Valid() && SoundPair(cfg, start, t) && Possible(cfg, start, t, Quiet(engines), evs)
    ensures var f := Run(cfg, start, t, Quiet(engines), evs);
            f.claimed <= Balance(cfg, start, f.calls) && InOrder(t, f.calls)
  {
    QuietHoldsNothing(engines);
    RunConserves(cfg, start, t, Quiet(engines), evs);
    HeldNotNegative(Run(cfg, start, t, Quiet(engines), evs).passes);
  }

  lemma BalanceBounded(cfg: Config, start: Pair, t: real, claimed: int, calls: seq<Call>)
    requires cfg.Valid() && SoundPair(cfg, start, t) && InOrder(t, calls) && claimed <= Balance(cfg, start, calls)
    requires SlowExpiry(cfg, Redis) || cfg.capacity < 1.0
    ensures claimed as real <= 2.0 * (cfg.capacity + Earned(cfg, Clock(t, calls) - t)) + Doubled(calls) as real
    ensures NoFailure(calls) ==> claimed as real <= cfg.capacity + Earned(cfg, Clock(t, calls) - t)
  {
    FailoverBound(cfg, start, t, calls);
    if NoFailure(calls) { HealthyBound(cfg, start, t, calls); }
  }

  /** The promise: from any moment with no pass in flight, the jobs of a class claimed against quotas
      stay within capacity plus refill while Redis answers, and within twice that (beyond tokens a
      lost return credited twice) across any failures. */
  lemma ClaimsBounded(cfg: Config, start: Pair, t: real, engines: nat, evs: seq<Event>)
    requires cfg.Valid() && SoundPair(cfg, start, t) && Possible(cfg, start, t, Quiet(engines), evs)
    requires SlowExpiry(cfg, Redis) || cfg.capacity < 1.0
    ensures var f := Run(cfg, start, t, Quiet(engines), evs);
            && f.claimed as real <= 2.0 * (cfg.capacity + Earned(cfg, Clock(t, f.calls) - t)) + Doubled(f.calls) as real
            && (NoFailure(f.calls) ==> f.claimed as real <= cfg.capacity + Earned(cfg, Clock(t, f.calls) - t))
  {
    var f := Run(cfg, start, t, Quiet(engines), evs);
    BalanceCoversClaims(cfg, start, t, engines, evs);
    BalanceBounded(cfg, start, t, f.claimed, f.calls);
  }

  // ---------------------------------------------------------------- the steps and the loops

  lemma {:induction false} LastSnoc(cfg: Config, p: Pair, calls: seq<Call>, call: Call)
    ensures Last(cfg, p, calls + [call]) == After(cfg, Last(cfg, p, calls), call)
    decreases |calls|
  {
    if calls == [] {
      assert [] + [call] == [call] && [call][1..] == [];
    } else {
      LastSnoc(cfg, After(cfg, p, calls[0]), calls[1..], call);
      assert (calls + [call])[1..] == calls[1..] + [call];
    }
  }

  /** What a reserve loop over `classes` is, seen from class `c`: it is asked, or overlooked. */
  ghost function Look(l: Limits, classes: seq<string>, limit: nat, when: string -> Moment, c: string, e: nat): Event {
    if c in classes then Peek(e, when(c).at, limit, Effective(l, when(c)))
    else Overlook(e, RateQuotas.Granted(l, classes, limit, when) != map[])
  }

  /** In any fleet, that step leaves the engine with exactly the standing the claim query will give the
      class, and the class's buckets as the reserve loop leaves them. */
  lemma LookIsReserve(start: Pair, t: real, f: Fleet, l: Limits, classes: seq<string>, limit: nat,
                      when: string -> Moment, c: string, e: nat)
    requires c in l.cfg && c in l.buckets && l.buckets[c] == Last(l.cfg[c], start, f.calls) && limit > 0
    requires Enabled(t, f, Look(l, classes, limit, when, c, e))
    ensures var next := Next(l.cfg[c], start, t, f, Look(l, classes, limit, when, c, e));
            && next.passes[e]
               == Ready(StandingOf(Exhausted(l, classes, limit, when), RateQuotas.Granted(l, classes, limit, when), c))
            && Last(l.cfg[c], start, next.calls) == Asked(l, classes, limit, when)[c]
            && next.claimed == f.claimed && next.unmetered == f.unmetered
  {
    StandingAfterAsking(l, classes, limit, when, c);
    if c in classes {
      LastSnoc(l.cfg[c], start, f.calls, Reserve(when(c).at, limit, Effective(l, when(c))));
    }
  }

  /** A pass may claim any number of jobs exactly when its standing is open. */
  lemma ClaimUnlimitedIff(t: real, f: Fleet, e: nat)
    ensures (forall n: nat :: Enabled(t, f, Claim(e, n))) <==> e < |f.passes| && f.passes[e] == Ready(Open)
  {
    if e >= |f.passes| || !f.passes[e].Ready? {
      assert !Enabled(t, f, Claim(e, 0));
    } else {
      var s := f.passes[e].standing;
      if s.Skipped? {
        assert !Enabled(t, f, Claim(e, 1));
      } else if s.Quota? {
        assert !Enabled(t, f, Claim(e, if s.tokens < 0 then 0 else s.tokens + 1));
      }
    }
  }

  /** In any fleet, an idle engine that overlooks the class and reserves nothing else is not limited at
      all: jobs that become ready between the look and the claim are taken without a token. */
  lemma OverlookedClassIsUnlimited(cfg: Config, start: Pair, t: real, f: Fleet, e: nat, n: nat)
    requires e < |f.passes| && f.passes[e].Idle?
    ensures var evs := [Overlook(e, false), Claim(e, n)];
            && Possible(cfg, start, t, f, evs)
            && Run(cfg, start, t, f, evs).unmetered == f.unmetered + n
            && Run(cfg, start, t, f, evs).calls == f.calls
  {
    var a, b := Overlook(e, false), Claim(e, n);
    assert [a, b][1..] == [b] && [b][1..] == [];
    var g := Next(cfg, start, t, f, a);
    assert Enabled(t, g, b);
    assert Possible(cfg, start, t, g, [b]);
    assert Run(cfg, start, t, g, [b]) == Next(cfg, start, t, g, b);
  }

  /** The jobs claimed after a look that overlooked the class with nothing else reserved, told from the
      events alone. `overlooking` are the engines whose last look was such. */
  function OverlookedJobs(evs: seq<Event>, overlooking: set<nat>): nat {
    if evs == [] then 0
    else
      match evs[0]
      case Overlook(e, othersReserved) =>
        OverlookedJobs(evs[1..], if othersReserved then overlooking - {e} else overlooking + {e})
      case Claim(e, jobs) => (if e in overlooking then jobs else 0) + OverlookedJobs(evs[1..], overlooking - {e})
      case Peek(e, _, _, _) => OverlookedJobs(evs[1..], overlooking - {e})
      case _ => OverlookedJobs(evs[1..], overlooking)
  }

  ghost predicate Overlooking(f: Fleet, engines: set<nat>) {
    forall e: nat :: e in engines <==> e < |f.passes| && f.passes[e] == Ready(Open)
  }

  /** In every run, the jobs claimed without a token are exactly those. */
  lemma {:induction false} UnmeteredExactly(cfg: Config, start: Pair, t: real, f: Fleet, evs: seq<Event>, engines: set<nat>)
    requires Possible(cfg, start, t, f, evs) && Overlooking(f, engines)
    ensures Run(cfg, start, t, f, evs).unmetered == f.unmetered + OverlookedJobs(evs, engines)
    decreases |evs|
  {
    if evs != [] {
      var next := Next(cfg, start, t, f, evs[0]);
      var engines' := match evs[0]
        case Overlook(e, othersReserved) => if othersReserved then engines - {e} else engines + {e}
        case Claim(e, _) => engines - {e}
        case Peek(e, _, _, _) => engines - {e}
        case _ => engines;
      assert Overlooking(next, engines');
      UnmeteredExactly(cfg, start, t, next, evs[1..], engines');
    }
  }
}
