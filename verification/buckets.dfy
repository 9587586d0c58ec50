/**
 * src/symba/services/rate_limiter.py: the token bucket as the Redis scripts and the Postgres
 * statements keep it, and how much it can grant over any run.
 *
 * Levels and times are real numbers; floating-point rounding is not modelled. Times are seconds on
 * one clock, except in `GrantedOnClock`, where the caller's clock is arbitrary.
 */
module TokenBuckets {
  import opened Numbers

  datatype Config = Config(capacity: real, refill: real) {
    predicate Valid() { capacity >= 0.0 && refill >= 0.0 }
  }

  /** Where a bucket lives. A Redis key expires an hour after its last take; a Postgres row stays. */
  datatype Store = Redis | Postgres

  datatype Expiry = Never | At(time: real)
  datatype Bucket = Absent | Bucket(tokens: real, ts: real, expiry: Expiry)

  const IDLE: real := 3600.0

  /** The bucket as it is found at time `at`: an expired key is gone. */
  function Live(b: Bucket, at: real): Bucket {
    if b.Bucket? && b.expiry.At? && b.expiry.time <= at then Absent else b
  }

  /** Seconds to refill for: the script clamps a clock that ran backwards, the SQL does not. */
  function Elapsed(store: Store, ts: real, now: real): real {
    if store.Redis? then RealMax(0.0, now - ts) else now - ts
  }

  function Earned(cfg: Config, elapsed: real): real { elapsed * cfg.refill }

  function Refilled(cfg: Config, store: Store, b: Bucket, now: real): real {
    if b.Absent? then cfg.capacity
    else RealMin(cfg.capacity, b.tokens + Earned(cfg, Elapsed(store, b.ts, now)))
  }

  function Granted(cfg: Config, store: Store, b: Bucket, now: real, want: nat): int {
    RealMin(Refilled(cfg, store, b, now), want as real).Floor
  }

  function AfterTake(cfg: Config, store: Store, b: Bucket, now: real, want: nat): Bucket {
    Bucket(Refilled(cfg, store, b, now) - Granted(cfg, store, b, now, want) as real, now,
           if store.Redis? then At(now + IDLE) else Never)
  }

  /** Returning to an absent bucket is a no-op, and the time stamp stays. */
  function AfterReturn(cfg: Config, b: Bucket, give: nat): Bucket {
    if b.Absent? then Absent else b.(tokens := RealMin(cfg.capacity, b.tokens + give as real))
  }

  /** Draining does not touch the key's expiry, and gives a new key none. */
  function AfterDrain(b: Bucket, now: real): Bucket {
    Bucket(0.0, now, if b.Absent? then Never else b.expiry)
  }

  // ---------------------------------------------------------------- runs over one bucket

  datatype Op =
    | Take(at: real, want: nat)
    | Return(at: real, give: nat)
    | Drain(at: real)

  function Step(cfg: Config, store: Store, b: Bucket, op: Op): Bucket {
    var live := Live(b, op.at);
    match op
    case Take(at, want) => AfterTake(cfg, store, live, at, want)
    case Return(at, give) => AfterReturn(cfg, live, give)
    case Drain(at) => AfterDrain(live, at)
  }

  /** Tokens granted less tokens handed back by one operation. */
  function Delta(cfg: Config, store: Store, b: Bucket, op: Op): int {
    match op
    case Take(at, want) => Granted(cfg, store, Live(b, at), at, want)
    case Return(at, give) => 0 - give
    case Drain(at) => 0
  }

  function End(cfg: Config, store: Store, b: Bucket, ops: seq<Op>): Bucket
    decreases |ops|
  {
    if ops == [] then b else End(cfg, store, Step(cfg, store, b, ops[0]), ops[1..])
  }

  /** Granted less returned over a whole run. */
  function Net(cfg: Config, store: Store, b: Bucket, ops: seq<Op>): int
    decreases |ops|
  {
    if ops == [] then 0
    else Delta(cfg, store, b, ops[0]) + Net(cfg, store, Step(cfg, store, b, ops[0]), ops[1..])
  }

  /** The operations come in the order of the clock, none before `t`. */
  predicate Ordered(t: real, ops: seq<Op>)
    decreases |ops|
  {
    ops == [] || (t <= ops[0].at && Ordered(ops[0].at, ops[1..]))
  }

  function LastTime(t: real, ops: seq<Op>): real
    decreases |ops|
  {
    if ops == [] then t else LastTime(ops[0].at, ops[1..])
  }

  predicate InRange(cfg: Config, b: Bucket, t: real) {
    b.Bucket? ==> 0.0 <= b.tokens <= cfg.capacity && b.ts <= t
  }

  /** A bucket as any run leaves it at time `t`. */
  predicate Sound(cfg: Config, store: Store, b: Bucket, t: real) {
    && InRange(cfg, b, t)
    && (b.Bucket? && b.expiry.At? ==> store.Redis? && t < b.expiry.time <= t + IDLE)
  }

  /** Time alone keeps a bucket sound. */
  lemma LiveSound(cfg: Config, store: Store, b: Bucket, t: real, at: real)
    requires Sound(cfg, store, b, t) && t <= at
    ensures Sound(cfg, store, Live(b, at), at)
  {
  }

  /** A take at a clock that did not run backwards finds a level in [0, capacity] and grants no more
      than the level, no more than asked for, and all it can. */
  lemma TakeIsExact(cfg: Config, store: Store, b: Bucket, t: real, want: nat)
    requires cfg.Valid() && InRange(cfg, b, t)
    ensures var level, g := Refilled(cfg, store, b, t), Granted(cfg, store, b, t, want);
            && 0.0 <= level <= cfg.capacity && 0 <= g <= want && g as real <= level
            && (g < want ==> level < g as real + 1.0)
  {
    LevelInRange(cfg, store, b, t);
  }

  // ---------------------------------------------------------------- nothing is lost

  /** Two takes at one time are one take of both: what the first does not grant is still there. */
  lemma TakesAdd(cfg: Config, store: Store, b: Bucket, t: real, a: nat, c: nat)
    requires cfg.Valid() && InRange(cfg, b, t)
    ensures var b' := AfterTake(cfg, store, b, t, a);
            && Granted(cfg, store, b, t, a) + Granted(cfg, store, b', t, c) == Granted(cfg, store, b, t, a + c)
            && b'.ts == t
  {
    TakeIsExact(cfg, store, b, t, a);
    var b' := AfterTake(cfg, store, b, t, a);
    AtItsTime(cfg, store, b', t);
  }

  lemma AtItsTime(cfg: Config, store: Store, b: Bucket, t: real)
    requires b.Bucket? && b.ts == t && b.tokens <= cfg.capacity
    ensures Refilled(cfg, store, b, t) == b.tokens
  {
    assert Earned(cfg, 0.0) == 0.0;
  }

  /** What is granted and handed back is back: a take that ends up used for `used` of its tokens leaves the
      bucket with its level at the take less those, whenever the rest is returned. */
  lemma ReturnUndoesTake(cfg: Config, store: Store, b: Bucket, t: real, want: nat, used: nat)
    requires cfg.Valid() && InRange(cfg, b, t) && used <= Granted(cfg, store, b, t, want)
    ensures var level := Refilled(cfg, store, b, t);
            var r := AfterReturn(cfg, AfterTake(cfg, store, b, t, want), Granted(cfg, store, b, t, want) - used);
            && r.Bucket? && r.tokens == level - used as real && r.ts == t
            && (used == 0 ==> Refilled(cfg, store, r, t) == level)
  {
    TakeIsExact(cfg, store, b, t, want);
    var r := AfterReturn(cfg, AfterTake(cfg, store, b, t, want), Granted(cfg, store, b, t, want) - used);
    AtItsTime(cfg, store, r, t);
  }

  /** A return adds what is given, up to the capacity, and only to a bucket that is there. */
  lemma ReturnAdds(cfg: Config, b: Bucket, give: nat)
    ensures var r := AfterReturn(cfg, b, give);
            if b.Absent? then r.Absent?
            else r.Bucket? && r.ts == b.ts && r.expiry == b.expiry
                 && r.tokens == (if b.tokens + give as real <= cfg.capacity then b.tokens + give as real else cfg.capacity)
  {
  }

  /** A drained bucket grants nothing at that time, and later only what was refilled since. */
  lemma DrainEmpties(cfg: Config, store: Store, b: Bucket, t: real, at: real, want: nat)
    requires cfg.Valid() && t <= at
    ensures Granted(cfg, store, AfterDrain(b, t), t, want) == 0
    ensures Refilled(cfg, store, AfterDrain(b, t), at) == RealMin(cfg.capacity, Earned(cfg, at - t))
  {
    assert Earned(cfg, 0.0) == 0.0;
  }

  lemma LevelInRange(cfg: Config, store: Store, b: Bucket, t: real)
    requires cfg.Valid() && InRange(cfg, b, t)
    ensures 0.0 <= Refilled(cfg, store, b, t) <= cfg.capacity
  {
  }

  lemma StepSound(cfg: Config, store: Store, b: Bucket, t: real, op: Op)
    requires cfg.Valid() && Sound(cfg, store, b, t) && t <= op.at
    ensures Sound(cfg, store, Step(cfg, store, b, op), op.at)
  {
    LiveSound(cfg, store, b, t, op.at);
    if op.Take? {
      TakeIsExact(cfg, store, Live(b, op.at), op.at, op.want);
    }
  }

  /** Every run keeps the level in [0, capacity]. */
  lemma {:induction false} LevelStaysInRange(cfg: Config, store: Store, b: Bucket, t: real, ops: seq<Op>)
    requires cfg.Valid() && Sound(cfg, store, b, t) && Ordered(t, ops)
    ensures Sound(cfg, store, End(cfg, store, b, ops), LastTime(t, ops))
    decreases |ops|
  {
    if ops != [] {
      StepSound(cfg, store, b, t, ops[0]);
      LevelStaysInRange(cfg, store, Step(cfg, store, b, ops[0]), ops[0].at, ops[1..]);
    }
  }

  // ---------------------------------------------------------------- the exact account

  /** The level at `t` if the capacity did not cut it off. */
  function Fill(cfg: Config, b: Bucket, t: real): real
    requires b.Bucket?
  {
    b.tokens + Earned(cfg, t - b.ts)
  }

  /** A run without a drain, in which the bucket neither expires nor overflows. */
  predicate NeverFull(cfg: Config, store: Store, b: Bucket, ops: seq<Op>)
    decreases |ops|
  {
    b.Bucket?
    && (ops == []
        || (&& !ops[0].Drain? && Live(b, ops[0].at) == b
            && Fill(cfg, b, ops[0].at) + (if ops[0].Return? then ops[0].give as real else 0.0) <= cfg.capacity
            && NeverFull(cfg, store, Step(cfg, store, b, ops[0]), ops[1..])))
  }

  lemma StepAccount(cfg: Config, store: Store, b: Bucket, t: real, op: Op)
    requires cfg.Valid() && InRange(cfg, b, t) && t <= op.at && b.Bucket? && Live(b, op.at) == b && !op.Drain?
    requires Fill(cfg, b, op.at) + (if op.Return? then op.give as real else 0.0) <= cfg.capacity
    ensures var d := Step(cfg, store, b, op);
            d.Bucket? && Delta(cfg, store, b, op) as real + Fill(cfg, d, op.at) == Fill(cfg, b, t) + Earned(cfg, op.at - t)
  {
    assert op.at - b.ts == (t - b.ts) + (op.at - t);
    EarnedSplits(cfg, t - b.ts, op.at - t);
    EarnedPositive(cfg, op.at - b.ts);
    assert Earned(cfg, 0.0) == 0.0;
  }

  /** In every such run the books balance exactly: granted less returned, and what is left, is what was there
      and what was refilled since. No token is lost and none is made. */
  lemma {:induction false} ExactAccount(cfg: Config, store: Store, b: Bucket, t: real, ops: seq<Op>)
    requires cfg.Valid() && InRange(cfg, b, t) && Ordered(t, ops) && NeverFull(cfg, store, b, ops)
    ensures var last, e := LastTime(t, ops), End(cfg, store, b, ops);
            && e.Bucket?
            && Net(cfg, store, b, ops) as real + Fill(cfg, e, last) == Fill(cfg, b, t) + Earned(cfg, last - t)
    decreases |ops|
  {
    assert Earned(cfg, 0.0) == 0.0;
    if ops != [] {
      var op, d := ops[0], Step(cfg, store, b, ops[0]);
      StepAccount(cfg, store, b, t, op);
      StepInRange(cfg, store, b, t, op);
      ExactAccount(cfg, store, d, op.at, ops[1..]);
      var last := LastTime(t, ops);
      assert last - t == (op.at - t) + (last - op.at);
      EarnedSplits(cfg, op.at - t, last - op.at);
    }
  }

  lemma StepInRange(cfg: Config, store: Store, b: Bucket, t: real, op: Op)
    requires cfg.Valid() && InRange(cfg, b, t) && t <= op.at
    ensures InRange(cfg, Step(cfg, store, b, op), op.at)
  {
    if op.Take? { TakeIsExact(cfg, store, Live(b, op.at), op.at, op.want); }
  }

  // ---------------------------------------------------------------- the bound

  /** What the bucket could grant at `t`. */
  function Available(cfg: Config, b: Bucket, t: real): real {
    if b.Absent? then cfg.capacity else RealMin(cfg.capacity, b.tokens + Earned(cfg, t - b.ts))
  }

  /** What a coming expiry makes of the bucket, reckoned back to `t`. */
  function Owed(cfg: Config, b: Bucket, t: real): real {
    if b.Bucket? && b.expiry.At? then cfg.capacity - Earned(cfg, b.expiry.time - t) else 0.0
  }

  function Potential(cfg: Config, b: Bucket, t: real): real {
    RealMax(Available(cfg, b, t), Owed(cfg, b, t))
  }

  /** An expired bucket is not worth more than the refill it replaces. */
  predicate SlowExpiry(cfg: Config, store: Store) {
    store.Postgres? || Earned(cfg, IDLE) >= cfg.capacity
  }

  lemma EarnedSplits(cfg: Config, a: real, b: real)
    ensures Earned(cfg, a + b) == Earned(cfg, a) + Earned(cfg, b)
  {
  }

  lemma EarnedPositive(cfg: Config, a: real)
    requires cfg.Valid() && a >= 0.0
    ensures Earned(cfg, a) >= 0.0
  {
  }

  lemma AvailableInRange(cfg: Config, store: Store, b: Bucket, t: real)
    requires cfg.Valid() && Sound(cfg, store, b, t)
    ensures 0.0 <= Available(cfg, b, t) <= cfg.capacity
  {
    if b.Bucket? { EarnedPositive(cfg, t - b.ts); }
  }

  lemma OwedInRange(cfg: Config, store: Store, b: Bucket, t: real)
    requires cfg.Valid() && Sound(cfg, store, b, t)
    ensures Owed(cfg, b, t) <= cfg.capacity
  {
    if b.Bucket? && b.expiry.At? { EarnedPositive(cfg, b.expiry.time - t); }
  }

  lemma AvailableOverTime(cfg: Config, b: Bucket, t: real, at: real)
    requires cfg.Valid() && t <= at
    ensures Available(cfg, b, at) <= Available(cfg, b, t) + Earned(cfg, at - t)
  {
    EarnedPositive(cfg, at - t);
    if b.Bucket? {
      EarnedSplits(cfg, t - b.ts, at - t);
      assert at - b.ts == (t - b.ts) + (at - t);
    }
  }

  lemma OwedOverTime(cfg: Config, b: Bucket, t: real, at: real)
    requires cfg.Valid() && t <= at
    ensures Owed(cfg, b, at) <= Owed(cfg, b, t) + Earned(cfg, at - t)
  {
    EarnedPositive(cfg, at - t);
    if b.Bucket? && b.expiry.At? {
      EarnedSplits(cfg, at - t, b.expiry.time - at);
      assert b.expiry.time - t == (at - t) + (b.expiry.time - at);
    }
  }

  /** An expiry gives a full bucket, which is what was owed. */
  lemma ExpiryIsOwed(cfg: Config, b: Bucket, at: real)
    requires cfg.Valid() && b.Bucket? && b.expiry.At? && b.expiry.time <= at
    ensures cfg.capacity <= Owed(cfg, b, at)
  {
    EarnedPositive(cfg, at - b.expiry.time);
    EarnedSplits(cfg, at - b.expiry.time, b.expiry.time - at);
  }

  /** Waiting adds at most the refill of the time waited. */
  lemma PotentialOverTime(cfg: Config, b: Bucket, t: real, at: real)
    requires cfg.Valid() && t <= at
    ensures Potential(cfg, Live(b, at), at) <= Potential(cfg, b, t) + Earned(cfg, at - t)
  {
    AvailableOverTime(cfg, b, t, at);
    OwedOverTime(cfg, b, t, at);
    if Live(b, at) != b {
      ExpiryIsOwed(cfg, b, at);
    }
  }

  lemma RefilledIsAvailable(cfg: Config, store: Store, b: Bucket, t: real)
    requires Sound(cfg, store, b, t)
    ensures Refilled(cfg, store, b, t) == Available(cfg, b, t)
  {
  }

  lemma AvailableNow(cfg: Config, b: Bucket, t: real)
    requires b.Bucket? && b.ts == t && b.tokens <= cfg.capacity
    ensures Available(cfg, b, t) == b.tokens
  {
  }

  lemma OwedAfterTake(cfg: Config, store: Store, b: Bucket, t: real, want: nat)
    requires cfg.Valid() && SlowExpiry(cfg, store)
    ensures Owed(cfg, AfterTake(cfg, store, b, t, want), t) <= 0.0
  {
    assert t + IDLE - t == IDLE;
  }

  /** A take pays for what it grants. */
  lemma PotentialOfTake(cfg: Config, store: Store, b: Bucket, t: real, want: nat)
    requires cfg.Valid() && Sound(cfg, store, b, t) && SlowExpiry(cfg, store)
    ensures Granted(cfg, store, b, t, want) as real + Potential(cfg, AfterTake(cfg, store, b, t, want), t)
         <= Potential(cfg, b, t)
  {
    TakeIsExact(cfg, store, b, t, want);
    RefilledIsAvailable(cfg, store, b, t);
    AvailableNow(cfg, AfterTake(cfg, store, b, t, want), t);
    OwedAfterTake(cfg, store, b, t, want);
  }

  lemma PotentialOfReturn(cfg: Config, store: Store, b: Bucket, t: real, give: nat)
    requires cfg.Valid() && Sound(cfg, store, b, t)
    ensures Potential(cfg, AfterReturn(cfg, b, give), t) <= Potential(cfg, b, t) + give as real
  {
  }

  lemma PotentialOfDrain(cfg: Config, store: Store, b: Bucket, t: real)
    requires cfg.Valid() && Sound(cfg, store, b, t)
    ensures Potential(cfg, AfterDrain(b, t), t) <= Potential(cfg, b, t)
  {
    AvailableNow(cfg, AfterDrain(b, t), t);
    AvailableInRange(cfg, store, b, t);
  }

  lemma PotentialOfStep(cfg: Config, store: Store, b: Bucket, t: real, op: Op)
    requires cfg.Valid() && Sound(cfg, store, b, t) && t <= op.at && SlowExpiry(cfg, store)
    ensures Delta(cfg, store, b, op) as real + Potential(cfg, Step(cfg, store, b, op), op.at)
         <= Potential(cfg, b, t) + Earned(cfg, op.at - t)
  {
    PotentialOverTime(cfg, b, t, op.at);
    LiveSound(cfg, store, b, t, op.at);
    match op
    case Take(at, want) => PotentialOfTake(cfg, store, Live(b, at), at, want);
    case Return(at, give) => PotentialOfReturn(cfg, store, Live(b, at), at, give);
    case Drain(at) => PotentialOfDrain(cfg, store, Live(b, at), at);
  }

  /** Granted less returned, plus what is still available, never exceeds what was available at the
      start plus the refill since. */
  lemma {:induction false} PotentialOfRun(cfg: Config, store: Store, b: Bucket, t: real, ops: seq<Op>)
    requires cfg.Valid() && Sound(cfg, store, b, t) && Ordered(t, ops) && SlowExpiry(cfg, store)
    ensures Net(cfg, store, b, ops) as real + Potential(cfg, End(cfg, store, b, ops), LastTime(t, ops))
         <= Potential(cfg, b, t) + Earned(cfg, LastTime(t, ops) - t)
    decreases |ops|
  {
    if ops == [] {
      assert Earned(cfg, t - t) == 0.0;
    } else {
      var b', t' := Step(cfg, store, b, ops[0]), ops[0].at;
      PotentialOfStep(cfg, store, b, t, ops[0]);
      StepSound(cfg, store, b, t, ops[0]);
      PotentialOfRun(cfg, store, b', t', ops[1..]);
      EarnedSplits(cfg, t' - t, LastTime(t, ops) - t');
    }
  }

  /** The bound for one run, from any moment. */
  predicate Within(cfg: Config, store: Store, b: Bucket, t: real, ops: seq<Op>) {
    Net(cfg, store, b, ops) as real <= cfg.capacity + Earned(cfg, LastTime(t, ops) - t)
  }

  lemma BoundOfRun(cfg: Config, store: Store, b: Bucket, t: real, ops: seq<Op>)
    requires cfg.Valid() && Sound(cfg, store, b, t) && Ordered(t, ops) && SlowExpiry(cfg, store)
    ensures Within(cfg, store, b, t, ops)
  {
    PotentialOfRun(cfg, store, b, t, ops);
    AvailableInRange(cfg, store, b, t);
    OwedInRange(cfg, store, b, t);
    LevelStaysInRange(cfg, store, b, t, ops);
    AvailableInRange(cfg, store, End(cfg, store, b, ops), LastTime(t, ops));
  }

  /** A bucket that cannot hold a whole token grants nothing. */
  lemma {:induction false} TinyBucketGrantsNothing(cfg: Config, store: Store, b: Bucket, t: real, ops: seq<Op>)
    requires cfg.Valid() && Sound(cfg, store, b, t) && Ordered(t, ops) && cfg.capacity < 1.0
    ensures Net(cfg, store, b, ops) <= 0 && LastTime(t, ops) >= t
    decreases |ops|
  {
    if ops != [] {
      StepSound(cfg, store, b, t, ops[0]);
      if ops[0].Take? {
        LiveSound(cfg, store, b, t, ops[0].at);
        TakeIsExact(cfg, store, Live(b, ops[0].at), ops[0].at, ops[0].want);
      }
      TinyBucketGrantsNothing(cfg, store, Step(cfg, store, b, ops[0]), ops[0].at, ops[1..]);
    }
  }

  /** The promise of a class: over every run, from every moment, at most capacity plus refill. */
  ghost predicate Kept(cfg: Config, store: Store) {
    forall b, t, ops :: Sound(cfg, store, b, t) && Ordered(t, ops) ==> Within(cfg, store, b, t, ops)
  }

  /** The promise holds exactly where the one-hour expiry cannot outrun the refill (or no whole
      token ever fits). */
  lemma KeptIff(cfg: Config, store: Store)
    requires cfg.Valid()
    ensures Kept(cfg, store) <==> SlowExpiry(cfg, store) || cfg.capacity < 1.0
  {
    if SlowExpiry(cfg, store) {
      forall b, t, ops | Sound(cfg, store, b, t) && Ordered(t, ops)
        ensures Within(cfg, store, b, t, ops)
      {
        BoundOfRun(cfg, store, b, t, ops);
      }
    } else if cfg.capacity < 1.0 {
      forall b, t, ops | Sound(cfg, store, b, t) && Ordered(t, ops)
        ensures Within(cfg, store, b, t, ops)
      {
        TinyBucketGrantsNothing(cfg, store, b, t, ops);
        EarnedPositive(cfg, LastTime(t, ops) - t);
      }
    } else {
      var ops := Overrun(cfg);
      OverrunBreaks(cfg);
      assert Sound(cfg, store, Absent, 0.0);
    }
  }

  // ---------------------------------------------------------------- an expiry that gives too much

  /** How long until the fraction left by taking every whole token is a whole token again. */
  function Gap(cfg: Config): real
    requires cfg.refill > 0.0
  {
    (1.0 - (cfg.capacity - cfg.capacity.Floor as real)) / cfg.refill
  }

  /** Take all that is there, sleep past the expiry, and start again from a full bucket. */
  function Overrun(cfg: Config): seq<Op>
    requires cfg.Valid() && cfg.capacity >= 1.0
  {
    var whole := cfg.capacity.Floor;
    if Earned(cfg, IDLE) <= 1.0 - (cfg.capacity - whole as real) then
      [Take(0.0, whole), Take(IDLE, whole), Take(IDLE + IDLE, whole)]
    else
      assert cfg.refill > 0.0;
      var g := Gap(cfg);
      [Take(0.0, whole), Take(g, 1), Take(g + IDLE, whole), Take(g + IDLE + g, 1)]
  }

  /** Taking from a key that is absent, or has expired. */
  lemma TakeWhole(cfg: Config, b: Bucket, at: real)
    requires cfg.Valid() && cfg.capacity >= 1.0 && Live(b, at).Absent?
    ensures Delta(cfg, Redis, b, Take(at, cfg.capacity.Floor)) == cfg.capacity.Floor
    ensures Step(cfg, Redis, b, Take(at, cfg.capacity.Floor))
         == Bucket(cfg.capacity - cfg.capacity.Floor as real, at, At(at + IDLE))
  {
    assert cfg.capacity.Floor as real <= cfg.capacity;
  }

  lemma GapRefillsOne(cfg: Config)
    requires cfg.Valid() && cfg.capacity >= 1.0 && Earned(cfg, IDLE) > 1.0 - (cfg.capacity - cfg.capacity.Floor as real)
    ensures cfg.refill > 0.0 && 0.0 <= Gap(cfg) < IDLE
    ensures Earned(cfg, Gap(cfg)) == 1.0 - (cfg.capacity - cfg.capacity.Floor as real)
  {
    Quotient(1.0 - (cfg.capacity - cfg.capacity.Floor as real), cfg.refill, IDLE);
  }

  lemma Quotient(f: real, r: real, bound: real)
    requires f > 0.0 && r >= 0.0 && bound >= 0.0 && bound * r > f
    ensures r > 0.0 && 0.0 <= f / r < bound && (f / r) * r == f
  {
  }

  /** Taking the one token that the gap refilled. */
  lemma TakeOne(cfg: Config, at: real)
    requires cfg.Valid() && cfg.capacity >= 1.0 && Earned(cfg, IDLE) > 1.0 - (cfg.capacity - cfg.capacity.Floor as real)
    requires cfg.refill > 0.0
    ensures var b := Bucket(cfg.capacity - cfg.capacity.Floor as real, at, At(at + IDLE));
            && Delta(cfg, Redis, b, Take(at + Gap(cfg), 1)) == 1
            && Step(cfg, Redis, b, Take(at + Gap(cfg), 1)) == Bucket(0.0, at + Gap(cfg), At(at + Gap(cfg) + IDLE))
  {
    GapRefillsOne(cfg);
    var b := Bucket(cfg.capacity - cfg.capacity.Floor as real, at, At(at + IDLE));
    var now := at + Gap(cfg);
    assert now - at == Gap(cfg);
    assert Live(b, now) == b;
    assert Refilled(cfg, Redis, b, now) == 1.0;
  }

  lemma NetCons(cfg: Config, store: Store, b: Bucket, op: Op, rest: seq<Op>)
    ensures Net(cfg, store, b, [op] + rest)
         == Delta(cfg, store, b, op) + Net(cfg, store, Step(cfg, store, b, op), rest)
    ensures forall t :: Ordered(t, [op] + rest) <==> t <= op.at && Ordered(op.at, rest)
    ensures forall t :: LastTime(t, [op] + rest) == LastTime(op.at, rest)
  {
    assert ([op] + rest)[1..] == rest;
  }

  lemma OverrunBreaks(cfg: Config)
    requires cfg.Valid() && cfg.capacity >= 1.0 && !SlowExpiry(cfg, Redis)
    ensures Ordered(0.0, Overrun(cfg)) && !Within(cfg, Redis, Absent, 0.0, Overrun(cfg))
  {
    var whole := cfg.capacity.Floor;
    if Earned(cfg, IDLE) <= 1.0 - (cfg.capacity - whole as real) {
      OverrunByHours(cfg);
    } else {
      OverrunByGaps(cfg);
    }
  }

  lemma OverrunByHours(cfg: Config)
    requires cfg.Valid() && cfg.capacity >= 1.0 && !SlowExpiry(cfg, Redis)
    requires Earned(cfg, IDLE) <= 1.0 - (cfg.capacity - cfg.capacity.Floor as real)
    ensures Ordered(0.0, Overrun(cfg)) && !Within(cfg, Redis, Absent, 0.0, Overrun(cfg))
  {
    var n := cfg.capacity.Floor;
    var left := cfg.capacity - n as real;
    var b1, b2 := Bucket(left, 0.0, At(IDLE)), Bucket(left, IDLE, At(IDLE + IDLE));
    TakeWhole(cfg, Absent, 0.0);
    TakeWhole(cfg, b1, IDLE);
    TakeWhole(cfg, b2, IDLE + IDLE);
    var r3 := [Take(IDLE + IDLE, n)];
    var r2 := [Take(IDLE, n)] + r3;
    assert Overrun(cfg) == [Take(0.0, n)] + r2;
    assert r3 == [Take(IDLE + IDLE, n)] + [];
    NetCons(cfg, Redis, b2, Take(IDLE + IDLE, n), []);
    NetCons(cfg, Redis, b1, Take(IDLE, n), r3);
    NetCons(cfg, Redis, Absent, Take(0.0, n), r2);
    assert Net(cfg, Redis, Absent, Overrun(cfg)) == n + n + n;
    assert LastTime(0.0, Overrun(cfg)) == IDLE + IDLE;
    HoursOverrun(cfg, n, left);
  }

  lemma HoursOverrun(cfg: Config, n: int, left: real)
    requires n >= 1 && 0.0 <= left < 1.0 && cfg.capacity == n as real + left
    requires Earned(cfg, IDLE) < cfg.capacity && Earned(cfg, IDLE) <= 1.0 - left
    ensures (n + n + n) as real > cfg.capacity + Earned(cfg, IDLE + IDLE)
  {
    var q := Earned(cfg, IDLE);
    EarnedSplits(cfg, IDLE, IDLE);
    assert (n + n + n) as real == n as real + n as real + n as real;
    if n == 1 {
    } else {
      assert n as real >= 2.0;
    }
  }

  lemma OverrunByGaps(cfg: Config)
    requires cfg.Valid() && cfg.capacity >= 1.0 && !SlowExpiry(cfg, Redis)
    requires Earned(cfg, IDLE) > 1.0 - (cfg.capacity - cfg.capacity.Floor as real)
    ensures Ordered(0.0, Overrun(cfg)) && !Within(cfg, Redis, Absent, 0.0, Overrun(cfg))
  {
    GapRefillsOne(cfg);
    var n, g := cfg.capacity.Floor, Gap(cfg);
    var left := cfg.capacity - n as real;
    var s := g + IDLE;
    var b1, b2, b3 := Bucket(left, 0.0, At(IDLE)), Bucket(0.0, g, At(s)), Bucket(left, s, At(s + IDLE));
    TakeWhole(cfg, Absent, 0.0);
    TakeOne(cfg, 0.0);
    TakeWhole(cfg, b2, s);
    TakeOne(cfg, s);
    var r4 := [Take(s + g, 1)];
    var r3 := [Take(s, n)] + r4;
    var r2 := [Take(g, 1)] + r3;
    assert Overrun(cfg) == [Take(0.0, n)] + r2;
    assert r4 == [Take(s + g, 1)] + [];
    NetCons(cfg, Redis, b3, Take(s + g, 1), []);
    NetCons(cfg, Redis, b2, Take(s, n), r4);
    NetCons(cfg, Redis, b1, Take(g, 1), r3);
    NetCons(cfg, Redis, Absent, Take(0.0, n), r2);
    assert Net(cfg, Redis, Absent, Overrun(cfg)) == n + (1 + (n + 1));
    assert LastTime(0.0, Overrun(cfg)) == s + g;
    EarnedSplits(cfg, g, IDLE);
    EarnedSplits(cfg, s, g);
  }

  // ---------------------------------------------------------------- clocks and stores

  /** The SQL and the script find the same level exactly when the clock did not run backwards (or
      nothing refills). */
  lemma StoresAgreeIff(cfg: Config, b: Bucket, now: real)
    requires cfg.Valid() && b.Bucket? && 0.0 <= b.tokens <= cfg.capacity
    ensures Refilled(cfg, Redis, b, now) == Refilled(cfg, Postgres, b, now) <==> now >= b.ts || cfg.refill == 0.0
  {
    EarnedPositive(cfg, 0.0);
    EarnedSplits(cfg, now - b.ts, b.ts - now);
    if cfg.refill > 0.0 && now < b.ts {
      EarnedStrictly(cfg, b.ts - now);
    }
  }

  lemma EarnedStrictly(cfg: Config, a: real)
    requires cfg.refill > 0.0 && a > 0.0
    ensures Earned(cfg, a) > 0.0
  {
  }

  /** One take as a caller with its own clock makes it. */
  datatype Reading = Reading(now: real, want: nat)

  /** Takes by callers whose clocks need not agree, on a key that does not expire meanwhile. */
  function GrantedOnClock(cfg: Config, b: Bucket, takes: seq<Reading>): int
    requires b.Bucket?
    decreases |takes|
  {
    if takes == [] then 0
    else
      Granted(cfg, Redis, b, takes[0].now, takes[0].want)
      + GrantedOnClock(cfg, AfterTake(cfg, Redis, b, takes[0].now, takes[0].want), takes[1..])
  }

  /** How far the clock moved forward, all forward moves together. */
  function Climb(ts: real, takes: seq<Reading>): real
    decreases |takes|
  {
    if takes == [] then 0.0 else RealMax(0.0, takes[0].now - ts) + Climb(takes[0].now, takes[1..])
  }

  predicate Forward(ts: real, takes: seq<Reading>)
    decreases |takes|
  {
    takes == [] || (ts <= takes[0].now && Forward(takes[0].now, takes[1..]))
  }

  function LastReading(ts: real, takes: seq<Reading>): real {
    if takes == [] then ts else takes[|takes| - 1].now
  }

  /** That is the time elapsed exactly when no reading is earlier than the one before it, and more otherwise. */
  lemma {:induction false} ClimbIsElapsedIff(ts: real, takes: seq<Reading>)
    ensures Climb(ts, takes) >= LastReading(ts, takes) - ts
    ensures Climb(ts, takes) == LastReading(ts, takes) - ts <==> Forward(ts, takes)
    decreases |takes|
  {
    if takes != [] {
      ClimbIsElapsedIff(takes[0].now, takes[1..]);
      assert LastReading(ts, takes) == LastReading(takes[0].now, takes[1..]);
    }
  }

  /** With arbitrary clocks the refill is paid for every forward move of the stored time, so for the
      distance between first and last stamp only if the clock never moves back. */
  lemma {:induction false} GrantsFollowTheClock(cfg: Config, b: Bucket, takes: seq<Reading>)
    requires cfg.Valid() && b.Bucket? && 0.0 <= b.tokens <= cfg.capacity
    ensures GrantedOnClock(cfg, b, takes) as real <= b.tokens + Earned(cfg, Climb(b.ts, takes))
    decreases |takes|
  {
    if takes != [] {
      var x := takes[0];
      var up := RealMax(0.0, x.now - b.ts);
      EarnedPositive(cfg, up);
      EarnedSplits(cfg, up, Climb(x.now, takes[1..]));
      GrantsFollowTheClock(cfg, AfterTake(cfg, Redis, b, x.now, x.want), takes[1..]);
    }
  }

  /** Two engines one second apart: every other take stores the earlier time, and the second between
      them is refilled again and again. */
  lemma BackwardClockOverGrants()
    ensures var cfg, b := Config(1.0, 1.0), Bucket(0.0, 0.0, Never);
            var takes := [Reading(1.0, 1), Reading(0.0, 1), Reading(1.0, 1), Reading(0.0, 1), Reading(1.0, 1)];
            GrantedOnClock(cfg, b, takes) as real > cfg.capacity + Earned(cfg, takes[4].now - b.ts)
  {
    var cfg := Config(1.0, 1.0);
    var low, high := Bucket(0.0, 0.0, At(IDLE)), Bucket(0.0, 1.0, At(1.0 + IDLE));
    var up, down := Reading(1.0, 1), Reading(0.0, 1);
    var start := Bucket(0.0, 0.0, Never);
    assert AfterTake(cfg, Redis, high, 0.0, 1) == low && AfterTake(cfg, Redis, low, 1.0, 1) == high;
    assert AfterTake(cfg, Redis, start, 1.0, 1) == high;
    var t1 := [up];
    var t2 := [down] + t1;
    var t3 := [up] + t2;
    var t4 := [down] + t3;
    var t5 := [up] + t4;
    assert t1[1..] == [] && t2[1..] == t1 && t3[1..] == t2 && t4[1..] == t3 && t5[1..] == t4;
    assert GrantedOnClock(cfg, low, t1) == 1;
    assert GrantedOnClock(cfg, high, t2) == 1;
    assert GrantedOnClock(cfg, low, t3) == 2;
    assert GrantedOnClock(cfg, high, t4) == 2;
    assert GrantedOnClock(cfg, start, t5) == 3;
    assert t5 == [up, down, up, down, up];
  }
}
