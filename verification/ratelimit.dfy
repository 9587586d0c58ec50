/**
 * src/symba/services/rate_limiter.py: the limiter in front of the buckets. Redis is tried first;
 * on any Redis error the same call is made on the Postgres row.
 */
module RateLimiting {
  import opened Numbers
  import opened TokenBuckets

  /** What became of a Redis call: answered, failed without effect, or took effect with the answer
      lost. */
  datatype Reply = Answered | Refused | Lost

  /** The two buckets of one class. */
  datatype Pair = Pair(redis: Bucket, pg: Bucket)

  datatype Call =
    | Reserve(at: real, want: nat, reply: Reply)
    | Release(at: real, give: nat, reply: Reply)
    | Empty(at: real, reply: Reply)

  /** The operation a call is on whichever bucket it reaches. */
  function OpOf(call: Call): Op {
    match call
    case Reserve(at, want, _) => Take(at, want)
    case Release(at, give, _) => Return(at, give)
    case Empty(at, _) => Drain(at)
  }

  predicate OnRedis(call: Call) { !call.reply.Refused? }

  predicate OnPostgres(call: Call) { !call.reply.Answered? }

  function After(cfg: Config, p: Pair, call: Call): Pair {
    Pair(if OnRedis(call) then Step(cfg, Redis, p.redis, OpOf(call)) else p.redis,
         if OnPostgres(call) then Step(cfg, Postgres, p.pg, OpOf(call)) else p.pg)
  }

  /** Tokens the caller got, less tokens the caller gave back. */
  function Change(cfg: Config, p: Pair, call: Call): int {
    if OnPostgres(call) then Delta(cfg, Postgres, p.pg, OpOf(call)) else Delta(cfg, Redis, p.redis, OpOf(call))
  }

  function Last(cfg: Config, p: Pair, calls: seq<Call>): Pair
    decreases |calls|
  {
    if calls == [] then p else Last(cfg, After(cfg, p, calls[0]), calls[1..])
  }

  /** Granted less returned over a run of calls, as the callers see it. */
  function Balance(cfg: Config, p: Pair, calls: seq<Call>): int
    decreases |calls|
  {
    if calls == [] then 0
    else Change(cfg, p, calls[0]) + Balance(cfg, After(cfg, p, calls[0]), calls[1..])
  }

  /** Tokens credited to both buckets because a return's answer was lost. */
  function Doubled(calls: seq<Call>): nat {
    if calls == [] then 0
    else (if calls[0].Release? && calls[0].reply.Lost? then calls[0].give else 0) + Doubled(calls[1..])
  }

  predicate InOrder(t: real, calls: seq<Call>)
    decreases |calls|
  {
    calls == [] || (t <= calls[0].at && InOrder(calls[0].at, calls[1..]))
  }

  function Clock(t: real, calls: seq<Call>): real
    decreases |calls|
  {
    if calls == [] then t else Clock(calls[0].at, calls[1..])
  }

  /** The part of a run that reaches one of the buckets. */
  function Reaching(store: Store, calls: seq<Call>): seq<Op> {
    if calls == [] then []
    else
      (if (if store.Redis? then OnRedis(calls[0]) else OnPostgres(calls[0])) then [OpOf(calls[0])] else [])
      + Reaching(store, calls[1..])
  }

  predicate SoundPair(cfg: Config, p: Pair, t: real) {
    Sound(cfg, Redis, p.redis, t) && Sound(cfg, Postgres, p.pg, t) && p.pg.Bucket?
  }

  lemma {:induction false} ReachingOrdered(store: Store, t: real, calls: seq<Call>)
    requires InOrder(t, calls)
    ensures Ordered(t, Reaching(store, calls)) && LastTime(t, Reaching(store, calls)) <= Clock(t, calls)
    ensures forall s :: s <= t ==> Ordered(s, Reaching(store, calls)) && LastTime(s, Reaching(store, calls)) <= Clock(t, calls)
    decreases |calls|
  {
    if calls != [] {
      var rest := Reaching(store, calls[1..]);
      ReachingOrdered(store, calls[0].at, calls[1..]);
      NetCons(Config(0.0, 0.0), store, Absent, OpOf(calls[0]), rest);
      assert [] + rest == rest;
    }
  }

  /** A grant is never negative while the clock moves forward. */
  lemma TakeNotNegative(cfg: Config, p: Pair, t: real, call: Call)
    requires cfg.Valid() && InRange(cfg, p.redis, t) && t <= call.at && call.Reserve?
    ensures Delta(cfg, Redis, p.redis, OpOf(call)) >= 0
  {
  }

  lemma Pieces(cfg: Config, store: Store, b: Bucket, calls: seq<Call>)
    requires calls != []
    ensures var on := if store.Redis? then OnRedis(calls[0]) else OnPostgres(calls[0]);
            Net(cfg, store, b, Reaching(store, calls))
            == (if on then Delta(cfg, store, b, OpOf(calls[0])) else 0)
               + Net(cfg, store, if on then Step(cfg, store, b, OpOf(calls[0])) else b, Reaching(store, calls[1..]))
  {
    var rest := Reaching(store, calls[1..]);
    NetCons(cfg, store, b, OpOf(calls[0]), rest);
    assert [] + rest == rest;
  }

  /** What callers see is at most what the two buckets gave, plus what was credited twice. */
  lemma {:induction false} BalanceOfBuckets(cfg: Config, p: Pair, t: real, calls: seq<Call>)
    requires cfg.Valid() && InRange(cfg, p.redis, t) && InOrder(t, calls)
    ensures Balance(cfg, p, calls)
         <= Net(cfg, Redis, p.redis, Reaching(Redis, calls)) + Net(cfg, Postgres, p.pg, Reaching(Postgres, calls))
            + Doubled(calls)
    decreases |calls|
  {
    if calls != [] {
      var call := calls[0];
      Pieces(cfg, Redis, p.redis, calls);
      Pieces(cfg, Postgres, p.pg, calls);
      if call.Reserve? { TakeNotNegative(cfg, p, t, call); }
      StepInRange(cfg, Redis, p.redis, t, OpOf(call));
      BalanceOfBuckets(cfg, After(cfg, p, call), call.at, calls[1..]);
    }
  }

  lemma EarnedGrows(cfg: Config, a: real, b: real)
    requires cfg.Valid() && a <= b
    ensures Earned(cfg, a) <= Earned(cfg, b)
  {
  }

  lemma BoundReaching(cfg: Config, store: Store, b: Bucket, t: real, calls: seq<Call>)
    requires cfg.Valid() && Sound(cfg, store, b, t) && InOrder(t, calls) && (SlowExpiry(cfg, store) || cfg.capacity < 1.0)
    ensures Net(cfg, store, b, Reaching(store, calls)) as real <= cfg.capacity + Earned(cfg, Clock(t, calls) - t)
  {
    var ops := Reaching(store, calls);
    ReachingOrdered(store, t, calls);
    KeptIff(cfg, store);
    assert Within(cfg, store, b, t, ops);
    EarnedGrows(cfg, LastTime(t, ops) - t, Clock(t, calls) - t);
  }

  /** Whatever mix of Redis answers, failures and lost answers: both buckets together give at most
      twice the class's bound, beyond what lost returns credited twice. */
  lemma FailoverBound(cfg: Config, p: Pair, t: real, calls: seq<Call>)
    requires cfg.Valid() && SoundPair(cfg, p, t) && InOrder(t, calls)
    requires SlowExpiry(cfg, Redis) || cfg.capacity < 1.0
    ensures Balance(cfg, p, calls) as real
         <= 2.0 * (cfg.capacity + Earned(cfg, Clock(t, calls) - t)) + Doubled(calls) as real
  {
    BalanceOfBuckets(cfg, p, t, calls);
    BoundReaching(cfg, Redis, p.redis, t, calls);
    BoundReaching(cfg, Postgres, p.pg, t, calls);
  }

  predicate NoFailure(calls: seq<Call>) {
    forall i :: 0 <= i < |calls| ==> calls[i].reply.Answered?
  }

  lemma {:induction false} BalanceOfRedis(cfg: Config, p: Pair, calls: seq<Call>)
    requires NoFailure(calls)
    ensures Balance(cfg, p, calls) == Net(cfg, Redis, p.redis, Reaching(Redis, calls))
    decreases |calls|
  {
    if calls != [] {
      Pieces(cfg, Redis, p.redis, calls);
      BalanceOfRedis(cfg, After(cfg, p, calls[0]), calls[1..]);
    }
  }

  /** While Redis answers, one bucket's bound. */
  lemma HealthyBound(cfg: Config, p: Pair, t: real, calls: seq<Call>)
    requires cfg.Valid() && SoundPair(cfg, p, t) && InOrder(t, calls) && NoFailure(calls)
    requires SlowExpiry(cfg, Redis) || cfg.capacity < 1.0
    ensures Balance(cfg, p, calls) as real <= cfg.capacity + Earned(cfg, Clock(t, calls) - t)
  {
    BalanceOfRedis(cfg, p, calls);
    BoundReaching(cfg, Redis, p.redis, t, calls);
  }

  /** One failover is enough to pass the single bound, so the factor two is needed. */
  lemma FailoverPassesSingleBound()
    ensures var cfg := Config(1.0, 0.001);
            var p := Pair(Absent, Bucket(1.0, 0.0, Never));
            var calls := [Reserve(0.0, 1, Answered), Reserve(0.0, 1, Refused)];
            && SlowExpiry(cfg, Redis) && SoundPair(cfg, p, 0.0) && InOrder(0.0, calls)
            && Balance(cfg, p, calls) as real == 2.0 * (cfg.capacity + Earned(cfg, Clock(0.0, calls) - 0.0))
  {
  }

  // ---------------------------------------------------------------- reserve and hand back

  /** A reserve that ends up used for `used` of its tokens, with the rest handed back before the key expires:
      the bucket that answered stands at its level less those. */
  lemma HandedBack(cfg: Config, p: Pair, t: real, want: nat, used: nat, at: real)
    requires cfg.Valid() && InRange(cfg, p.redis, t) && t <= at < t + IDLE
    requires used <= Change(cfg, p, Reserve(t, want, Answered))
    ensures var granted, q := Change(cfg, p, Reserve(t, want, Answered)), After(cfg, p, Reserve(t, want, Answered));
            var r := After(cfg, q, Release(at, granted - used, Answered));
            && r.redis.Bucket? && r.redis.ts == t && r.pg == p.pg
            && r.redis.tokens == Refilled(cfg, Redis, Live(p.redis, t), t) - used as real
  {
    ReturnUndoesTake(cfg, Redis, Live(p.redis, t), t, want, used);
  }

  /** The same on Postgres, when Redis refuses both calls. */
  lemma HandedBackToPostgres(cfg: Config, p: Pair, t: real, want: nat, used: nat, at: real)
    requires cfg.Valid() && InRange(cfg, p.pg, t)
    requires used <= Change(cfg, p, Reserve(t, want, Refused))
    ensures var granted, q := Change(cfg, p, Reserve(t, want, Refused)), After(cfg, p, Reserve(t, want, Refused));
            var r := After(cfg, q, Release(at, granted - used, Refused));
            && r.pg.Bucket? && r.pg.ts == t && r.redis == p.redis
            && r.pg.tokens == Refilled(cfg, Postgres, Live(p.pg, t), t) - used as real
  {
    ReturnUndoesTake(cfg, Postgres, Live(p.pg, t), t, want, used);
  }

  /** While Redis answers and the bucket is never drained, expired or full, what callers got less what they
      gave back is exactly what left the bucket, counting the refill. */
  lemma HealthyAccount(cfg: Config, p: Pair, t: real, calls: seq<Call>)
    requires cfg.Valid() && InRange(cfg, p.redis, t) && InOrder(t, calls) && NoFailure(calls)
    requires NeverFull(cfg, Redis, p.redis, Reaching(Redis, calls))
    ensures var ops := Reaching(Redis, calls);
            var last, e := LastTime(t, ops), End(cfg, Redis, p.redis, ops);
            && e.Bucket?
            && Balance(cfg, p, calls) as real + Fill(cfg, e, last) == Fill(cfg, p.redis, t) + Earned(cfg, last - t)
  {
    BalanceOfRedis(cfg, p, calls);
    ReachingOrdered(Redis, t, calls);
    ExactAccount(cfg, Redis, p.redis, t, Reaching(Redis, calls));
  }

  // ---------------------------------------------------------------- the limiter object

  /** A bucket that is there has the tokens back, up to the capacity; one that is not stays away. */
  predicate Returned(cfg: Config, before: Bucket, after: Bucket, tokens: int) {
    if before.Absent? then after.Absent?
    else
      && after.Bucket? && after.ts == before.ts && after.expiry == before.expiry
      && after.tokens == (if before.tokens + tokens as real <= cfg.capacity then before.tokens + tokens as real else cfg.capacity)
  }

  predicate Emptied(after: Bucket, at: real) { after.Bucket? && after.tokens == 0.0 && after.ts == at }

  class RateLimiter {
    const redisEnabled: bool
    var cfg: map<string, Config>
    var buckets: map<string, Pair>
    var degraded: bool

    ghost predicate Valid()
      reads this
    {
      cfg.Keys <= buckets.Keys
    }

    /** With Redis switched off every call goes to Postgres. */
    function Effective(reply: Reply): Reply {
      if redisEnabled then reply else Refused
    }

    /** Redis is on, and the call takes effect there. */
    predicate OnRedisNow(reply: Reply) { redisEnabled && !reply.Refused? }

    constructor (redisEnabled: bool)
      ensures this.redisEnabled == redisEnabled && Valid() && cfg == map[] && !degraded
    {
      this.redisEnabled := redisEnabled;
      cfg, buckets, degraded := map[], map[], false;
    }

    /** Refill and take on Redis; nothing is granted when the answer does not arrive. */
    method RedisTake(rateClass: string, want: nat, at: real, reply: Reply) returns (granted: int, answered: bool)
      requires Valid() && rateClass in cfg
      modifies this
      ensures Valid() && cfg == old(cfg) && answered == reply.Answered? && degraded == !answered
      ensures var p := old(buckets[rateClass]);
              && buckets == old(buckets)[rateClass :=
                   if reply.Refused? then p else p.(redis := Step(cfg[rateClass], Redis, p.redis, Take(at, want)))]
              && (answered ==> granted == Delta(cfg[rateClass], Redis, p.redis, Take(at, want)))
    {
      var c, p := cfg[rateClass], buckets[rateClass];
      answered, granted := reply.Answered?, 0;
      degraded := !answered;
      if !reply.Refused? {
        var live := Live(p.redis, at);
        var level := Refilled(c, Redis, live, at);
        var taken := RealMin(level, want as real).Floor;
        buckets := buckets[rateClass := p.(redis := Bucket(level - taken as real, at, At(at + IDLE)))];
        granted := taken;
      }
    }

    /** `reserve`: up to `want` tokens of a class; a class without configuration is not limited. */
    method Reserve(rateClass: string, want: int, at: real, reply: Reply) returns (granted: int)
      requires Valid()
      modifies this
      ensures Valid() && cfg == old(cfg)
      ensures want <= 0 ==> granted == 0
      ensures want > 0 && rateClass !in cfg ==> granted == want
      ensures want <= 0 || rateClass !in cfg ==> buckets == old(buckets)
      ensures want > 0 && rateClass in cfg ==>
                var call := Call.Reserve(at, want, Effective(reply));
                && granted == Change(cfg[rateClass], old(buckets[rateClass]), call)
                && buckets == old(buckets)[rateClass := After(cfg[rateClass], old(buckets[rateClass]), call)]
    {
      if want <= 0 {
        return 0;
      }
      if rateClass !in cfg {
        return want;
      }
      if redisEnabled {
        var answered;
        granted, answered := RedisTake(rateClass, want, at, reply);
        if answered {
          return;
        }
      }
      var c, p := cfg[rateClass], buckets[rateClass];
      var live := Live(p.pg, at);
      var level := Refilled(c, Postgres, live, at);
      granted := RealMin(level, want as real).Floor;
      buckets := buckets[rateClass := p.(pg := Bucket(level - granted as real, at, Never))];
    }

    /** `release`: hand back unused tokens. */
    method Release(rateClass: string, tokens: int, at: real, reply: Reply)
      requires Valid()
      modifies this`buckets
      ensures Valid()
      ensures tokens <= 0 || rateClass !in cfg ==> buckets == old(buckets)
      ensures tokens > 0 && rateClass in cfg ==>
                var call := Call.Release(at, tokens, Effective(reply));
                buckets == old(buckets)[rateClass := After(cfg[rateClass], old(buckets[rateClass]), call)]
      ensures tokens > 0 && rateClass in cfg ==>
                var p, q := old(buckets[rateClass]), buckets[rateClass];
                && (OnRedisNow(reply) ==> Returned(cfg[rateClass], Live(p.redis, at), q.redis, tokens))
                && (!OnRedisNow(reply) ==> q.redis == p.redis)
                && (Effective(reply).Answered? ==> q.pg == p.pg)
                && (!Effective(reply).Answered? ==> Returned(cfg[rateClass], Live(p.pg, at), q.pg, tokens))
    {
      if tokens <= 0 || rateClass !in cfg {
        return;
      }
      var c, p := cfg[rateClass], buckets[rateClass];
      ReturnAdds(c, Live(p.redis, at), tokens);
      ReturnAdds(c, Live(p.pg, at), tokens);
      if redisEnabled && !reply.Refused? {
        p := p.(redis := AfterReturn(c, Live(p.redis, at), tokens));
        buckets := buckets[rateClass := p];
        if reply.Answered? {
          return;
        }
      }
      buckets := buckets[rateClass := p.(pg := AfterReturn(c, Live(p.pg, at), tokens))];
    }

    /** `drain`: empty the bucket after a rate-limit failure. */
    method DrainBucket(rateClass: string, at: real, reply: Reply)
      requires Valid()
      modifies this`buckets
      ensures Valid()
      ensures rateClass !in cfg ==> buckets == old(buckets)
      ensures rateClass in cfg ==>
                buckets == old(buckets)[rateClass :=
                  After(cfg[rateClass], old(buckets[rateClass]), Empty(at, Effective(reply)))]
      ensures rateClass in cfg ==>
                var p, q := old(buckets[rateClass]), buckets[rateClass];
                && (if OnRedisNow(reply) then Emptied(q.redis, at) else q.redis == p.redis)
                && (if Effective(reply).Answered? then q.pg == p.pg else Emptied(q.pg, at))
    {
      if rateClass !in cfg {
        return;
      }
      var p := buckets[rateClass];
      if redisEnabled && !reply.Refused? {
        p := p.(redis := AfterDrain(Live(p.redis, at), at));
        buckets := buckets[rateClass := p];
        if reply.Answered? {
          return;
        }
      }
      buckets := buckets[rateClass := p.(pg := AfterDrain(Live(p.pg, at), at))];
    }
  }
}
