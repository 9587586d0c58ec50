/**
 * What every run of the engine keeps about single jobs: each job is in exactly one table and moves
 * only along the state machine, a report without the current lease changes nothing, attempts and
 * waits are bounded.
 */
module JobSafety {
  import opened Claims
  import opened Numbers
  import opened Jobs
  import Gates

  /** The number of attempts a job may make between waits. */
  function Limit(job: Job): int { Max(1, Max(job.spec.maxAttempts, job.past.topCap)) }

  predicate AttemptOk(job: Job) {
    match job.state
    case Submitted => job.attempt == 0
    case Queued => job.attempt < Limit(job) + job.past.parks
    case Waiting => job.attempt < Limit(job) + job.past.parks
    case _ => job.attempt <= Limit(job) + job.past.parks
  }

  /** Every wait was ended by one signal or one timeout, but for the one that is on, or was on when the
      job was cancelled. */
  predicate WaitsCounted(job: Job) {
    job.past.parks == job.past.signalled + job.past.timedOut + (if job.waitKey.Some? then 1 else 0)
  }

  predicate JobOk(job: Job, nextToken: nat) {
    && (job.state.Running? <==> job.token.Some?)
    && (job.token.Some? ==> job.token.value < nextToken)
    && (job.state.Waiting? <==> job.waitKey.Some?)
    && WaitsCounted(job)
    && AttemptOk(job)
  }

  predicate LiveRow(db: Db, x: int, job: Job) {
    && 0 <= x < db.nextId && x !in db.archive && IsLive(job.state) && JobOk(job, db.nextToken)
    && job.attempt == db.log.claimed[x]
    && (forall u :: u in job.ups ==> u < x)
  }

  /** An archived job; a cancelled one may have been waiting. */
  predicate ArchivedRow(db: Db, x: int, job: Job) {
    && 0 <= x < db.nextId && !IsLive(job.state) && job.attempt <= Limit(job) + job.past.parks
    && job.attempt == db.log.claimed[x]
    && WaitsCounted(job) && (job.waitKey.Some? ==> job.state.Cancelled?)
  }

  ghost predicate Sane(db: Db) {
    && (forall x :: x in db.live ==> LiveRow(db, x, db.live[x]))
    && (forall x :: x in db.archive ==> ArchivedRow(db, x, db.archive[x]))
    && (forall x :: x >= db.nextId ==> db.log.claimed[x] == 0)
  }

  // ---------------------------------------------------------------- statements keep it

  lemma InsertSane(db: Db, job: Job)
    requires Sane(db) && IsLive(job.state) && JobOk(job, db.nextToken) && job.attempt == 0 && forall u :: u in job.ups ==> u < db.nextId
    ensures Sane(Insert(db, job))
  {
    var d := Insert(db, job);
    forall x | x in d.live
      ensures LiveRow(d, x, d.live[x])
    {
      if x != db.nextId { assert LiveRow(db, x, db.live[x]); }
    }
    forall x | x in d.archive
      ensures ArchivedRow(d, x, d.archive[x])
    {
      assert ArchivedRow(db, x, db.archive[x]);
    }
  }

  lemma FollowSane(db: Db, job: Job, chain: int)
    requires Sane(db) && IsLive(job.state) && JobOk(job, db.nextToken) && job.attempt == 0 && job.ups == {}
    ensures Sane(Follow(db, job, chain))
  {
  }

  lemma PutSane(db: Db, id: int, job: Job)
    requires Sane(db) && id in db.live && IsLive(job.state) && JobOk(job, db.nextToken)
    requires job.ups == db.live[id].ups && job.attempt == db.live[id].attempt
    ensures Sane(Put(db, id, job))
  {
  }

  lemma MoveSane(db: Db, id: int, final: State, skipped: bool, stopped: bool)
    requires Sane(db) && id in db.live && !IsLive(final) && (final.Cancelled? || db.live[id].state.Running?)
    ensures Sane(Move(db, id, final, skipped, stopped))
  {
  }

  lemma DecrementSane(db: Db, up: int, now: int)
    requires Sane(db)
    ensures Sane(DecrementDeps(db, up, now))
  {
  }

  lemma CancelAllSane(db: Db, ids: set<int>)
    requires Sane(db)
    ensures Sane(CancelAll(db, ids))
  {
  }

  // ---------------------------------------------------------------- transactions keep it

  lemma SettleSane(db: Db, child: int, gate: Option<int>, o: Gates.Outcome, now: int)
    requires Sane(db)
    ensures Sane(SettleGate(db, child, gate, o, now))
  {
    if gate.Some? && gate.value in db.gates {
      var row := db.gates[gate.value];
      var d := BumpGate(db, child, gate.value, o);
      assert Sane(d);
      var branch := Branch(row, Gates.Bump(row.gate, o).branch);
      if Gates.Resolves(row.gate, o) && branch.Some? {
        InsertSane(d, BranchJob(branch.value, gate.value, now));
      }
    }
  }

  lemma CompleteSane(db: Db, id: int, token: nat, stop: bool, skipped: bool, now: int)
    requires Sane(db)
    ensures Sane(Complete(db, id, token, stop, skipped, now))
  {
    if Holds(db, id, token) {
      var job := db.live[id];
      var d1 := Move(db, id, Succeeded, skipped, stop);
      MoveSane(db, id, Succeeded, skipped, stop);
      var d2 := if stop then d1 else Continue(d1, id, job, now);
      if !stop { ContinueSane(d1, id, job, now); }
      DecrementSane(d2, id, now);
      SettleSane(DecrementDeps(d2, id, now), id, job.gate, if skipped then Gates.Skipped else Gates.Won, now);
    }
  }

  lemma ContinueSane(db: Db, id: int, job: Job, now: int)
    requires Sane(db)
    ensures Sane(Continue(db, id, job, now))
  {
  }

  lemma HookSane(db: Db, id: int, job: Job, now: int)
    requires Sane(db)
    ensures Sane(FireHook(db, id, job, now))
  {
    if job.spec.onFailure.Some? {
      InsertSane(db, HookJob(job, id, now));
    }
  }

  lemma DieSane(db: Db, id: int, now: int)
    requires Sane(db) && id in db.live && db.live[id].state.Running?
    ensures Sane(Die(db, id, now))
  {
    var job := db.live[id];
    var d1 := Move(db, id, Dead, false, false);
    MoveSane(db, id, Dead, false, false);
    var d2 := SettleGate(d1, id, job.gate, Gates.Lost, now);
    SettleSane(d1, id, job.gate, Gates.Lost, now);
    var d3 := FireHook(d2, id, job, now);
    HookSane(d2, id, job, now);
    CancelAllSane(d3, Cone(d3.live, id, {}));
  }

  lemma FailSane(db: Db, id: int, token: nat, retryable: bool, workerCap: int, runAt: int, now: int)
    requires Sane(db)
    ensures Sane(Fail(db, id, token, retryable, workerCap, runAt, now))
  {
    if Holds(db, id, token) {
      assert LiveRow(db, id, db.live[id]);
      if ShouldRetry(db.live[id].attempt, RetryCap(db.live[id], workerCap), retryable) {
        PutSane(db, id, Retried(db.live[id], workerCap, runAt));
      } else {
        DieSane(db, id, now);
      }
    }
  }

  lemma {:induction false} ChildrenSane(db: Db, specs: seq<Spec>, tenant: string, gid: int, now: int)
    requires Sane(db)
    ensures Sane(InsertChildren(db, specs, tenant, gid, now))
    decreases |specs|
  {
    if specs != [] {
      var job := ChildJob(specs[0], tenant, gid, now);
      InsertSane(db, job);
      ChildrenSane(Insert(db, job), specs[1..], tenant, gid, now);
    }
  }

  lemma SubmitSane(db: Db, maxChain: nat, spec: Spec, ups: seq<int>, runAt: Option<int>, now: int)
    requires Sane(db)
    ensures Sane(Submit(db, maxChain, spec, ups, runAt, now))
  {
  }

  lemma ClaimSane(db: Db, id: int, now: int)
    requires Sane(db)
    ensures Sane(Claim(db, id, now))
  {
  }

  lemma SweepSane(db: Db, id: int, now: int)
    requires Sane(db)
    ensures Sane(SweepLease(db, id)) && Sane(SweepWait(db, id, now)) && Sane(SweepExhausted(db, id, now))
  {
    if id in db.live {
      var job := db.live[id];
      assert LiveRow(db, id, job);
      if Exhausted(db, id) { FailSane(db, id, job.token.value, false, 0, now, now); }
      if job.state.Waiting? { PutSane(db, id, TimedOut(job, now)); }
      if job.state.Running? {
        MoveSane(db, id, Cancelled, false, false);
        if job.attempt < job.spec.maxAttempts { PutSane(db, id, job.(state := Queued, token := None)); }
      }
    }
  }

  lemma CancelSane(db: Db, id: int, cascade: bool)
    requires Sane(db)
    ensures Sane(Cancel(db, id, cascade))
  {
    if id in db.live {
      assert LiveRow(db, id, db.live[id]);
      var d := if db.live[id].state.Running? then Put(db, id, db.live[id].(cancelRequested := true))
               else Move(db, id, Cancelled, false, false);
      if db.live[id].state.Running? {
        PutSane(db, id, db.live[id].(cancelRequested := true));
      } else {
        MoveSane(db, id, Cancelled, false, false);
      }
      CancelAllSane(d, Cone(d.live, id, {}));
    }
  }

  lemma WaitSane(db: Db, id: int, token: nat, tenant: string, key: string)
    requires Sane(db)
    ensures Sane(Wait(db, id, token, tenant, key))
  {
  }

  lemma SendSane(db: Db, tenant: string, key: string, now: int)
    requires Sane(db)
    ensures Sane(Send(db, tenant, key, now))
  {
  }

  lemma StepSane(db: Db, maxChain: nat, ev: Event)
    requires Sane(db)
    ensures Sane(Step(db, maxChain, ev))
  {
    match ev
    case OnSubmit(spec, ups, runAt, now) => SubmitSane(db, maxChain, spec, ups, runAt, now);
    case OnFanOut(specs, onComplete, tenant, policy, now) =>
      var d := OpenGate(db, onComplete, tenant, policy, |specs|);
      assert Sane(d);
      ChildrenSane(d, specs, tenant, db.nextGate, now);
    case OnClaim(id, now) => ClaimSane(db, id, now);
    case OnComplete(id, token, stop, skipped, now) => CompleteSane(db, id, token, stop, skipped, now);
    case OnFail(id, token, retryable, workerCap, runAt, now) =>
      FailSane(db, id, token, retryable, workerCap, runAt, now);
    case OnHeartbeat(id, token, now) =>
      if Holds(db, id, token) {
        assert LiveRow(db, id, db.live[id]);
        PutSane(db, id, db.live[id].(beatAt := now));
      }
    case OnSweepLease(id) => SweepSane(db, id, 0);
    case OnSweepExhausted(id, now) => SweepSane(db, id, now);
    case OnWait(id, token, tenant, key) => WaitSane(db, id, token, tenant, key);
    case OnSignal(tenant, key, now) => SendSane(db, tenant, key, now);
    case OnSweepWait(id, now) => SweepSane(db, id, now);
    case OnCancel(id, cascade) => CancelSane(db, id, cascade);
  }

  lemma {:induction false} RunSane(db: Db, maxChain: nat, evs: seq<Event>)
    requires Sane(db)
    ensures Sane(Run(db, maxChain, evs))
    decreases |evs|
  {
    if evs != [] {
      StepSane(db, maxChain, evs[0]);
      RunSane(Step(db, maxChain, evs[0]), maxChain, evs[1..]);
    }
  }

  // ---------------------------------------------------------------- what it means

  /** In every run every job is in exactly one of the two tables, live states in the one and final
      states in the other, and a live job has a lease exactly while it runs. */
  lemma OneTableEach(maxChain: nat, evs: seq<Event>)
    ensures var db := Run(Fresh(), maxChain, evs);
            && db.live.Keys !! db.archive.Keys
            && (forall x :: x in db.live ==> IsLive(db.live[x].state) && (db.live[x].state.Running? <==> db.live[x].token.Some?))
            && (forall x :: x in db.archive ==> !IsLive(db.archive[x].state))
  {
    var db := Run(Fresh(), maxChain, evs);
    RunSane(Fresh(), maxChain, evs);
    forall x | x in db.live
      ensures x !in db.archive
    {
      assert LiveRow(db, x, db.live[x]);
    }
  }

  // ---------------------------------------------------------------- attempts, from the events

  /** The largest retry cap that reports on `x` name, at least zero. */
  function TopCap(evs: seq<Event>, x: int): nat {
    if evs == [] then 0
    else
      var rest := TopCap(evs[1..], x);
      if evs[0].OnFail? && evs[0].id == x && evs[0].workerCap > rest then evs[0].workerCap else rest
  }

  /** How often a wait is asked for on `x`. */
  function Waits(evs: seq<Event>, x: int): nat {
    if evs == [] then 0 else (if evs[0].OnWait? && evs[0].id == x then 1 else 0) + Waits(evs[1..], x)
  }

  predicate Within(job: Job, cap: nat, waits: nat) {
    job.past.topCap <= Max(cap, job.spec.maxAttempts) && job.past.parks <= waits
  }

  /** What has been recorded of job `x`, wherever it is, is within the two numbers. */
  predicate WithinAt(db: Db, x: int, cap: nat, waits: nat) {
    && (x in db.live ==> Within(db.live[x], cap, waits))
    && (x in db.archive ==> Within(db.archive[x], cap, waits))
  }

  lemma SettleWithin(db: Db, child: int, gate: Option<int>, o: Gates.Outcome, now: int, x: int, cap: nat, waits: nat)
    requires WithinAt(db, x, cap, waits)
    ensures WithinAt(SettleGate(db, child, gate, o, now), x, cap, waits)
  {
  }

  lemma CompleteWithin(db: Db, id: int, token: nat, stop: bool, skipped: bool, now: int, x: int, cap: nat, waits: nat)
    requires WithinAt(db, x, cap, waits)
    ensures WithinAt(Complete(db, id, token, stop, skipped, now), x, cap, waits)
  {
    if Holds(db, id, token) {
      var job := db.live[id];
      var d1 := Move(db, id, Succeeded, skipped, stop);
      var d2 := if stop then d1 else Continue(d1, id, job, now);
      assert WithinAt(d2, x, cap, waits);
      SettleWithin(DecrementDeps(d2, id, now), id, job.gate, if skipped then Gates.Skipped else Gates.Won, now, x, cap, waits);
    }
  }

  lemma DieWithin(db: Db, id: int, now: int, x: int, cap: nat, waits: nat)
    requires WithinAt(db, x, cap, waits) && id in db.live
    ensures WithinAt(Die(db, id, now), x, cap, waits)
  {
    var job := db.live[id];
    var d1 := Move(db, id, Dead, false, false);
    SettleWithin(d1, id, job.gate, Gates.Lost, now, x, cap, waits);
    var d2 := SettleGate(d1, id, job.gate, Gates.Lost, now);
    assert WithinAt(FireHook(d2, id, job, now), x, cap, waits);
  }

  lemma {:induction false} ChildrenWithin(db: Db, specs: seq<Spec>, tenant: string, gid: int, now: int, x: int, cap: nat, waits: nat)
    requires WithinAt(db, x, cap, waits)
    ensures WithinAt(InsertChildren(db, specs, tenant, gid, now), x, cap, waits)
    decreases |specs|
  {
    if specs != [] {
      ChildrenWithin(Insert(db, ChildJob(specs[0], tenant, gid, now)), specs[1..], tenant, gid, now, x, cap, waits);
    }
  }

  lemma FailWithin(db: Db, id: int, token: nat, retryable: bool, workerCap: int, runAt: int, now: int, x: int, cap: nat, waits: nat)
    requires WithinAt(db, x, cap, waits) && (id == x ==> workerCap <= cap)
    ensures WithinAt(Fail(db, id, token, retryable, workerCap, runAt, now), x, cap, waits)
  {
    if Holds(db, id, token) { DieWithin(db, id, now, x, cap, waits); }
  }

  lemma RowsWithin(db: Db, id: int, token: nat, now: int, x: int, cap: nat, waits: nat)
    requires WithinAt(db, x, cap, waits)
    ensures WithinAt(Claim(db, id, now), x, cap, waits) && WithinAt(Heartbeat(db, id, token, now), x, cap, waits)
    ensures WithinAt(SweepLease(db, id), x, cap, waits) && WithinAt(SweepWait(db, id, now), x, cap, waits)
  {
  }

  lemma SignalsWithin(db: Db, id: int, token: nat, tenant: string, key: string, now: int, x: int, cap: nat, waits: nat)
    requires WithinAt(db, x, cap, waits)
    ensures WithinAt(Send(db, tenant, key, now), x, cap, waits)
    ensures WithinAt(Wait(db, id, token, tenant, key), x, cap, waits + if id == x then 1 else 0)
  {
  }

  lemma CancelWithin(db: Db, id: int, cascade: bool, x: int, cap: nat, waits: nat)
    requires WithinAt(db, x, cap, waits)
    ensures WithinAt(Cancel(db, id, cascade), x, cap, waits)
  {
  }

  lemma SubmitWithin(db: Db, maxChain: nat, spec: Spec, ups: seq<int>, runAt: Option<int>, now: int, x: int, cap: nat, waits: nat)
    requires WithinAt(db, x, cap, waits)
    ensures WithinAt(Submit(db, maxChain, spec, ups, runAt, now), x, cap, waits)
  {
  }

  /** Only a report on `x` raises its cap, and only a wait of `x` adds a wait. */
  lemma StepWithin(db: Db, maxChain: nat, ev: Event, x: int, cap: nat, waits: nat)
    requires WithinAt(db, x, cap, waits) && (ev.OnFail? && ev.id == x ==> ev.workerCap <= cap)
    ensures WithinAt(Step(db, maxChain, ev), x, cap, waits + if ev.OnWait? && ev.id == x then 1 else 0)
  {
    match ev
    case OnSubmit(spec, ups, runAt, now) => SubmitWithin(db, maxChain, spec, ups, runAt, now, x, cap, waits);
    case OnFanOut(specs, onComplete, tenant, policy, now) =>
      ChildrenWithin(OpenGate(db, onComplete, tenant, policy, |specs|), specs, tenant, db.nextGate, now, x, cap, waits);
    case OnClaim(id, now) => RowsWithin(db, id, 0, now, x, cap, waits);
    case OnComplete(id, token, stop, skipped, now) => CompleteWithin(db, id, token, stop, skipped, now, x, cap, waits);
    case OnFail(id, token, retryable, workerCap, retryAt, now) =>
      FailWithin(db, id, token, retryable, workerCap, retryAt, now, x, cap, waits);
    case OnHeartbeat(id, token, now) => RowsWithin(db, id, token, now, x, cap, waits);
    case OnSweepLease(id) => RowsWithin(db, id, 0, 0, x, cap, waits);
    case OnSweepExhausted(id, now) =>
      if Exhausted(db, id) { DieWithin(db, id, now, x, cap, waits); }
    case OnWait(id, token, tenant, key) => SignalsWithin(db, id, token, tenant, key, 0, x, cap, waits);
    case OnSignal(tenant, key, now) => SignalsWithin(db, x, 0, tenant, key, now, x, cap, waits);
    case OnSweepWait(id, now) => RowsWithin(db, id, 0, now, x, cap, waits);
    case OnCancel(id, cascade) => CancelWithin(db, id, cascade, x, cap, waits);
  }

  lemma {:induction false} RunWithin(db: Db, maxChain: nat, evs: seq<Event>, x: int, cap: nat, waits: nat)
    requires WithinAt(db, x, cap, waits) && TopCap(evs, x) <= cap
    ensures WithinAt(Run(db, maxChain, evs), x, cap, waits + Waits(evs, x))
    decreases |evs|
  {
    if evs != [] {
      StepWithin(db, maxChain, evs[0], x, cap, waits);
      RunWithin(Step(db, maxChain, evs[0]), maxChain, evs[1..], x, cap,
                waits + if evs[0].OnWait? && evs[0].id == x then 1 else 0);
    }
  }

  /** In every run a job was claimed at most as often as the largest of one, its stored limit and the caps
      its reports name, and once more for every time it waited, which is at most every wait asked for; a
      job that never waited keeps to the limit. Its attempt counter is that number of claims. */
  lemma AttemptsBounded(maxChain: nat, evs: seq<Event>, x: int)
    ensures var db := Run(Fresh(), maxChain, evs);
            && (x in db.live ==>
                  var job := db.live[x];
                  job.attempt == db.log.claimed[x] <= Max(1, Max(job.spec.maxAttempts, TopCap(evs, x))) + job.past.parks
                  && job.past.parks <= Waits(evs, x))
            && (x in db.archive ==>
                  var job := db.archive[x];
                  job.attempt == db.log.claimed[x] <= Max(1, Max(job.spec.maxAttempts, TopCap(evs, x))) + job.past.parks
                  && job.past.parks <= Waits(evs, x))
  {
    var db := Run(Fresh(), maxChain, evs);
    RunSane(Fresh(), maxChain, evs);
    RunWithin(Fresh(), maxChain, evs, x, TopCap(evs, x), 0);
    if x in db.live { assert LiveRow(db, x, db.live[x]); }
    if x in db.archive { assert ArchivedRow(db, x, db.archive[x]); }
  }

  /** In every run each wait of a job was ended by exactly one signal or exactly one timeout, but for
      the wait that is on, or was on when the job was cancelled. */
  lemma WaitsEndOnce(maxChain: nat, evs: seq<Event>, x: int)
    ensures var db := Run(Fresh(), maxChain, evs);
            && (x in db.live ==>
                  var h := db.live[x].past;
                  h.parks == h.signalled + h.timedOut + (if db.live[x].state.Waiting? then 1 else 0))
            && (x in db.archive ==>
                  var h := db.archive[x].past;
                  h.parks == h.signalled + h.timedOut + (if db.archive[x].waitKey.Some? then 1 else 0)
                  && (db.archive[x].waitKey.Some? ==> db.archive[x].state.Cancelled?))
  {
    var db := Run(Fresh(), maxChain, evs);
    RunSane(Fresh(), maxChain, evs);
    if x in db.live { assert LiveRow(db, x, db.live[x]); }
    if x in db.archive { assert ArchivedRow(db, x, db.archive[x]); }
  }
}
