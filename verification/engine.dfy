/**
 * What holds between the transactions of one engine, and what its main transactions achieve.
 */
module EngineSafety {
  import opened Claims
  import opened Jobs
  import opened JobSafety
  import opened JobLinks
  import JobDeps
  import JobEffects
  import JobFanOuts
  import JobMoves
  import opened JobRows
  import JobSignals
  import JobStarts
  import Gates

  /** Rows, dependencies, gates, chains, hooks and branches are all in order. */
  ghost predicate Sound(db: Db) {
    Sane(db) && JobDeps.Deps(db, {}, {}) && Linked(db, NOTHING)
  }

  lemma FreshSound()
    ensures Sound(Fresh())
  {
    JobEffects.FreshLinked();
  }

  lemma StepSound(db: Db, maxChain: nat, ev: Event)
    requires Sound(db)
    ensures Sound(Step(db, maxChain, ev))
  {
    StepSane(db, maxChain, ev);
    JobDeps.StepDeps(db, maxChain, ev);
    JobEffects.StepLinked(db, maxChain, ev);
  }

  lemma RunSound(db: Db, maxChain: nat, evs: seq<Event>)
    requires Sound(db)
    ensures Sound(Run(db, maxChain, evs))
  {
    RunSane(db, maxChain, evs);
    JobDeps.RunDeps(db, maxChain, evs);
    JobEffects.RunLinked(db, maxChain, evs);
  }

  /** The job succeeded and set off its bump and its continuation, once each, and no hook. */
  predicate Succeeds(db: Db, id: int, job: Job, stop: bool) {
    && id !in db.live && id in db.archive && db.archive[id].state.Succeeded? && db.archive[id].spec == job.spec
    && db.log.bumped[id] == One(job.gate.Some?)
    && db.log.continued[id] == One(!stop && job.spec.onSuccess != "")
    && db.log.hooked[id] == 0
  }

  lemma CompleteArchives(db: Db, id: int, token: nat, stop: bool, skipped: bool, now: int)
    requires Holds(db, id, token)
    ensures Complete(db, id, token, stop, skipped, now).archive == Move(db, id, Succeeded, skipped, stop).archive
  {
  }

  lemma SucceedsIn(db: Db, id: int, job: Job, stop: bool)
    requires Sane(db) && Once(db, NOTHING) && id in db.archive && db.archive[id].state.Succeeded?
    requires db.archive[id].gate == job.gate && db.archive[id].spec == job.spec && db.archive[id].past.stopped == stop
    ensures Succeeds(db, id, job, stop)
  {
    assert EffectsOf(db, id, NOTHING);
    assert id in db.live ==> LiveRow(db, id, db.live[id]);
  }

  lemma CompleteSucceeds(db: Db, id: int, token: nat, stop: bool, skipped: bool, now: int)
    requires Sound(db) && Holds(db, id, token)
    ensures Succeeds(Complete(db, id, token, stop, skipped, now), id, db.live[id], stop)
  {
    CompleteSane(db, id, token, stop, skipped, now);
    JobEffects.CompleteLinked(db, id, token, stop, skipped, now);
    CompleteArchives(db, id, token, stop, skipped, now);
    SucceedsIn(Complete(db, id, token, stop, skipped, now), id, db.live[id], stop);
  }

  /** The job died, set off its bump and its hook, once each, and left no live dependent. */
  ghost predicate Dies(db: Db, id: int, job: Job) {
    && id !in db.live && id in db.archive && db.archive[id].state.Dead? && db.archive[id].spec == job.spec
    && db.log.bumped[id] == One(job.gate.Some?)
    && db.log.hooked[id] == One(job.spec.onFailure.Some?)
    && db.log.continued[id] == 0
    && NoDependents(db, id)
  }

  ghost predicate NoDependents(db: Db, id: int) {
    forall x :: x in db.live ==> id !in db.live[x].ups
  }

  lemma CascadeClears(db: Db, id: int)
    ensures NoDependents(Cascade(db, id), id)
  {
    var d := Cascade(db, id);
    forall x | x in d.live
      ensures id !in d.live[x].ups
    {
      JobDeps.CascadeLeavesNoDependent(db, id, x);
    }
  }

  /** The dead row itself is as the move left it: it is not among its own dependents. */
  lemma DieArchives(db: Db, id: int, now: int)
    requires Sane(db) && id in db.live && db.live[id].state.Running?
    ensures var d := Die(db, id, now);
            && id in d.archive && d.archive[id].state.Dead?
            && d.archive[id].gate == db.live[id].gate && d.archive[id].spec == db.live[id].spec
  {
    DieSane(db, id, now);
    JobMoves.DieLater(db, id, now);
    JobMoves.DieLegal(db, id, now, id);
    var d := Die(db, id, now);
    assert LiveRow(db, id, db.live[id]);
    assert id in d.live ==> LiveRow(d, id, d.live[id]);
    assert id in d.archive ==> JobMoves.Archived(db, d, id);
  }

  lemma DieDies(db: Db, id: int, token: nat, retryable: bool, workerCap: int, runAt: int, now: int)
    requires Sound(db) && Holds(db, id, token)
    requires !ShouldRetry(db.live[id].attempt, RetryCap(db.live[id], workerCap), retryable)
    ensures Dies(Fail(db, id, token, retryable, workerCap, runAt, now), id, db.live[id])
  {
    var d := Die(db, id, now);
    StepSound(db, 0, OnFail(id, token, retryable, workerCap, runAt, now));
    DieArchives(db, id, now);
    assert EffectsOf(d, id, NOTHING);
    assert id in d.live ==> LiveRow(d, id, d.live[id]);
    var d1 := Move(db, id, Dead, false, false);
    CascadeClears(FireHook(SettleGate(d1, id, db.live[id].gate, Gates.Lost, now), id, db.live[id], now), id);
  }

  /** The lease is the job's and no other live job's. */
  ghost predicate IsExclusive(db: Db, id: int, token: nat) {
    Holds(db, id, token) && forall x :: x in db.live && x != id ==> db.live[x].token != Some(token)
  }

  /** A submit whose row is blocked from the start: no upstream and a time to come, an upstream named
      twice, or one that is not live. */
  ghost predicate Hopeless(db: Db, ups: seq<int>, runAt: Option<int>, now: int) {
    || (ups == [] && runAt.Some? && runAt.value > now)
    || !JobStarts.AllDistinct(ups)
    || (exists u :: u in ups && u !in db.live)
  }

  // ---------------------------------------------------------------- each transaction keeps the tables sound

  lemma CompleteKeeps(db: Db, id: int, token: nat, stop: bool, skipped: bool, now: int)
    requires Sound(db)
    ensures Sound(Complete(db, id, token, stop, skipped, now))
    ensures Holds(db, id, token) ==> Succeeds(Complete(db, id, token, stop, skipped, now), id, db.live[id], stop)
  {
    StepSound(db, 0, OnComplete(id, token, stop, skipped, now));
    if Holds(db, id, token) { CompleteSucceeds(db, id, token, stop, skipped, now); }
  }

  /** The new rows of a completion: the next link of the chain, and the job of a gate it resolved. */
  ghost predicate SetsOff(db: Db, d: Db, id: int, stop: bool, now: int)
    requires id in db.live
  {
    && (!stop && db.live[id].spec.onSuccess != "" ==> Continues(d, db.nextId, db.live[id], now))
    && (forall g :: BranchReady(db, d, g, now))
  }

  lemma CompleteSetsOff(db: Db, id: int, token: nat, stop: bool, skipped: bool, now: int)
    requires Holds(db, id, token)
    ensures SetsOff(db, Complete(db, id, token, stop, skipped, now), id, stop, now)
  {
    if !stop && db.live[id].spec.onSuccess != "" { CompleteContinues(db, id, token, skipped, now); }
    forall g
      ensures BranchReady(db, Complete(db, id, token, stop, skipped, now), g, now)
    {
      CompleteBranches(db, id, token, stop, skipped, now, g);
    }
  }

  /** The limit on attempts: the worker's own, unless it reports none. */
  predicate MayRetry(job: Job, retryable: bool, workerCap: int) {
    retryable && job.attempt < (if workerCap != 0 then workerCap else job.spec.maxAttempts)
  }

  lemma FailKeeps(db: Db, id: int, token: nat, retryable: bool, workerCap: int, runAt: int, now: int)
    requires Sound(db)
    ensures Sound(Fail(db, id, token, retryable, workerCap, runAt, now))
    ensures Holds(db, id, token) && !MayRetry(db.live[id], retryable, workerCap) ==>
              Dies(Fail(db, id, token, retryable, workerCap, runAt, now), id, db.live[id])
  {
    StepSound(db, 0, OnFail(id, token, retryable, workerCap, runAt, now));
    if Holds(db, id, token) && !MayRetry(db.live[id], retryable, workerCap) {
      DieDies(db, id, token, retryable, workerCap, runAt, now);
    }
  }

  /** The rows after a failure: the row itself if it is tried again, else the hook's job and the job of a
      gate it resolved. */
  ghost predicate FailsTo(db: Db, d: Db, id: int, retry: bool, retryAt: int, now: int)
    requires id in db.live
  {
    if retry then IsRetried(db, d, id, retryAt)
    else HookReady(d, id, db.live[id], now) && forall g :: BranchReady(db, d, g, now)
  }

  lemma FailRow(db: Db, id: int, token: nat, retryable: bool, workerCap: int, runAt: int, now: int)
    requires Holds(db, id, token)
    ensures FailsTo(db, Fail(db, id, token, retryable, workerCap, runAt, now), id,
                    MayRetry(db.live[id], retryable, workerCap), runAt, now)
  {
    if !MayRetry(db.live[id], retryable, workerCap) {
      DieHooks(db, id, now);
      forall g
        ensures BranchReady(db, Die(db, id, now), g, now)
      {
        DieBranches(db, id, now, g);
      }
    }
  }

  lemma SubmitKeeps(db: Db, maxChain: nat, spec: Spec, ups: seq<int>, runAt: Option<int>, now: int)
    requires Sound(db)
    ensures Sound(Submit(db, maxChain, spec, ups, runAt, now))
    ensures ChainLength(spec) <= maxChain ==>
              && Stores(Submit(db, maxChain, spec, ups, runAt, now), db.nextId, spec, ups, runAt, now)
              && (JobStarts.Blocked(Submit(db, maxChain, spec, ups, runAt, now), db.nextId) <==> Hopeless(db, ups, runAt, now))
  {
    StepSound(db, maxChain, OnSubmit(spec, ups, runAt, now));
    if ChainLength(spec) <= maxChain {
      JobStarts.SubmitBlockedIff(db, maxChain, spec, ups, runAt, now);
      SubmitStores(db, maxChain, spec, ups, runAt, now);
    }
  }

  lemma FanOutKeeps(db: Db, specs: seq<Spec>, onComplete: Spec, tenant: string, policy: Gates.Policy, now: int)
    requires Sound(db)
    ensures Sound(FanOut(db, specs, onComplete, tenant, policy, now))
    ensures specs != [] ==>
              JobFanOuts.OpensFor(FanOut(db, specs, onComplete, tenant, policy, now), db.nextGate, db.nextId, specs, onComplete,
                                  tenant, policy, now)
  {
    StepSound(db, 0, OnFanOut(specs, onComplete, tenant, policy, now));
    if specs != [] { JobFanOuts.FanOutOpensFor(db, specs, onComplete, tenant, policy, now); }
  }

  lemma SendKeeps(db: Db, tenant: string, key: string, now: int)
    requires Sound(db)
    ensures Sound(Send(db, tenant, key, now))
    ensures OldestWaiter(db.live, tenant, key, 0, db.nextId).Some?
            <==> exists x :: x in db.live && WaitsFor(db.live[x], tenant, key)
  {
    StepSound(db, 0, OnSignal(tenant, key, now));
    if OldestWaiter(db.live, tenant, key, 0, db.nextId).None? {
      forall x | x in db.live
        ensures !WaitsFor(db.live[x], tenant, key)
      {
        assert LiveRow(db, x, db.live[x]);
        JobSignals.NoWaiter(db.live, tenant, key, 0, db.nextId, x);
      }
    }
  }

  lemma WaitKeeps(db: Db, id: int, token: nat, tenant: string, key: string)
    requires Sound(db)
    ensures Sound(Wait(db, id, token, tenant, key))
    ensures Pending(db.signals, tenant, key, 0).Some? <==> Signal(tenant, key, false) in db.signals
  {
    StepSound(db, 0, OnWait(id, token, tenant, key));
    if Pending(db.signals, tenant, key, 0).None? {
      forall j | 0 <= j < |db.signals|
        ensures db.signals[j] != Signal(tenant, key, false)
      {
        JobSignals.NonePending(db.signals, tenant, key, 0, j);
      }
    }
  }

  lemma ClaimKeeps(db: Db, id: int, now: int)
    requires Sound(db)
    ensures Sound(Claim(db, id, now))
    ensures id in db.live && db.live[id].state.Queued? && db.live[id].runAt <= now ==>
              IsExclusive(Claim(db, id, now), id, db.nextToken)
  {
    var d := Claim(db, id, now);
    assert Step(db, 0, OnClaim(id, now)) == d;
    StepSound(db, 0, OnClaim(id, now));
    if id in db.live && db.live[id].state.Queued? && db.live[id].runAt <= now { ClaimIsExclusive(db, id, now); }
  }

  /** No other job has ever held the new token. */
  lemma ClaimIsExclusive(db: Db, id: int, now: int)
    requires Sane(db)
    requires id in db.live && db.live[id].state.Queued? && db.live[id].runAt <= now
    ensures IsExclusive(Claim(db, id, now), id, db.nextToken)
  {
    forall x | x in db.live && x != id
      ensures Claim(db, id, now).live[x].token != Some(db.nextToken)
    {
      assert LiveRow(db, x, db.live[x]);
    }
  }

  lemma HeartbeatKeeps(db: Db, id: int, token: nat, now: int)
    requires Sound(db)
    ensures Sound(Heartbeat(db, id, token, now))
  {
    var d := Heartbeat(db, id, token, now);
    assert Step(db, 0, OnHeartbeat(id, token, now)) == d;
    StepSound(db, 0, OnHeartbeat(id, token, now));
  }

  lemma CancelKeeps(db: Db, id: int, cascade: bool)
    requires Sound(db)
    ensures Sound(Cancel(db, id, cascade))
    ensures id in db.live && cascade ==> NoDependents(Cancel(db, id, cascade), id)
  {
    var d := Cancel(db, id, cascade);
    assert Step(db, 0, OnCancel(id, cascade)) == d;
    StepSound(db, 0, OnCancel(id, cascade));
    CancelClears(db, id);
  }

  lemma CancelClears(db: Db, id: int)
    ensures id in db.live ==> NoDependents(Cancel(db, id, true), id)
  {
    if id in db.live {
      CascadeClears(if db.live[id].state.Running? then Put(db, id, db.live[id].(cancelRequested := true))
                    else Move(db, id, Cancelled, false, false), id);
    }
  }
}

/**
 * The services as they run: tables that each transaction changes statement by statement. Every
 * transaction keeps the tables sound and is the step of `Jobs` over whose runs the properties are
 * proved.
 */
module Engine {
  import opened Claims
  import opened Jobs
  import opened EngineSafety
  import opened JobRows
  import JobFanOuts
  import JobStarts
  import Gates

  datatype FailOutcome = FailOutcome(accepted: bool, willRetry: bool)
  datatype Outcome = Resumed | Parked | StaleLease

  class JobEngine {
    var live: map<int, Job>
    var archive: map<int, Job>
    var gates: map<int, GateRow>
    var signals: seq<Signal>
    var nextId: nat
    var nextGate: nat
    var nextToken: nat
    var log: Log

    function Tables(): Db
      reads this
    {
      Db(live, archive, gates, signals, nextId, nextGate, nextToken, log)
    }

    ghost predicate Valid()
      reads this
    {
      Sound(Tables())
    }

    constructor ()
      ensures Tables() == Fresh() && Valid()
    {
      live, archive, gates, signals := map[], map[], map[], [];
      nextId, nextGate, nextToken := 0, 0, 0;
      log := Fresh().log;
      FreshSound();
    }

    // -------------------------------------------------------------- statements

    method InsertJob(job: Job) returns (id: nat)
      modifies this
      ensures Tables() == Insert(old(Tables()), job) && id == old(nextId)
    {
      id := nextId;
      live := live[id := job.(past := job.past.(chain := id))];
      log := Noted(log, job.past.origin, id).(chains := log.chains[id := [id]]);
      nextId := id + 1;
    }

    /** The lease-guarded move of complete.sql and fail_die.sql; `None` is a stale lease. */
    method MoveRunning(id: int, token: nat, final: State, skipped: bool, stopped: bool) returns (term: Option<Job>)
      modifies this
      ensures Holds(old(Tables()), id, token) ==>
                Tables() == Move(old(Tables()), id, final, skipped, stopped) && term == Some(old(live)[id])
      ensures !Holds(old(Tables()), id, token) ==> Tables() == old(Tables()) && term == None
    {
      if id in live && live[id].state.Running? && live[id].token == Some(token) {
        var job := live[id];
        live := live - {id};
        archive := archive[id := job.(state := final, past := job.past.(skipped := skipped, stopped := stopped))];
        return Some(job);
      }
      return None;
    }

    method InsertContinuation(id: int, job: Job, now: int)
      modifies this
      ensures Tables() == Continue(old(Tables()), id, job, now)
    {
      if job.spec.onSuccess != "" {
        var next, chain := NextJob(job, id, now), job.past.chain;
        live := live[nextId := next.(past := next.past.(chain := chain))];
        var links := if chain in log.chains then log.chains[chain] else [];
        log := log.(chains := log.chains[chain := links + [nextId]], continued := log.continued + multiset{id});
        nextId := nextId + 1;
      }
    }

    method TellDependents(up: int, now: int)
      modifies this`live
      ensures Tables() == DecrementDeps(old(Tables()), up, now)
    {
      live := map x | x in live :: Decremented(live[x], up, now);
    }

    /** cascade_cancel.sql: collect the dependents of dependents, then archive them all. */
    method CascadeCancel(root: int)
      modifies this`live, this`archive
      ensures Tables() == Cascade(old(Tables()), root)
    {
      var cone := CollectCone(live, root);
      archive := archive + (map x | x in live && x in cone :: live[x].(state := Cancelled));
      live := live - cone;
    }

    // -------------------------------------------------------------- job_service.py

    /** `_settle_gate`: true when this child resolved its gate. */
    method Settle(child: int, gate: Option<int>, o: Gates.Outcome, now: int) returns (resolved: bool)
      modifies this
      ensures Tables() == SettleGate(old(Tables()), child, gate, o, now)
      ensures resolved <==> gate.Some? && gate.value in old(gates) && Gates.Resolves(old(gates)[gate.value].gate, o)
    {
      if gate.None? || gate.value !in gates {
        return false;
      }
      var row := gates[gate.value];
      gates := gates[gate.value := Counted(row, child, o)];
      log := log.(bumped := log.bumped + multiset{child});
      resolved := Gates.Resolves(row.gate, o);
      if resolved {
        var branch := Branch(row, Gates.Bump(row.gate, o).branch);
        if branch.Some? {
          var _ := InsertJob(BranchJob(branch.value, gate.value, now));
        }
      }
    }

    /** `complete`: false is the StaleLease error. */
    method CompleteRows(id: int, token: nat, stop: bool, skipped: bool, now: int) returns (accepted: bool)
      modifies this
      ensures accepted <==> Holds(old(Tables()), id, token)
      ensures Tables() == Complete(old(Tables()), id, token, stop, skipped, now)
    {
      var term := MoveRunning(id, token, Succeeded, skipped, stop);
      if term.None? {
        return false;
      }
      if !stop {
        InsertContinuation(id, term.value, now);
      }
      TellDependents(id, now);
      var _ := Settle(id, term.value.gate, if skipped then Gates.Skipped else Gates.Won, now);
      return true;
    }

    /** `fail`: retry while attempts are left, otherwise die, settle, hook and cascade. */
    method FailRows(id: int, token: nat, retryable: bool, workerCap: int, retryAt: int, now: int)
      returns (outcome: FailOutcome)
      modifies this
      ensures outcome.accepted <==> Holds(old(Tables()), id, token)
      ensures outcome.willRetry ==> outcome.accepted
      ensures outcome.accepted ==>
                outcome.willRetry == ShouldRetry(old(live)[id].attempt, RetryCap(old(live)[id], workerCap), retryable)
      ensures Tables() == Fail(old(Tables()), id, token, retryable, workerCap, retryAt, now)
    {
      if !Holds(Tables(), id, token) {
        return FailOutcome(false, false);
      }
      var job := live[id];
      if ShouldRetry(job.attempt, RetryCap(job, workerCap), retryable) {
        live := live[id := Retried(job, workerCap, retryAt)];
        return FailOutcome(true, true);
      }
      var _ := MoveRunning(id, token, Dead, false, false);
      var _ := Settle(id, job.gate, Gates.Lost, now);
      if job.spec.onFailure.Some? {
        var _ := InsertJob(HookJob(job, id, now));
        log := log.(hooked := log.hooked + multiset{id});
      }
      CascadeCancel(id);
      return FailOutcome(true, false);
    }

    // -------------------------------------------------------------- submit_service.py, fanout_service.py

    /** One specification of a batch with its dependencies; false is ChainTooLong. */
    method SubmitRows(maxChain: nat, spec: Spec, ups: seq<int>, runAt: Option<int>, now: int) returns (accepted: bool)
      modifies this
      ensures accepted <==> ChainLength(spec) <= maxChain
      ensures Tables() == Submit(old(Tables()), maxChain, spec, ups, runAt, now)
    {
      if ChainLength(spec) > maxChain {
        return false;
      }
      var edges: set<int> := {};
      for i := 0 to |ups|
        invariant edges == Upstreams(ups[..i], nextId)
      {
        edges := edges + {Named(ups[i], nextId)};
      }
      assert ups[..|ups|] == ups;
      var job := NewJob(spec, InitialState(|ups|, runAt, now), if runAt.Some? then runAt.value else now, None, OfClient);
      var _ := InsertJob(job.(ups := edges, declared := |ups|, remaining := |ups|,
                              past := job.past.(missed := set u | u in edges && u !in live)));
      return true;
    }

    /** `fan_out`: the gate row first, then every child under it; false is the empty fan-out. */
    method FanOutRows(specs: seq<Spec>, onComplete: Spec, tenant: string, policy: Gates.Policy, now: int)
      returns (accepted: bool)
      modifies this
      ensures accepted <==> specs != []
      ensures Tables() == FanOut(old(Tables()), specs, onComplete, tenant, policy, now)
    {
      if specs == [] {
        return false;
      }
      var gid := nextGate;
      gates := gates[gid := GateRow(Gates.Open(policy, |specs|), onComplete, tenant, IdRange(nextId, |specs|), {}, {}, {})];
      nextGate := gid + 1;
      ghost var start := Tables();
      for i := 0 to |specs|
        invariant InsertChildren(start, specs, tenant, gid, now) == InsertChildren(Tables(), specs[i..], tenant, gid, now)
      {
        var _ := InsertJob(ChildJob(specs[i], tenant, gid, now));
        assert specs[i..][0] == specs[i] && specs[i..][1..] == specs[i + 1..];
      }
      return true;
    }

    // -------------------------------------------------------------- signal_service.py

    /** `signal`: true when a waiter was woken. */
    method SignalRows(tenant: string, key: string, now: int) returns (delivered: bool)
      modifies this
      ensures Tables() == Send(old(Tables()), tenant, key, now)
      ensures delivered <==> OldestWaiter(old(live), tenant, key, 0, old(nextId)).Some?
    {
      var waiter := OldestWaiter(live, tenant, key, 0, nextId);
      delivered := waiter.Some?;
      if delivered {
        live := live[waiter.value := Woken(live[waiter.value], now)];
        log := log.(sent := log.sent + multiset{Channel(tenant, key)}, delivered := log.delivered + multiset{Channel(tenant, key)});
      } else {
        signals := signals + [Signal(tenant, key, false)];
        log := log.(sent := log.sent + multiset{Channel(tenant, key)});
      }
    }

    /** `wait`: consume a pending signal, or else park under the lease. */
    method WaitRows(id: int, token: nat, tenant: string, key: string) returns (outcome: Outcome)
      modifies this
      ensures Tables() == Wait(old(Tables()), id, token, tenant, key)
      ensures outcome.Resumed? <==> Pending(old(signals), tenant, key, 0).Some?
      ensures outcome.StaleLease? <==> !outcome.Resumed? && !Holds(old(Tables()), id, token)
    {
      var pending := Pending(signals, tenant, key, 0);
      if pending.Some? {
        signals := signals[pending.value := Signal(tenant, key, true)];
        log := log.(consumed := log.consumed + multiset{Channel(tenant, key)});
        return Resumed;
      }
      if !Holds(Tables(), id, token) {
        return StaleLease;
      }
      live := live[id := Jobs.Parked(live[id], key)];
      return Parked;
    }

    // -------------------------------------------------------------- loops.py

    method FailExhausted(maxChain: nat, ids: seq<int>, now: int)
      modifies this
      ensures Tables() == Run(old(Tables()), maxChain, Fails(ids, now))
    {
      assert ids[0..] == ids;
      for i := 0 to |ids|
        invariant Run(old(Tables()), maxChain, Fails(ids, now)) == Run(Tables(), maxChain, Fails(ids[i..], now))
      {
        RunCons(Tables(), maxChain, OnSweepExhausted(ids[i], now), Fails(ids[i + 1..], now));
        assert ids[i..][1..] == ids[i + 1..];
        if Jobs.Exhausted(Tables(), ids[i]) {
          var _ := FailRows(ids[i], live[ids[i]].token.value, false, 0, now, now);
        }
      }
    }

    method ReclaimExpired(maxChain: nat, ids: seq<int>)
      modifies this
      ensures Tables() == Run(old(Tables()), maxChain, Reclaims(ids))
    {
      assert ids[0..] == ids;
      for i := 0 to |ids|
        invariant Run(old(Tables()), maxChain, Reclaims(ids)) == Run(Tables(), maxChain, Reclaims(ids[i..]))
      {
        RunCons(Tables(), maxChain, OnSweepLease(ids[i]), Reclaims(ids[i + 1..]));
        assert ids[i..][1..] == ids[i + 1..];
        Reclaim(ids[i]);
      }
    }

    method ReleaseWaits(maxChain: nat, ids: seq<int>, now: int)
      modifies this
      ensures Tables() == Run(old(Tables()), maxChain, Releases(ids, now))
    {
      assert ids[0..] == ids;
      for i := 0 to |ids|
        invariant Run(old(Tables()), maxChain, Releases(ids, now)) == Run(Tables(), maxChain, Releases(ids[i..], now))
      {
        RunCons(Tables(), maxChain, OnSweepWait(ids[i], now), Releases(ids[i + 1..], now));
        assert ids[i..][1..] == ids[i + 1..];
        if ids[i] in live && live[ids[i]].state.Waiting? {
          live := live[ids[i] := TimedOut(live[ids[i]], now)];
        }
      }
    }

    method Reclaim(id: int)
      modifies this`live, this`archive
      ensures Tables() == SweepLease(old(Tables()), id)
    {
      if id in live && live[id].state.Running? {
        var job := live[id];
        if job.cancelRequested {
          archive := archive[id := job.(state := Cancelled, past := job.past.(skipped := false, stopped := false))];
          live := live - {id};
        } else if job.attempt < job.spec.maxAttempts {
          live := live[id := job.(state := Queued, token := None)];
        }
      }
    }

    // -------------------------------------------------------------- claim.sql, cancel_service.py

    /** One row of a claim: a fresh lease, held by nobody else. */
    method ClaimRow(id: int, now: int) returns (claimed: bool)
      modifies this
      ensures Tables() == Claim(old(Tables()), id, now)
      ensures claimed <==> id in old(live) && old(live)[id].state.Queued? && old(live)[id].runAt <= now
    {
      claimed := id in live && live[id].state.Queued? && live[id].runAt <= now;
      if claimed {
        live := live[id := Claimed(live[id], nextToken, now)];
        nextToken := nextToken + 1;
        log := log.(claimed := log.claimed + multiset{id});
      }
    }

    /** `cancel`: true unless the job is unknown or finished. */
    method CancelRows(id: int, cascade: bool) returns (cancelled: bool)
      modifies this
      ensures Tables() == Cancel(old(Tables()), id, cascade)
      ensures cancelled <==> id in old(live)
    {
      if id !in live {
        return false;
      }
      var job := live[id];
      if job.state.Running? {
        live := live[id := job.(cancelRequested := true)];
      } else {
        archive := archive[id := job.(state := Cancelled, past := job.past.(skipped := false, stopped := false))];
        live := live - {id};
      }
      if cascade {
        CascadeCancel(id);
      }
      return true;
    }

    // -------------------------------------------------------------- the services' transactions

    /** `complete`: false is the StaleLease error, and then nothing happened. */
    method CompleteJob(id: int, token: nat, stop: bool, skipped: bool, now: int) returns (accepted: bool)
      requires Valid()
      modifies this
      ensures Valid() && Tables() == Complete(old(Tables()), id, token, stop, skipped, now)
      ensures accepted <==> Holds(old(Tables()), id, token)
      ensures accepted ==> Succeeds(Tables(), id, old(live)[id], stop) && SetsOff(old(Tables()), Tables(), id, stop, now)
      ensures !accepted ==> Tables() == old(Tables())
    {
      CompleteKeeps(Tables(), id, token, stop, skipped, now);
      if Holds(Tables(), id, token) { CompleteSetsOff(Tables(), id, token, stop, skipped, now); }
      accepted := CompleteRows(id, token, stop, skipped, now);
    }

    /** `fail`: a retry is queued without its lease; a death settles, hooks and clears the dependents. */
    method FailJob(id: int, token: nat, retryable: bool, workerCap: int, retryAt: int, now: int)
      returns (outcome: FailOutcome)
      requires Valid()
      modifies this
      ensures Valid() && Tables() == Fail(old(Tables()), id, token, retryable, workerCap, retryAt, now)
      ensures outcome.accepted <==> Holds(old(Tables()), id, token)
      ensures outcome.willRetry <==> outcome.accepted && MayRetry(old(live)[id], retryable, workerCap)
      ensures outcome.accepted && !outcome.willRetry ==> Dies(Tables(), id, old(live)[id])
      ensures outcome.accepted ==> FailsTo(old(Tables()), Tables(), id, outcome.willRetry, retryAt, now)
      ensures !outcome.accepted ==> Tables() == old(Tables())
    {
      FailKeeps(Tables(), id, token, retryable, workerCap, retryAt, now);
      if Holds(Tables(), id, token) { FailRow(Tables(), id, token, retryable, workerCap, retryAt, now); }
      outcome := FailRows(id, token, retryable, workerCap, retryAt, now);
    }

    /** One specification of a batch; false is ChainTooLong. Which accepted jobs are blocked from the start
        is plain from the call. */
    method SubmitJob(maxChain: nat, spec: Spec, ups: seq<int>, runAt: Option<int>, now: int) returns (accepted: bool)
      requires Valid()
      modifies this
      ensures Valid() && Tables() == Submit(old(Tables()), maxChain, spec, ups, runAt, now)
      ensures accepted <==> ChainLength(spec) <= maxChain
      ensures accepted ==> Stores(Tables(), old(nextId), spec, ups, runAt, now)
      ensures accepted ==> (JobStarts.Blocked(Tables(), old(nextId)) <==> Hopeless(old(Tables()), ups, runAt, now))
    {
      SubmitKeeps(Tables(), maxChain, spec, ups, runAt, now);
      accepted := SubmitRows(maxChain, spec, ups, runAt, now);
    }

    /** `fan_out`: the gate the call asks for, and its children. */
    method FanOutJobs(specs: seq<Spec>, onComplete: Spec, tenant: string, policy: Gates.Policy, now: int)
      returns (accepted: bool)
      requires Valid()
      modifies this
      ensures Valid() && Tables() == FanOut(old(Tables()), specs, onComplete, tenant, policy, now)
      ensures accepted <==> specs != []
      ensures accepted ==>
                JobFanOuts.OpensFor(Tables(), old(nextGate), old(nextId), specs, onComplete, tenant, policy, now)
    {
      FanOutKeeps(Tables(), specs, onComplete, tenant, policy, now);
      accepted := FanOutRows(specs, onComplete, tenant, policy, now);
    }

    /** `signal`: true when a waiter was woken, the oldest one. */
    method SendSignal(tenant: string, key: string, now: int) returns (delivered: bool)
      requires Valid()
      modifies this
      ensures Valid() && Tables() == Send(old(Tables()), tenant, key, now)
      ensures delivered <==> exists x :: x in old(live) && WaitsFor(old(live)[x], tenant, key)
      ensures delivered ==> exists x :: Wakes(old(Tables()), Tables(), x, tenant, key, now)
      ensures !delivered ==> live == old(live) && signals == old(signals) + [Signal(tenant, key, false)]
    {
      SendKeeps(Tables(), tenant, key, now);
      SendWakes(Tables(), tenant, key, now);
      delivered := SignalRows(tenant, key, now);
    }

    /** `wait`: resumed exactly when a signal was pending, whoever asks. */
    method WaitForSignal(id: int, token: nat, tenant: string, key: string) returns (outcome: Outcome)
      requires Valid()
      modifies this
      ensures Valid() && Tables() == Wait(old(Tables()), id, token, tenant, key)
      ensures outcome.Resumed? <==> Signal(tenant, key, false) in old(signals)
      ensures outcome.StaleLease? <==> !outcome.Resumed? && !Holds(old(Tables()), id, token)
      ensures outcome.Resumed? ==> exists i :: Consumes(old(Tables()), Tables(), i, tenant, key)
      ensures outcome.Parked? ==> Parks(old(Tables()), Tables(), id, key)
      ensures outcome.StaleLease? ==> Tables() == old(Tables())
    {
      WaitKeeps(Tables(), id, token, tenant, key);
      WaitRow(Tables(), id, token, tenant, key);
      outcome := WaitRows(id, token, tenant, key);
    }

    /** One row of a claim: a fresh lease, held by nobody else. */
    method ClaimJob(id: int, now: int) returns (claimed: bool)
      requires Valid()
      modifies this
      ensures Valid() && Tables() == Claim(old(Tables()), id, now)
      ensures claimed <==> id in old(live) && old(live)[id].state.Queued? && old(live)[id].runAt <= now
      ensures claimed ==>
                && IsExclusive(Tables(), id, old(nextToken)) && live[id].attempt == old(live)[id].attempt + 1
                && live - {id} == old(live) - {id} && archive == old(archive)
      ensures !claimed ==> Tables() == old(Tables())
    {
      ClaimKeeps(Tables(), id, now);
      claimed := ClaimRow(id, now);
    }

    /** `heartbeat`: true under the current lease, and nothing happens under any other. */
    method HeartbeatJob(id: int, token: nat, now: int) returns (accepted: bool)
      requires Valid()
      modifies this
      ensures Valid()
      ensures accepted <==> Holds(old(Tables()), id, token)
      ensures Tables() == Heartbeat(old(Tables()), id, token, now)
      ensures accepted ==> Holds(Tables(), id, token) && live[id].beatAt == now && live - {id} == old(live) - {id}
      ensures !accepted ==> Tables() == old(Tables())
    {
      HeartbeatKeeps(Tables(), id, token, now);
      accepted := Holds(Tables(), id, token);
      if accepted {
        live := live[id := live[id].(beatAt := now)];
      }
    }

    /** `cancel`: true unless the job is unknown or finished; a cascade leaves no live dependent. */
    method CancelJob(id: int, cascade: bool) returns (cancelled: bool)
      requires Valid()
      modifies this
      ensures Valid() && Tables() == Cancel(old(Tables()), id, cascade)
      ensures cancelled <==> id in old(live)
      ensures cancelled ==> IsCancelledOr(old(Tables()), Tables(), id)
      ensures cancelled && cascade ==> NoDependents(Tables(), id)
      ensures cancelled && !cascade ==> live - {id} == old(live) - {id}
      ensures !cancelled ==> Tables() == old(Tables())
    {
      CancelKeeps(Tables(), id, cascade);
      if id in live { CancelRow(Tables(), id, cascade); }
      cancelled := CancelRows(id, cascade);
    }

    /** `Sweeper.pass_`: fail the exhausted leases, reclaim the expired ones, release expired waits.
        The three lists are what the scans of the pass found. */
    method SweepPass(maxChain: nat, exhausted: seq<int>, expired: seq<int>, waits: seq<int>, now: int)
      requires Valid()
      modifies this
      ensures Valid()
      ensures Tables() == Run(old(Tables()), maxChain,
                              Fails(exhausted, now) + (Reclaims(expired) + Releases(waits, now)))
      ensures forall x :: x in exhausted ==> !Exhausted(Tables(), x)
      ensures forall x :: x in expired ==> !Reclaimable(Tables(), x)
      ensures forall x :: x in waits ==> !IsWaiting(Tables(), x)
    {
      forall x
        ensures var d := Run(Tables(), maxChain, Fails(exhausted, now) + (Reclaims(expired) + Releases(waits, now)));
                && (x in exhausted ==> !Exhausted(d, x)) && (x in expired ==> !Reclaimable(d, x))
                && (x in waits ==> !IsWaiting(d, x))
      {
        PassEnds(Tables(), maxChain, exhausted, expired, waits, now, x);
      }
      RunSound(Tables(), maxChain, Fails(exhausted, now) + (Reclaims(expired) + Releases(waits, now)));
      FailExhausted(maxChain, exhausted, now);
      ghost var failed := Tables();
      ReclaimExpired(maxChain, expired);
      ghost var reclaimed := Tables();
      ReleaseWaits(maxChain, waits, now);
      RunConcat(failed, maxChain, Reclaims(expired), Releases(waits, now));
      RunConcat(old(Tables()), maxChain, Fails(exhausted, now), Reclaims(expired) + Releases(waits, now));
    }
  }

  /** The recursive query of cascade_cancel.sql: dependents, dependents of those, until none is new. */
  method CollectCone(live: map<int, Job>, root: int) returns (cone: set<int>)
    ensures cone == Cone(live, root, {})
  {
    cone := {};
    var more := Next(live, root, cone);
    while more != {}
      invariant more == Next(live, root, cone)
      invariant Cone(live, root, cone) == Cone(live, root, {})
      decreases |live.Keys - cone|
    {
      Shrinks(live.Keys, cone, more);
      cone := cone + more;
      more := Next(live, root, cone);
    }
  }
}
