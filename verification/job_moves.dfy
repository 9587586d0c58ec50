/**
 * How one state of the engine follows from another: the archive only grows, no job comes back, no
 * lease is granted twice, and every job moves along the table of src/symba/core/states.py.
 */
module JobMoves {
  import opened Claims
  import opened Jobs
  import opened JobSafety
  import Gates

  predicate SameIdentity(a: Job, b: Job) {
    && a.spec == b.spec && a.gate == b.gate && a.ups == b.ups && a.declared == b.declared
    && a.past.missed == b.past.missed && a.past.chain == b.past.chain
  }

  /** A row of the later state that was there before: same job, and no lease it did not have. */
  predicate Continued(db: Db, x: int, job: Job) {
    && (x < db.nextId ==> x in db.live && SameIdentity(db.live[x], job))
    && (job.token.Some? && job.token.value < db.nextToken ==> x in db.live && db.live[x].token == job.token)
  }

  predicate Archived(db: Db, d: Db, x: int) {
    x in d.archive && (if x in db.archive then d.archive[x] == db.archive[x]
                       else x >= db.nextId || (x in db.live && SameIdentity(db.live[x], d.archive[x])))
  }

  /** `d` is a later state than `db`. */
  ghost predicate Later(db: Db, d: Db) {
    && db.nextId <= d.nextId && db.nextToken <= d.nextToken
    && (forall x :: x in d.live ==> Continued(db, x, d.live[x]))
    && (forall x :: x in d.archive || x in db.archive ==> Archived(db, d, x))
    && (forall x :: x in db.live ==> x in d.live || x in d.archive)
  }

  lemma LaterTransitive(a: Db, b: Db, c: Db)
    requires Sane(a) && Sane(b) && Later(a, b) && Later(b, c)
    ensures Later(a, c)
  {
  }

  // ---------------------------------------------------------------- statements

  lemma SameTables(db: Db, d: Db)
    requires Sane(db) && d.live == db.live && d.archive == db.archive
    requires d.nextId == db.nextId && d.nextToken == db.nextToken
    ensures Later(db, d)
  {
  }

  lemma InsertLater(db: Db, job: Job)
    requires Sane(db) && job.token.None?
    ensures Later(db, Insert(db, job))
  {
  }

  lemma FollowLater(db: Db, job: Job, chain: int)
    requires Sane(db) && job.token.None?
    ensures Later(db, Follow(db, job, chain))
  {
  }

  lemma PutLater(db: Db, id: int, job: Job)
    requires Sane(db) && id in db.live && SameIdentity(db.live[id], job)
    requires job.token.Some? ==> job.token == db.live[id].token || job.token.value >= db.nextToken
    ensures Later(db, Put(db, id, job))
  {
  }

  lemma MoveLater(db: Db, id: int, final: State, skipped: bool, stopped: bool)
    requires Sane(db) && id in db.live
    ensures Later(db, Move(db, id, final, skipped, stopped))
  {
  }

  lemma DecrementLater(db: Db, up: int, now: int)
    requires Sane(db)
    ensures Later(db, DecrementDeps(db, up, now))
  {
  }

  lemma CancelAllLater(db: Db, ids: set<int>)
    requires Sane(db)
    ensures Later(db, CancelAll(db, ids))
  {
    var d := CancelAll(db, ids);
    forall x | x in d.live
      ensures Continued(db, x, d.live[x])
    {
    }
    forall x | x in d.archive || x in db.archive
      ensures Archived(db, d, x)
    {
      if x in db.live { assert LiveRow(db, x, db.live[x]); }
    }
  }

  // ---------------------------------------------------------------- transactions

  lemma SettleLater(db: Db, child: int, gate: Option<int>, o: Gates.Outcome, now: int)
    requires Sane(db)
    ensures Later(db, SettleGate(db, child, gate, o, now))
  {
    SameTables(db, db);
    if gate.Some? && gate.value in db.gates {
      var row := db.gates[gate.value];
      var d := BumpGate(db, child, gate.value, o);
      SameTables(db, d);
      assert Sane(d);
      var branch := Branch(row, Gates.Bump(row.gate, o).branch);
      if Gates.Resolves(row.gate, o) && branch.Some? {
        var job := BranchJob(branch.value, gate.value, now);
        InsertLater(d, job);
        LaterTransitive(db, d, Insert(d, job));
      }
    }
  }

  lemma ContinueLater(db: Db, id: int, job: Job, now: int)
    requires Sane(db)
    ensures Later(db, Continue(db, id, job, now))
  {
    SameTables(db, db);
    if job.spec.onSuccess != "" {
      var next := NextJob(job, id, now);
      var d := Follow(db, next, job.past.chain);
      FollowSane(db, next, job.past.chain);
      FollowLater(db, next, job.past.chain);
      SameTables(d, Continue(db, id, job, now));
      LaterTransitive(db, d, Continue(db, id, job, now));
    }
  }

  lemma HookLater(db: Db, id: int, job: Job, now: int)
    requires Sane(db)
    ensures Later(db, FireHook(db, id, job, now))
  {
    SameTables(db, db);
    if job.spec.onFailure.Some? {
      var hook := HookJob(job, id, now);
      InsertSane(db, hook);
      InsertLater(db, hook);
      SameTables(Insert(db, hook), FireHook(db, id, job, now));
      LaterTransitive(db, Insert(db, hook), FireHook(db, id, job, now));
    }
  }

  lemma CompleteLater(db: Db, id: int, token: nat, stop: bool, skipped: bool, now: int)
    requires Sane(db) && Holds(db, id, token)
    ensures Later(db, Complete(db, id, token, stop, skipped, now))
  {
    var job := db.live[id];
    var d1 := Move(db, id, Succeeded, skipped, stop);
    MoveSane(db, id, Succeeded, skipped, stop);
    MoveLater(db, id, Succeeded, skipped, stop);
    var d2 := if stop then d1 else Continue(d1, id, job, now);
    SameTables(d1, d1);
    ContinueSane(d1, id, job, now);
    ContinueLater(d1, id, job, now);
    LaterTransitive(db, d1, d2);
    var d3 := DecrementDeps(d2, id, now);
    DecrementSane(d2, id, now);
    DecrementLater(d2, id, now);
    LaterTransitive(db, d2, d3);
    var o := if skipped then Gates.Skipped else Gates.Won;
    SettleLater(d3, id, job.gate, o, now);
    LaterTransitive(db, d3, SettleGate(d3, id, job.gate, o, now));
  }

  lemma DieLater(db: Db, id: int, now: int)
    requires Sane(db) && id in db.live && db.live[id].state.Running?
    ensures Later(db, Die(db, id, now))
  {
    var job := db.live[id];
    var d1 := Move(db, id, Dead, false, false);
    MoveSane(db, id, Dead, false, false);
    MoveLater(db, id, Dead, false, false);
    var d2 := SettleGate(d1, id, job.gate, Gates.Lost, now);
    SettleSane(d1, id, job.gate, Gates.Lost, now);
    SettleLater(d1, id, job.gate, Gates.Lost, now);
    LaterTransitive(db, d1, d2);
    var d3 := FireHook(d2, id, job, now);
    HookSane(d2, id, job, now);
    HookLater(d2, id, job, now);
    LaterTransitive(db, d2, d3);
    CancelAllLater(d3, Cone(d3.live, id, {}));
    LaterTransitive(db, d3, Die(db, id, now));
  }

  lemma FailLater(db: Db, id: int, token: nat, retryable: bool, workerCap: int, runAt: int, now: int)
    requires Sane(db)
    ensures Later(db, Fail(db, id, token, retryable, workerCap, runAt, now))
  {
    SameTables(db, db);
    if Holds(db, id, token) {
      if ShouldRetry(db.live[id].attempt, RetryCap(db.live[id], workerCap), retryable) {
        PutLater(db, id, Retried(db.live[id], workerCap, runAt));
      } else {
        DieLater(db, id, now);
      }
    }
  }

  lemma {:induction false} ChildrenLater(db: Db, specs: seq<Spec>, tenant: string, gid: int, now: int)
    requires Sane(db)
    ensures Later(db, InsertChildren(db, specs, tenant, gid, now))
    decreases |specs|
  {
    SameTables(db, db);
    if specs != [] {
      var job := ChildJob(specs[0], tenant, gid, now);
      InsertSane(db, job);
      InsertLater(db, job);
      ChildrenLater(Insert(db, job), specs[1..], tenant, gid, now);
      LaterTransitive(db, Insert(db, job), InsertChildren(db, specs, tenant, gid, now));
    }
  }

  lemma ClaimLater(db: Db, id: int, now: int)
    requires Sane(db)
    ensures Later(db, Claim(db, id, now))
  {
  }

  lemma SweepLater(db: Db, id: int, now: int)
    requires Sane(db)
    ensures Later(db, SweepLease(db, id)) && Later(db, SweepWait(db, id, now)) && Later(db, SweepExhausted(db, id, now))
  {
    SameTables(db, db);
    if id in db.live {
      var job := db.live[id];
      if Exhausted(db, id) { FailLater(db, id, job.token.value, false, 0, now, now); }
      PutLater(db, id, TimedOut(job, now));
      MoveLater(db, id, Cancelled, false, false);
      PutLater(db, id, job.(state := Queued, token := None));
    }
  }

  lemma CancelLater(db: Db, id: int, cascade: bool)
    requires Sane(db)
    ensures Later(db, Cancel(db, id, cascade))
  {
    SameTables(db, db);
    if id in db.live {
      assert LiveRow(db, id, db.live[id]);
      var flagged := db.live[id].(cancelRequested := true);
      var d := if db.live[id].state.Running? then Put(db, id, flagged) else Move(db, id, Cancelled, false, false);
      if db.live[id].state.Running? {
        PutSane(db, id, flagged);
        PutLater(db, id, flagged);
      } else {
        MoveSane(db, id, Cancelled, false, false);
        MoveLater(db, id, Cancelled, false, false);
      }
      CancelAllLater(d, Cone(d.live, id, {}));
      LaterTransitive(db, d, Cascade(d, id));
    }
  }

  lemma SendLater(db: Db, tenant: string, key: string, now: int)
    requires Sane(db)
    ensures Later(db, Send(db, tenant, key, now))
  {
    var w := OldestWaiter(db.live, tenant, key, 0, db.nextId);
    if w.Some? {
      var d := Put(db, w.value, Woken(db.live[w.value], now));
      PutSaneSend(db, w.value, now);
      PutLater(db, w.value, Woken(db.live[w.value], now));
      SameTables(d, Send(db, tenant, key, now));
      LaterTransitive(db, d, Send(db, tenant, key, now));
    } else {
      SameTables(db, Send(db, tenant, key, now));
    }
  }

  lemma PutSaneSend(db: Db, id: int, now: int)
    requires Sane(db) && id in db.live && db.live[id].state.Waiting?
    ensures Sane(Put(db, id, Woken(db.live[id], now)))
  {
  }

  lemma WaitLater(db: Db, id: int, token: nat, tenant: string, key: string)
    requires Sane(db)
    ensures Later(db, Wait(db, id, token, tenant, key))
  {
    if Pending(db.signals, tenant, key, 0).None? && Holds(db, id, token) {
      PutLater(db, id, Parked(db.live[id], key));
    } else {
      SameTables(db, Wait(db, id, token, tenant, key));
    }
  }

  lemma FanOutLater(db: Db, specs: seq<Spec>, onComplete: Spec, tenant: string, policy: Gates.Policy, now: int)
    requires Sane(db)
    ensures Later(db, FanOut(db, specs, onComplete, tenant, policy, now))
  {
    SameTables(db, db);
    var d := OpenGate(db, onComplete, tenant, policy, |specs|);
    SameTables(db, d);
    assert Sane(d);
    ChildrenLater(d, specs, tenant, db.nextGate, now);
    LaterTransitive(db, d, InsertChildren(d, specs, tenant, db.nextGate, now));
  }

  lemma StepLater(db: Db, maxChain: nat, ev: Event)
    requires Sane(db)
    ensures Later(db, Step(db, maxChain, ev))
  {
    SameTables(db, db);
    match ev
    case OnSubmit(spec, ups, runAt, now) => InsertLater(db, Prepared(db, spec, ups, runAt, now));
    case OnFanOut(specs, onComplete, tenant, policy, now) => FanOutLater(db, specs, onComplete, tenant, policy, now);
    case OnClaim(id, now) => ClaimLater(db, id, now);
    case OnComplete(id, token, stop, skipped, now) =>
      if Holds(db, id, token) { CompleteLater(db, id, token, stop, skipped, now); }
    case OnFail(id, token, retryable, workerCap, retryAt, now) =>
      FailLater(db, id, token, retryable, workerCap, retryAt, now);
    case OnHeartbeat(id, token, now) =>
      if Holds(db, id, token) { PutLater(db, id, db.live[id].(beatAt := now)); }
    case OnSweepLease(id) => SweepLater(db, id, 0);
    case OnSweepExhausted(id, now) => SweepLater(db, id, now);
    case OnWait(id, token, tenant, key) => WaitLater(db, id, token, tenant, key);
    case OnSignal(tenant, key, now) => SendLater(db, tenant, key, now);
    case OnSweepWait(id, now) => SweepLater(db, id, now);
    case OnCancel(id, cascade) => CancelLater(db, id, cascade);
  }

  /** In every run the archive only grows, rows in it never change, and no job leaves both tables. */
  lemma {:induction false} RunLater(db: Db, maxChain: nat, evs: seq<Event>)
    requires Sane(db)
    ensures Later(db, Run(db, maxChain, evs))
    decreases |evs|
  {
    SameTables(db, db);
    if evs != [] {
      var d := Step(db, maxChain, evs[0]);
      StepSane(db, maxChain, evs[0]);
      StepLater(db, maxChain, evs[0]);
      RunLater(d, maxChain, evs[1..]);
      LaterTransitive(db, d, Run(d, maxChain, evs[1..]));
    }
  }

  /** A lease that is not current is never current again, so a report under it changes nothing, then
      or after any further run. */
  lemma StaleForever(db: Db, maxChain: nat, evs: seq<Event>, id: int, token: nat)
    requires Sane(db) && token < db.nextToken && !Holds(db, id, token)
    ensures var d := Run(db, maxChain, evs);
            && !Holds(d, id, token)
            && (forall stop, skipped, now :: Complete(d, id, token, stop, skipped, now) == d)
            && (forall retryable, cap, runAt, now :: Fail(d, id, token, retryable, cap, runAt, now) == d)
            && (forall now :: Heartbeat(d, id, token, now) == d)
  {
    var d := Run(db, maxChain, evs);
    RunSane(db, maxChain, evs);
    RunLater(db, maxChain, evs);
    HeldBefore(db, d, id, token);
  }

  lemma HeldBefore(db: Db, d: Db, id: int, token: nat)
    requires Sane(db) && Later(db, d) && token < db.nextToken
    ensures Holds(d, id, token) ==> Holds(db, id, token)
  {
  }

  // ---------------------------------------------------------------- the transition table

  function StateOf(db: Db, x: int): Option<State> {
    if x in db.live then Some(db.live[x].state) else if x in db.archive then Some(db.archive[x].state) else None
  }

  /** What one transaction may do to one job: nothing, create it submitted or queued, or move it one
      step along the table. */
  predicate Legal(before: Option<State>, after: Option<State>) {
    || after == before
    || (before.None? && after.Some? && (after.value.Submitted? || after.value.Queued?))
    || (before.Some? && after.Some? && after.value in Transitions(before.value))
  }

  lemma StateAfterInsert(db: Db, job: Job, x: int)
    requires Sane(db)
    ensures StateOf(db, db.nextId).None?
    ensures StateOf(Insert(db, job), x) == if x == db.nextId then Some(job.state) else StateOf(db, x)
  {
  }

  lemma StateAfterSettle(db: Db, child: int, gate: Option<int>, o: Gates.Outcome, now: int, x: int)
    requires Sane(db)
    ensures var after := StateOf(SettleGate(db, child, gate, o, now), x);
            after == StateOf(db, x) || (StateOf(db, x).None? && after == Some(Queued))
  {
  }

  lemma StateAfterContinue(db: Db, id: int, job: Job, now: int, x: int)
    requires Sane(db)
    ensures var after := StateOf(Continue(db, id, job, now), x);
            after == StateOf(db, x) || (StateOf(db, x).None? && after == Some(Queued))
  {
  }

  lemma StateAfterHook(db: Db, id: int, job: Job, now: int, x: int)
    requires Sane(db)
    ensures var after := StateOf(FireHook(db, id, job, now), x);
            after == StateOf(db, x) || (StateOf(db, x).None? && after == Some(Queued))
  {
  }

  lemma StateAfterDecrement(db: Db, up: int, now: int, x: int)
    requires Sane(db)
    ensures var after := StateOf(DecrementDeps(db, up, now), x);
            after == StateOf(db, x) || (StateOf(db, x) == Some(Submitted) && after == Some(Queued))
  {
  }

  lemma {:induction false} ConeWithin(live: map<int, Job>, root: int, seen: set<int>)
    requires seen <= live.Keys && forall x :: x in seen ==> live[x].ups != {}
    ensures Cone(live, root, seen) <= live.Keys
    ensures forall x :: x in Cone(live, root, seen) ==> live[x].ups != {}
    decreases |live.Keys - seen|
  {
    var more := Next(live, root, seen);
    if more != {} {
      Shrinks(live.Keys, seen, more);
      ConeWithin(live, root, seen + more);
    }
  }

  /** A cascade cancels live jobs that have upstreams, and touches no others. */
  lemma StateAfterCascade(db: Db, root: int, x: int)
    requires Sane(db)
    ensures var after := StateOf(Cascade(db, root), x);
            || after == StateOf(db, x)
            || (x in db.live && db.live[x].ups != {} && after == Some(Cancelled))
  {
    ConeWithin(db.live, root, {});
  }

  lemma CompleteLegal(db: Db, id: int, token: nat, stop: bool, skipped: bool, now: int, x: int)
    requires Sane(db) && Holds(db, id, token)
    ensures Legal(StateOf(db, x), StateOf(Complete(db, id, token, stop, skipped, now), x))
    ensures StateOf(Complete(db, id, token, stop, skipped, now), id) == Some(Succeeded)
  {
    var job := db.live[id];
    var d1 := Move(db, id, Succeeded, skipped, stop);
    MoveSane(db, id, Succeeded, skipped, stop);
    var d2 := if stop then d1 else Continue(d1, id, job, now);
    ContinueSane(d1, id, job, now);
    var o := if skipped then Gates.Skipped else Gates.Won;
    var d3 := DecrementDeps(d2, id, now);
    DecrementSane(d2, id, now);
    assert StateOf(d1, id) == Some(Succeeded);
    forall y
      ensures StateOf(SettleGate(d3, id, job.gate, o, now), y) == StateOf(d1, y)
           || (StateOf(d1, y).None? && StateOf(SettleGate(d3, id, job.gate, o, now), y) == Some(Queued))
           || (StateOf(d1, y) == Some(Submitted) && StateOf(SettleGate(d3, id, job.gate, o, now), y) == Some(Queued))
    {
      StateAfterContinue(d1, id, job, now, y);
      StateAfterDecrement(d2, id, now, y);
      StateAfterSettle(d3, id, job.gate, o, now, y);
    }
  }

  lemma DieLegal(db: Db, id: int, now: int, x: int)
    requires Sane(db) && id in db.live && db.live[id].state.Running?
    ensures Legal(StateOf(db, x), StateOf(Die(db, id, now), x))
    ensures StateOf(Die(db, id, now), id) == Some(Dead)
  {
    var job := db.live[id];
    var d1 := Move(db, id, Dead, false, false);
    MoveSane(db, id, Dead, false, false);
    var d2 := SettleGate(d1, id, job.gate, Gates.Lost, now);
    SettleSane(d1, id, job.gate, Gates.Lost, now);
    var d3 := FireHook(d2, id, job, now);
    HookSane(d2, id, job, now);
    DieMoves(db, d1, d2, d3, id, now, x);
    DieMoves(db, d1, d2, d3, id, now, id);
  }

  /** The steps of a death, for one job: fresh jobs have no upstreams, so the cascade spares them. */
  lemma DieMoves(db: Db, d1: Db, d2: Db, d3: Db, id: int, now: int, x: int)
    requires Sane(db) && id in db.live && d1 == Move(db, id, Dead, false, false) && Sane(d1)
    requires d2 == SettleGate(d1, id, db.live[id].gate, Gates.Lost, now) && Sane(d2)
    requires d3 == FireHook(d2, id, db.live[id], now) && Sane(d3)
    ensures var after := StateOf(Cascade(d3, id), x);
            || after == StateOf(d1, x)
            || (StateOf(d1, x).None? && after == Some(Queued))
            || (x in d1.live && after == Some(Cancelled))
  {
    StateAfterSettle(d1, id, db.live[id].gate, Gates.Lost, now, x);
    StateAfterHook(d2, id, db.live[id], now, x);
    StateAfterCascade(d3, id, x);
    if x in d3.live && x !in d1.live {
      FreshHaveNoUpstreams(d1, d2, d3, id, db.live[id], now, x);
    }
  }

  lemma FreshHaveNoUpstreams(d1: Db, d2: Db, d3: Db, id: int, job: Job, now: int, x: int)
    requires d2 == SettleGate(d1, id, job.gate, Gates.Lost, now) && d3 == FireHook(d2, id, job, now)
    requires x in d3.live && x !in d1.live
    ensures d3.live[x].ups == {}
  {
  }

  lemma {:induction false} ChildrenLegal(db: Db, specs: seq<Spec>, tenant: string, gid: int, now: int, x: int)
    requires Sane(db)
    ensures var after := StateOf(InsertChildren(db, specs, tenant, gid, now), x);
            after == StateOf(db, x) || (StateOf(db, x).None? && after == Some(Queued))
    decreases |specs|
  {
    if specs != [] {
      var job := ChildJob(specs[0], tenant, gid, now);
      InsertSane(db, job);
      StateAfterInsert(db, job, x);
      ChildrenLegal(Insert(db, job), specs[1..], tenant, gid, now, x);
    }
  }

  lemma CancelLegal(db: Db, id: int, cascade: bool, x: int)
    requires Sane(db)
    ensures Legal(StateOf(db, x), StateOf(Cancel(db, id, cascade), x))
  {
    if id in db.live {
      assert LiveRow(db, id, db.live[id]);
      var flagged := db.live[id].(cancelRequested := true);
      var d := if db.live[id].state.Running? then Put(db, id, flagged) else Move(db, id, Cancelled, false, false);
      if db.live[id].state.Running? { PutSane(db, id, flagged); } else { MoveSane(db, id, Cancelled, false, false); }
      StateAfterCascade(d, id, x);
      if x in d.live { assert LiveRow(d, x, d.live[x]); }
    }
  }

  lemma FailLegal(db: Db, id: int, token: nat, retryable: bool, workerCap: int, runAt: int, now: int, x: int)
    requires Sane(db)
    ensures Legal(StateOf(db, x), StateOf(Fail(db, id, token, retryable, workerCap, runAt, now), x))
  {
    if Holds(db, id, token) && !ShouldRetry(db.live[id].attempt, RetryCap(db.live[id], workerCap), retryable) {
      DieLegal(db, id, now, x);
    }
  }

  lemma SendLegal(db: Db, tenant: string, key: string, now: int, x: int)
    ensures Legal(StateOf(db, x), StateOf(Send(db, tenant, key, now), x))
  {
  }

  lemma FanOutLegal(db: Db, specs: seq<Spec>, onComplete: Spec, tenant: string, policy: Gates.Policy, now: int, x: int)
    requires Sane(db)
    ensures Legal(StateOf(db, x), StateOf(FanOut(db, specs, onComplete, tenant, policy, now), x))
  {
    var d := OpenGate(db, onComplete, tenant, policy, |specs|);
    assert Sane(d);
    ChildrenLegal(d, specs, tenant, db.nextGate, now, x);
  }

  lemma UpdatesLegal(db: Db, id: int, token: nat, tenant: string, key: string, now: int, x: int)
    ensures Legal(StateOf(db, x), StateOf(Claim(db, id, now), x))
    ensures Legal(StateOf(db, x), StateOf(Heartbeat(db, id, token, now), x))
    ensures Legal(StateOf(db, x), StateOf(SweepLease(db, id), x))
    ensures Legal(StateOf(db, x), StateOf(SweepWait(db, id, now), x))
    ensures Legal(StateOf(db, x), StateOf(Wait(db, id, token, tenant, key), x))
  {
  }

  /** Every transaction moves every job along the transition table, at most one step. */
  lemma StepLegal(db: Db, maxChain: nat, ev: Event, x: int)
    requires Sane(db)
    ensures Legal(StateOf(db, x), StateOf(Step(db, maxChain, ev), x))
  {
    match ev
    case OnSubmit(spec, ups, runAt, now) => StateAfterInsert(db, Prepared(db, spec, ups, runAt, now), x);
    case OnFanOut(specs, onComplete, tenant, policy, now) =>
      FanOutLegal(db, specs, onComplete, tenant, policy, now, x);
    case OnComplete(id, token, stop, skipped, now) =>
      if Holds(db, id, token) { CompleteLegal(db, id, token, stop, skipped, now, x); }
    case OnFail(id, token, retryable, workerCap, retryAt, now) =>
      FailLegal(db, id, token, retryable, workerCap, retryAt, now, x);
    case OnSweepExhausted(id, now) =>
      if Exhausted(db, id) { FailLegal(db, id, db.live[id].token.value, false, 0, now, now, x); }
    case OnSignal(tenant, key, now) => SendLegal(db, tenant, key, now, x);
    case OnCancel(id, cascade) => CancelLegal(db, id, cascade, x);
    case OnWait(id, token, tenant, key) => UpdatesLegal(db, id, token, tenant, key, 0, x);
    case OnClaim(id, now) => UpdatesLegal(db, id, 0, "", "", now, x);
    case OnHeartbeat(id, token, now) => UpdatesLegal(db, id, token, "", "", now, x);
    case OnSweepLease(id) => UpdatesLegal(db, id, 0, "", "", 0, x);
    case OnSweepWait(id, now) => UpdatesLegal(db, id, 0, "", "", now, x);
  }

  /** The two sweeps between them end every lease: an exhausted one by death, any other by going back
      to the queue or by the cancel that was asked for. */
  lemma SweepEndsEveryLease(db: Db, id: int, now: int)
    requires Sane(db) && id in db.live && db.live[id].state.Running?
    ensures var after := StateOf(SweepLease(SweepExhausted(db, id, now), id), id);
            after == Some(if db.live[id].cancelRequested then Cancelled
                          else if db.live[id].attempt < db.live[id].spec.maxAttempts then Queued
                          else Dead)
  {
    assert LiveRow(db, id, db.live[id]);
    if Exhausted(db, id) {
      DieLegal(db, id, now, id);
      DieSane(db, id, now);
      var d := Die(db, id, now);
      assert id in d.live ==> LiveRow(d, id, d.live[id]);
    }
  }
}
