/**
 * The links of `JobLinks` through every transaction, and what they mean for whole runs.
 */
module JobEffects {
  import opened Claims
  import opened Numbers
  import opened Jobs
  import opened JobSafety
  import opened JobLinks
  import JobMoves
  import Gates

  // ---------------------------------------------------------------- statements

  lemma LinkedSame(db: Db, d: Db, o: Owed)
    requires Linked(db, o) && o.unborn == {} && d.live == db.live && d.archive == db.archive && d.gates == db.gates
    requires d.nextId == db.nextId && d.nextGate == db.nextGate && d.log.chains == db.log.chains
    requires d.log.bumped == db.log.bumped && d.log.continued == db.log.continued && d.log.hooked == db.log.hooked
    requires d.log.hookOf == db.log.hookOf && d.log.branchOf == db.log.branchOf
    ensures Linked(d, o)
  {
    OnceSame(db, d, o);
    GatedSame(db, d, o);
    ChainedSame(db, d, o);
    SourcedSame(db, d, o);
  }

  lemma LinkedPut(db: Db, id: int, job: Job)
    requires Linked(db, NOTHING) && id in db.live && job.gate == db.live[id].gate && SameLink(job, db.live[id])
    ensures Linked(Put(db, id, job), NOTHING)
  {
    var d := Put(db, id, job);
    OnceSame(db, d, NOTHING);
    GatedSame(db, d, NOTHING);
    ChainedSame(db, d, NOTHING);
    SourcedSame(db, d, NOTHING);
  }

  lemma LinkedDecrement(db: Db, up: int, now: int, o: Owed)
    requires Linked(db, o) && o.unborn == {}
    ensures Linked(DecrementDeps(db, up, now), o)
  {
    var d := DecrementDeps(db, up, now);
    OnceSame(db, d, o);
    GatedSame(db, d, o);
    ChainedSame(db, d, o);
    SourcedSame(db, d, o);
  }

  lemma LinkedInsert(db: Db, job: Job, o: Owed)
    requires Sane(db) && Linked(db, o) && o.unborn == {} && job.gate.None? && job.past.origin.OfClient?
    ensures Linked(Insert(db, job), o)
  {
    var d := Insert(db, job);
    OnceSame(db, d, o);
    GatedSame(db, d, o);
    ChainedInsert(db, job, o);
    SourcedSame(db, d, o);
  }

  lemma LinkedMove(db: Db, id: int, final: State, skipped: bool, stopped: bool)
    requires Sane(db) && Linked(db, NOTHING) && id in db.live
    ensures Linked(Move(db, id, final, skipped, stopped), AllOf(id))
  {
    OnceMove(db, id, final, skipped, stopped);
    GatedMove(db, id, final, skipped, stopped);
    ChainedMove(db, id, final, skipped, stopped);
    SourcedMove(db, id, final, skipped, stopped);
  }

  lemma LinkedForgive(db: Db, id: int, o: Owed, p: Owed)
    requires Linked(db, o) && id in db.archive && id !in db.live && p.unborn == o.unborn && p.gate == o.gate
    requires p.branch == o.branch
    requires p.bump <= o.bump <= {id} && p.cont <= o.cont <= {id} && p.hook <= o.hook <= {id}
    requires WantsBump(db.archive[id]) ==> p.bump == o.bump
    requires WantsNext(db.archive[id]) ==> p.cont == o.cont
    requires WantsHook(db.archive[id]) ==> p.hook == o.hook
    ensures Linked(db, p)
  {
    OnceForgive(db, id, o, p);
    GatedForgive(db, id, o, p);
    ChainedForgive(db, id, o, p);
    SourcedForgive(db, id, o, p);
  }

  lemma LinkedCancelAll(db: Db, ids: set<int>)
    requires Sane(db) && Linked(db, NOTHING)
    ensures Linked(CancelAll(db, ids), NOTHING)
  {
    OnceCancelAll(db, ids);
    GatedCancelAll(db, ids);
    ChainedCancelAll(db, ids);
    SourcedCancelAll(db, ids);
  }

  lemma GatedPart(db: Db, o: Owed, p: Owed)
    requires Gated(db, o) && p.bump == o.bump && p.unborn == o.unborn && p.gate == o.gate
    ensures Gated(db, p)
  {
  }

  lemma ChainedPart(db: Db, o: Owed, p: Owed)
    requires Chained(db, o) && p.cont == o.cont
    ensures Chained(db, p)
  {
    forall c | c in db.log.chains
      ensures ChainOk(db, c, db.log.chains[c], p)
    {
      var links := db.log.chains[c];
      assert ChainOk(db, c, links, o);
      forall i | 0 <= i < |links|
        ensures LinkOk(db, c, links, i, p)
      {
        assert LinkOk(db, c, links, i, o);
      }
    }
  }

  // ---------------------------------------------------------------- a finished job pays what it owes

  lemma LinkedContinue(db: Db, id: int, job: Job, now: int, o: Owed)
    requires Sane(db) && Linked(db, o) && o.unborn == {} && o.cont == {id} && id in db.archive && id !in db.live
    requires WantsNext(db.archive[id]) && SameLink(job, db.archive[id])
    ensures Linked(Continue(db, id, job, now), o.(cont := {}))
  {
    var e := Continue(db, id, job, now);
    GatedSame(db, e, o);
    GatedPart(e, o, o.(cont := {}));
    ChainedContinue(db, id, job, now, o);
    OnceContinue(db, e, id, o);
    SourcedSame(db, e, o);
    SourcedPart(e, o, o.(cont := {}));
  }

  lemma ChainedContinue(db: Db, id: int, job: Job, now: int, o: Owed)
    requires Sane(db) && Chained(db, o) && o.cont == {id} && id in db.archive && id !in db.live
    requires WantsNext(db.archive[id]) && SameLink(job, db.archive[id])
    ensures Chained(Continue(db, id, job, now), o.(cont := {}))
  {
    var next := NextJob(job, id, now);
    ChainedFollow(db, next, id, o);
    ChainedSame(Follow(db, next, job.past.chain), Continue(db, id, job, now), o.(cont := {}));
  }

  lemma LinkedHook(db: Db, id: int, job: Job, now: int, o: Owed)
    requires Sane(db) && Linked(db, o) && o.unborn == {} && o.hook == {id} && id in db.archive
    requires WantsHook(db.archive[id]) && SameLink(job, db.archive[id])
    ensures Linked(FireHook(db, id, job, now), o.(hook := {}))
  {
    var hook := HookJob(job, id, now);
    var d := Insert(db, hook);
    var e := FireHook(db, id, job, now);
    GatedSame(db, e, o);
    GatedPart(e, o, o.(hook := {}));
    ChainedInsert(db, hook, o);
    ChainedSame(d, e, o);
    ChainedPart(e, o, o.(hook := {}));
    OnceHook(db, e, id, o);
    SourcedHook(db, id, job, now, o);
  }

  /** A child that is not counted yet leaves its gate with room. */
  lemma GateHasRoom(db: Db, id: int, gid: int, o: Owed)
    requires Gated(db, o) && o.unborn == {} && o.bump == {id} && id in db.archive && id !in db.live
    requires db.archive[id].gate == Some(gid) && gid in db.gates
    ensures var g := db.gates[gid].gate;
            Gates.Settled(g) && g.progress.completed < g.progress.expected
  {
    var row := db.gates[gid];
    assert Enrolled(db, id, db.archive[id]) && GateOk(db, gid, row, o) && ChildOk(db, gid, row, id, o);
    StillRoom(row.settled, row.children, id);
  }

  lemma LinkedBump(db: Db, id: int, gid: int, oc: Gates.Outcome, o: Owed)
    requires Linked(db, o) && o.unborn == {} && o.branch == {} && o.bump == {id} && id in db.archive && id !in db.live
    requires WantsBump(db.archive[id]) && db.archive[id].gate == Some(gid) && gid in db.gates && Matches(db.archive[id], oc)
    ensures Linked(BumpGate(db, id, gid, oc),
                   o.(bump := {}, branch := if Gates.Resolves(db.gates[gid].gate, oc) then {gid} else {}))
  {
    var d := BumpGate(db, id, gid, oc);
    var p := o.(bump := {});
    var q := p.(branch := if Gates.Resolves(db.gates[gid].gate, oc) then {gid} else {});
    GateHasRoom(db, id, gid, o);
    GatedBump(db, gid, id, oc, o);
    GatedPart(d, p, q);
    OnceBump(db, d, id, o);
    OncePart(d, p, q);
    ChainedSame(db, d, o);
    ChainedPart(d, o, q);
    SourcedBump(db, id, gid, oc, o);
    SourcedPart(d, o.(branch := q.branch), q);
  }

  lemma LinkedSettle(db: Db, id: int, gate: Option<int>, oc: Gates.Outcome, now: int, o: Owed)
    requires Sane(db) && Linked(db, o) && o.unborn == {} && o.branch == {} && id in db.archive && id !in db.live
    requires o.bump == {id} && o.cont <= {id} && o.hook <= {id}
    requires db.archive[id].gate == gate && Ran(db.archive[id]) && Matches(db.archive[id], oc)
    ensures Linked(SettleGate(db, id, gate, oc, now), o.(bump := {}))
  {
    if gate.None? {
      LinkedForgive(db, id, o, o.(bump := {}));
    } else {
      assert Enrolled(db, id, db.archive[id]);
      LinkedBump(db, id, gate.value, oc, o);
      LinkedFire(db, id, gate.value, oc, now, o);
    }
  }

  /** The tail of `_settle_gate`: on resolution the branch's job is inserted. */
  lemma LinkedFire(db: Db, id: int, gid: int, oc: Gates.Outcome, now: int, o: Owed)
    requires Sane(db) && gid in db.gates && o.unborn == {} && o.branch == {}
    requires Linked(BumpGate(db, id, gid, oc),
                    o.(bump := {}, branch := if Gates.Resolves(db.gates[gid].gate, oc) then {gid} else {}))
    ensures Linked(SettleGate(db, id, Some(gid), oc, now), o.(bump := {}))
  {
    var row := db.gates[gid];
    var d := BumpGate(db, id, gid, oc);
    if Gates.Resolves(row.gate, oc) {
      assert Sane(d);
      var branch := Branch(row, Gates.Bump(row.gate, oc).branch);
      if branch.Some? {
        InsertBranch(d, gid, BranchJob(branch.value, gid, now), o.(bump := {}));
      } else {
        SkipBranch(d, gid, o.(bump := {}));
      }
    }
  }

  lemma InsertBranch(db: Db, gid: int, job: Job, o: Owed)
    requires Sane(db) && Linked(db, o.(branch := {gid})) && o.unborn == {} && o.branch == {} && gid in db.gates
    requires Materializes(db.gates[gid]) && job.spec == BranchSpec(db.gates[gid])
    requires job.past.origin == OfGate(gid) && job.gate.None?
    ensures Linked(Insert(db, job), o)
  {
    var d, p := Insert(db, job), o.(branch := {gid});
    OnceSame(db, d, p);
    OncePart(d, p, o);
    GatedSame(db, d, p);
    GatedPart(d, p, o);
    ChainedInsert(db, job, p);
    ChainedPart(d, p, o);
    SourcedFire(db, gid, job, p);
    assert p.(branch := {}) == o;
  }

  lemma SkipBranch(db: Db, gid: int, o: Owed)
    requires Linked(db, o.(branch := {gid})) && o.branch == {} && gid in db.gates && !Materializes(db.gates[gid])
    ensures Linked(db, o)
  {
    var p := o.(branch := {gid});
    OncePart(db, p, o);
    GatedPart(db, p, o);
    ChainedPart(db, p, o);
    SourcedNoBranch(db, gid, p);
    assert p.(branch := {}) == o;
  }

  // ---------------------------------------------------------------- transactions

  lemma CompleteLinked(db: Db, id: int, token: nat, stop: bool, skipped: bool, now: int)
    requires Sane(db) && Linked(db, NOTHING)
    ensures Linked(Complete(db, id, token, stop, skipped, now), NOTHING)
  {
    if Holds(db, id, token) {
      var job := db.live[id];
      var d1 := Move(db, id, Succeeded, skipped, stop);
      MoveSane(db, id, Succeeded, skipped, stop);
      LinkedMove(db, id, Succeeded, skipped, stop);
      var o := AllOf(id).(hook := {});
      LinkedForgive(d1, id, AllOf(id), o);
      var d2 := if stop then d1 else Continue(d1, id, job, now);
      assert LiveRow(db, id, job);
      ContinueSane(d1, id, job, now);
      if WantsNext(d1.archive[id]) {
        LinkedContinue(d1, id, job, now, o);
      } else {
        LinkedForgive(d1, id, o, o.(cont := {}));
      }
      var d3 := DecrementDeps(d2, id, now);
      DecrementSane(d2, id, now);
      LinkedDecrement(d2, id, now, o.(cont := {}));
      assert d3.archive == d1.archive && id !in d3.live;
      LinkedSettle(d3, id, job.gate, if skipped then Gates.Skipped else Gates.Won, now, o.(cont := {}));
      assert o.(cont := {}, bump := {}) == NOTHING;
    }
  }

  lemma DieLinked(db: Db, id: int, now: int)
    requires Sane(db) && Linked(db, NOTHING) && id in db.live && db.live[id].state.Running?
    ensures Linked(Die(db, id, now), NOTHING)
  {
    var job := db.live[id];
    var d1 := Move(db, id, Dead, false, false);
    assert LiveRow(db, id, job);
    MoveSane(db, id, Dead, false, false);
    LinkedMove(db, id, Dead, false, false);
    var o := AllOf(id).(cont := {});
    LinkedForgive(d1, id, AllOf(id), o);
    var d2 := SettleGate(d1, id, job.gate, Gates.Lost, now);
    SettleSane(d1, id, job.gate, Gates.Lost, now);
    LinkedSettle(d1, id, job.gate, Gates.Lost, now, o);
    DieRest(db, d1, d2, id, job, now);
  }

  lemma DieRest(db: Db, d1: Db, d2: Db, id: int, job: Job, now: int)
    requires d2 == SettleGate(d1, id, job.gate, Gates.Lost, now) && Sane(d1) && Sane(d2)
    requires Linked(d2, NOTHING.(hook := {id})) && id in d1.archive && id !in d1.live && SameLink(job, d1.archive[id])
    requires d1.archive[id].state.Dead?
    ensures Linked(Cascade(FireHook(d2, id, job, now), id), NOTHING)
  {
    assert d2.archive == d1.archive && id !in d2.live;
    var d3 := FireHook(d2, id, job, now);
    HookSane(d2, id, job, now);
    if WantsHook(d2.archive[id]) {
      LinkedHook(d2, id, job, now, NOTHING.(hook := {id}));
    } else {
      LinkedForgive(d2, id, NOTHING.(hook := {id}), NOTHING);
    }
    LinkedCancelAll(d3, Cone(d3.live, id, {}));
  }

  lemma FailLinked(db: Db, id: int, token: nat, retryable: bool, workerCap: int, runAt: int, now: int)
    requires Sane(db) && Linked(db, NOTHING)
    ensures Linked(Fail(db, id, token, retryable, workerCap, runAt, now), NOTHING)
  {
    if Holds(db, id, token) {
      if ShouldRetry(db.live[id].attempt, RetryCap(db.live[id], workerCap), retryable) {
        LinkedPut(db, id, Retried(db.live[id], workerCap, runAt));
      } else {
        DieLinked(db, id, now);
      }
    }
  }

  lemma CancelledLinked(db: Db, id: int)
    requires Sane(db) && Linked(db, NOTHING) && id in db.live
    ensures Linked(Move(db, id, Cancelled, false, false), NOTHING)
  {
    var d := Move(db, id, Cancelled, false, false);
    LinkedMove(db, id, Cancelled, false, false);
    LinkedForgive(d, id, AllOf(id), NOTHING);
  }

  lemma SweepLinked(db: Db, id: int, now: int)
    requires Sane(db) && Linked(db, NOTHING)
    ensures Linked(SweepLease(db, id), NOTHING) && Linked(SweepWait(db, id, now), NOTHING)
    ensures Linked(SweepExhausted(db, id, now), NOTHING)
  {
    if id in db.live {
      var job := db.live[id];
      if Exhausted(db, id) { FailLinked(db, id, job.token.value, false, 0, now, now); }
      LinkedPut(db, id, TimedOut(job, now));
      CancelledLinked(db, id);
      LinkedPut(db, id, job.(state := Queued, token := None));
    }
  }

  lemma CancelLinked(db: Db, id: int, cascade: bool)
    requires Sane(db) && Linked(db, NOTHING)
    ensures Linked(Cancel(db, id, cascade), NOTHING)
  {
    if id in db.live {
      assert LiveRow(db, id, db.live[id]);
      var flagged := db.live[id].(cancelRequested := true);
      var d := if db.live[id].state.Running? then Put(db, id, flagged) else Move(db, id, Cancelled, false, false);
      if db.live[id].state.Running? {
        PutSane(db, id, flagged);
        LinkedPut(db, id, flagged);
      } else {
        MoveSane(db, id, Cancelled, false, false);
        CancelledLinked(db, id);
      }
      LinkedCancelAll(d, Cone(d.live, id, {}));
    }
  }

  lemma ChildLinked(db: Db, job: Job, n: nat, gid: int)
    requires Sane(db) && n > 0 && Linked(db, NOTHING.(unborn := IdRange(db.nextId, n), gate := gid))
    requires gid in db.gates && IdRange(db.nextId, n) <= db.gates[gid].children
    requires IsLive(job.state) && job.gate == Some(gid) && job.past.origin.OfClient?
    ensures Linked(Insert(db, job), NOTHING.(unborn := IdRange(db.nextId + 1, n - 1), gate := gid))
  {
    var o := NOTHING.(unborn := IdRange(db.nextId, n), gate := gid);
    var p := o.(unborn := IdRange(db.nextId + 1, n - 1));
    var d := Insert(db, job);
    GatedChild(db, job, n, o);
    OnceSame(db, d, o);
    OncePart(d, o, p);
    ChainedInsert(db, job, o);
    ChainedPart(d, o, p);
    SourcedSame(db, d, o);
    SourcedPart(d, o, p);
  }

  lemma {:induction false} ChildrenLinked(db: Db, specs: seq<Spec>, tenant: string, gid: int, now: int)
    requires Sane(db) && Linked(db, NOTHING.(unborn := IdRange(db.nextId, |specs|), gate := gid))
    requires gid in db.gates && IdRange(db.nextId, |specs|) <= db.gates[gid].children
    ensures Linked(InsertChildren(db, specs, tenant, gid, now), NOTHING.(gate := gid))
    decreases |specs|
  {
    if specs != [] {
      var job := ChildJob(specs[0], tenant, gid, now);
      InsertSane(db, job);
      ChildLinked(db, job, |specs|, gid);
      ChildrenLinked(Insert(db, job), specs[1..], tenant, gid, now);
    }
  }

  lemma OncePart(db: Db, o: Owed, p: Owed)
    requires Once(db, o) && p.bump == o.bump && p.cont == o.cont && p.hook == o.hook
    ensures Once(db, p)
  {
    forall x
      ensures EffectsOf(db, x, p)
    {
      assert EffectsOf(db, x, o);
    }
  }

  lemma FanOutLinked(db: Db, specs: seq<Spec>, onComplete: Spec, tenant: string, policy: Gates.Policy, now: int)
    requires Sane(db) && Linked(db, NOTHING)
    ensures Linked(FanOut(db, specs, onComplete, tenant, policy, now), NOTHING)
  {
    if specs != [] {
      var d := OpenGate(db, onComplete, tenant, policy, |specs|);
      var o := NOTHING.(unborn := IdRange(db.nextId, |specs|), gate := db.nextGate);
      GatedOpen(db, onComplete, tenant, policy, |specs|);
      OnceSame(db, d, NOTHING);
      OncePart(d, NOTHING, o);
      ChainedSame(db, d, NOTHING);
      ChainedPart(d, NOTHING, o);
      SourcedOpen(db, onComplete, tenant, policy, |specs|);
      SourcedPart(d, NOTHING, o);
      assert Sane(d);
      ChildrenLinked(d, specs, tenant, db.nextGate, now);
      Settle(InsertChildren(d, specs, tenant, db.nextGate, now), db.nextGate);
    }
  }

  /** With every child born it does not matter which gate was opened last. */
  lemma Settle(db: Db, gid: int)
    requires Linked(db, NOTHING.(gate := gid))
    ensures Linked(db, NOTHING)
  {
    OncePart(db, NOTHING.(gate := gid), NOTHING);
    ChainedPart(db, NOTHING.(gate := gid), NOTHING);
    SourcedPart(db, NOTHING.(gate := gid), NOTHING);
    forall g | g in db.gates
      ensures GateOk(db, g, db.gates[g], NOTHING)
    {
      assert GateOk(db, g, db.gates[g], NOTHING.(gate := gid));
      forall c | c in db.gates[g].children
        ensures ChildOk(db, g, db.gates[g], c, NOTHING)
      {
        assert ChildOk(db, g, db.gates[g], c, NOTHING.(gate := gid));
      }
    }
  }

  lemma SendLinked(db: Db, tenant: string, key: string, now: int)
    requires Linked(db, NOTHING)
    ensures Linked(Send(db, tenant, key, now), NOTHING)
  {
    var w := OldestWaiter(db.live, tenant, key, 0, db.nextId);
    if w.Some? {
      LinkedPut(db, w.value, Woken(db.live[w.value], now));
      LinkedSame(Put(db, w.value, Woken(db.live[w.value], now)), Send(db, tenant, key, now), NOTHING);
    } else {
      LinkedSame(db, Send(db, tenant, key, now), NOTHING);
    }
  }

  lemma WaitLinked(db: Db, id: int, token: nat, tenant: string, key: string)
    requires Linked(db, NOTHING)
    ensures Linked(Wait(db, id, token, tenant, key), NOTHING)
  {
    if Pending(db.signals, tenant, key, 0).None? && Holds(db, id, token) {
      LinkedPut(db, id, Parked(db.live[id], key));
    } else {
      LinkedSame(db, Wait(db, id, token, tenant, key), NOTHING);
    }
  }

  lemma ClaimLinked(db: Db, id: int, now: int)
    requires Linked(db, NOTHING)
    ensures Linked(Claim(db, id, now), NOTHING)
  {
    if id in db.live && db.live[id].state.Queued? && db.live[id].runAt <= now {
      LinkedPut(db, id, Claimed(db.live[id], db.nextToken, now));
      LinkedSame(Put(db, id, Claimed(db.live[id], db.nextToken, now)), Claim(db, id, now), NOTHING);
    }
  }

  lemma StepLinked(db: Db, maxChain: nat, ev: Event)
    requires Sane(db) && Linked(db, NOTHING)
    ensures Linked(Step(db, maxChain, ev), NOTHING)
  {
    match ev
    case OnSubmit(spec, ups, runAt, now) => LinkedInsert(db, Prepared(db, spec, ups, runAt, now), NOTHING);
    case OnFanOut(specs, onComplete, tenant, policy, now) => FanOutLinked(db, specs, onComplete, tenant, policy, now);
    case OnClaim(id, now) => ClaimLinked(db, id, now);
    case OnComplete(id, token, stop, skipped, now) => CompleteLinked(db, id, token, stop, skipped, now);
    case OnFail(id, token, retryable, workerCap, retryAt, now) =>
      FailLinked(db, id, token, retryable, workerCap, retryAt, now);
    case OnHeartbeat(id, token, now) =>
      if Holds(db, id, token) { LinkedPut(db, id, db.live[id].(beatAt := now)); }
    case OnSweepLease(id) => SweepLinked(db, id, 0);
    case OnSweepExhausted(id, now) => SweepLinked(db, id, now);
    case OnWait(id, token, tenant, key) => WaitLinked(db, id, token, tenant, key);
    case OnSignal(tenant, key, now) => SendLinked(db, tenant, key, now);
    case OnSweepWait(id, now) => SweepLinked(db, id, now);
    case OnCancel(id, cascade) => CancelLinked(db, id, cascade);
  }

  lemma {:induction false} RunLinked(db: Db, maxChain: nat, evs: seq<Event>)
    requires Sane(db) && Linked(db, NOTHING)
    ensures Linked(Run(db, maxChain, evs), NOTHING)
    decreases |evs|
  {
    if evs != [] {
      StepSane(db, maxChain, evs[0]);
      StepLinked(db, maxChain, evs[0]);
      RunLinked(Step(db, maxChain, evs[0]), maxChain, evs[1..]);
    }
  }

  lemma FreshLinked()
    ensures Sane(Fresh()) && Linked(Fresh(), NOTHING)
  {
  }

  // ---------------------------------------------------------------- what it means

  /** In every run, with whatever stale reports, sweeps and cancels: a job bumps its gate, continues
      its chain and fires its hook at most once, and it does so exactly when it ended that way. */
  lemma EffectsExactlyOnce(maxChain: nat, evs: seq<Event>, x: int)
    ensures var db := Run(Fresh(), maxChain, evs);
            && db.log.bumped[x] == One(x in db.archive && WantsBump(db.archive[x]))
            && db.log.continued[x] == One(x in db.archive && WantsNext(db.archive[x]))
            && db.log.hooked[x] == One(x in db.archive && WantsHook(db.archive[x]))
  {
    FreshLinked();
    RunLinked(Fresh(), maxChain, evs);
    assert EffectsOf(Run(Fresh(), maxChain, evs), x, NOTHING);
  }

  /** In every run: a gate's counts are its children that ran to an end, it has fired exactly when its
      policy was met or the last child came in, and the branch it took is its policy on the counts as
      they are now, so also on the final ones. */
  lemma GatesCountChildren(maxChain: nat, evs: seq<Event>, g: int)
    ensures var db := Run(Fresh(), maxChain, evs);
            g in db.gates ==>
              var row := db.gates[g];
              && RowOk(row)
              && (forall c :: c in row.settled <==>
                    c in row.children && c in db.archive && Ran(db.archive[c]))
              && (forall c :: c in row.won <==>
                    c in row.children && c in db.archive && db.archive[c].state.Succeeded? && !db.archive[c].past.skipped)
              && (forall c :: c in row.lost <==> c in row.children && c in db.archive && db.archive[c].state.Dead?)
  {
    var db := Run(Fresh(), maxChain, evs);
    FreshLinked();
    RunLinked(Fresh(), maxChain, evs);
    if g in db.gates {
      assert GateOk(db, g, db.gates[g], NOTHING);
      assert forall c :: c in db.gates[g].children ==> ChildOk(db, g, db.gates[g], c, NOTHING);
    }
  }

  /** Once every child ran to an end the gate has fired. */
  lemma AllChildrenRanMeansFired(maxChain: nat, evs: seq<Event>, g: int)
    ensures var db := Run(Fresh(), maxChain, evs);
            g in db.gates && db.gates[g].settled == db.gates[g].children ==> db.gates[g].gate.fired
  {
    GatesCountChildren(maxChain, evs, g);
  }

  /** Cancelling a child does not settle it. In every run a gate with a cancelled child has fired exactly
      when it asks for a quorum and enough children won, and then it took the success branch; a gate
      that wants all its children never fires again. */
  lemma CancelledChildNeedsQuorum(maxChain: nat, evs: seq<Event>, g: int, c: int)
    ensures var db := Run(Fresh(), maxChain, evs);
            g in db.gates && c in db.gates[g].children && c in db.archive && db.archive[c].state.Cancelled? ==>
              var row := db.gates[g];
              && (row.gate.fired <==> row.gate.policy.Quorum? && row.settled != {}
                                      && |row.won| >= Min(row.gate.policy.n, |row.children|))
              && (row.gate.fired ==> row.gate.branch)
  {
    var db := Run(Fresh(), maxChain, evs);
    GatesCountChildren(maxChain, evs, g);
    if g in db.gates && c in db.gates[g].children && c in db.archive && db.archive[c].state.Cancelled? {
      StillRoom(db.gates[g].settled, db.gates[g].children, c);
      assert |db.gates[g].settled| == 0 <==> db.gates[g].settled == {};
    }
  }

  /** Children that can no longer win: cancelled, dead or skipped. */
  function Spent(db: Db, row: GateRow): set<int> {
    set c | c in row.children && c in db.archive && !(db.archive[c].state.Succeeded? && !db.archive[c].past.skipped)
  }

  /** In every run, a gate with a cancelled child and too few others left to win has not fired. */
  lemma QuorumOutOfReach(maxChain: nat, evs: seq<Event>, g: int, c: int)
    ensures var db := Run(Fresh(), maxChain, evs);
            g in db.gates && c in db.gates[g].children && c in db.archive && db.archive[c].state.Cancelled?
            && (db.gates[g].gate.policy.Quorum? ==>
                  |db.gates[g].children| - |Spent(db, db.gates[g])| < Min(db.gates[g].gate.policy.n, |db.gates[g].children|))
            ==> !db.gates[g].gate.fired
  {
    var db := Run(Fresh(), maxChain, evs);
    CancelledChildNeedsQuorum(maxChain, evs, g, c);
    GatesCountChildren(maxChain, evs, g);
    if g in db.gates {
      var row := db.gates[g];
      forall w | w in row.won
        ensures w in row.children - Spent(db, row)
      {
        assert w in row.children && w in db.archive && db.archive[w].state.Succeeded? && !db.archive[w].past.skipped;
      }
      Fits(row.won, row.children, Spent(db, row));
    }
  }

  lemma Fits(won: set<int>, children: set<int>, spent: set<int>)
    requires spent <= children && won <= children - spent
    ensures |won| <= |children| - |spent|
  {
    assert children == spent + (children - spent);
    assert children - spent == won + (children - spent - won);
  }

  /** In every run: a dead job with a hook asked for exactly one job, which runs the hook's task and names
      for the dead job's tenant, and no other death asked for any. */
  lemma HooksMatchDeaths(maxChain: nat, evs: seq<Event>, p: int)
    ensures var db := Run(Fresh(), maxChain, evs);
            && (p in db.log.hookOf <==> p in db.archive && db.archive[p].state.Dead? && db.archive[p].spec.onFailure.Some?)
            && (p in db.log.hookOf ==>
                  var x := db.log.hookOf[p];
                  && Known(db, x)
                  && IsHookOf(JobOf(db, x).spec, db.archive[p].spec.onFailure.value, db.archive[p].spec.tenant)
                  && (forall y :: Known(db, y) && JobOf(db, y).past.origin == OfDead(p) ==> y == x))
  {
    var db := Run(Fresh(), maxChain, evs);
    FreshLinked();
    RunLinked(Fresh(), maxChain, evs);
    if p in db.log.hookOf {
      assert Hooked(db, p, db.log.hookOf[p], NOTHING);
      HookIsStored(db.archive[p].spec.onFailure.value, db.archive[p].spec.tenant);
      forall y | Known(db, y) && JobOf(db, y).past.origin == OfDead(p)
        ensures y == db.log.hookOf[p]
      {
        assert Traced(db, y, JobOf(db, y).past.origin);
      }
    }
  }

  /** In every run: a gate asked for a job exactly when it fired (with a hook to run, if its policy
      failed), for only one, and the job's specification is the continuation if the policy holds on
      the counts and the failure hook if it does not. */
  lemma BranchesMatchPolicies(maxChain: nat, evs: seq<Event>, g: int)
    ensures var db := Run(Fresh(), maxChain, evs);
            g in db.gates ==>
              var row := db.gates[g];
              var met := Gates.Satisfied(row.gate.policy, row.gate.progress);
              && (g in db.log.branchOf <==> row.gate.fired && (met || row.onComplete.onFailure.Some?))
              && (g in db.log.branchOf ==>
                    var x := db.log.branchOf[g];
                    && Known(db, x)
                    && (if met then JobOf(db, x).spec == row.onComplete.(tenant := row.tenant)
                        else IsHookOf(JobOf(db, x).spec, row.onComplete.onFailure.value, row.tenant))
                    && (forall y :: Known(db, y) && JobOf(db, y).past.origin == OfGate(g) ==> y == x))
  {
    var db := Run(Fresh(), maxChain, evs);
    FreshLinked();
    RunLinked(Fresh(), maxChain, evs);
    if g in db.gates {
      assert GateOk(db, g, db.gates[g], NOTHING);
      if g in db.log.branchOf {
        assert Branched(db, g, db.log.branchOf[g], NOTHING);
        if db.gates[g].onComplete.onFailure.Some? {
          HookIsStored(db.gates[g].onComplete.onFailure.value, db.gates[g].tenant);
        }
        forall y | Known(db, y) && JobOf(db, y).past.origin == OfGate(g)
          ensures y == db.log.branchOf[g]
        {
          assert Traced(db, y, JobOf(db, y).past.origin);
        }
      }
    }
  }

  // ---------------------------------------------------------------- chains

  /** The tasks a specification will run: itself, then the names after it up to the first empty one. */
  function Plan(spec: Spec): seq<string> {
    [spec.task] + Names(spec.onSuccess, spec.tail)
  }

  function Names(onSuccess: string, tail: seq<string>): seq<string>
    decreases |tail|
  {
    if onSuccess == "" then [] else [onSuccess] + (if tail == [] then [] else Names(tail[0], tail[1..]))
  }

  /** The tasks of a chain's links, in order. */
  ghost function Tasks(db: Db, links: seq<int>): seq<string>
    requires forall i :: 0 <= i < |links| ==> Known(db, links[i])
  {
    seq(|links|, i requires 0 <= i < |links| => JobOf(db, links[i]).spec.task)
  }

  lemma PlanAdvances(spec: Spec)
    requires spec.onSuccess != ""
    ensures Plan(spec) == [spec.task] + Plan(Advance(spec))
  {
  }

  /** Each link carries the plan's rest. */
  lemma {:induction false} LinkCarriesRest(db: Db, c: int, i: nat)
    requires Sane(db) && Chained(db, NOTHING) && c in db.log.chains && i < |db.log.chains[c]|
    ensures Known(db, c) && Known(db, db.log.chains[c][i]) && i < |Plan(JobOf(db, c).spec)|
    ensures Plan(JobOf(db, c).spec)[i..] == Plan(JobOf(db, db.log.chains[c][i]).spec)
    decreases i
  {
    var links := db.log.chains[c];
    assert ChainOk(db, c, links, NOTHING) && LinkOk(db, c, links, 0, NOTHING) && LinkOk(db, c, links, i, NOTHING);
    var plan := Plan(JobOf(db, c).spec);
    if i == 0 {
      assert plan[0..] == plan;
    } else {
      LinkCarriesRest(db, c, i - 1);
      PreviousLink(db, c, i);
      PlanAdvances(db.archive[links[i - 1]].spec);
      assert plan[i..] == plan[i - 1..][1..];
    }
  }

  /** A link with a successor succeeded, is in the archive only, and its successor is the next name. */
  lemma PreviousLink(db: Db, c: int, i: nat)
    requires Sane(db) && Chained(db, NOTHING) && c in db.log.chains && 0 < i < |db.log.chains[c]|
    ensures var links := db.log.chains[c];
            && links[i - 1] in db.archive && links[i - 1] !in db.live && WantsNext(db.archive[links[i - 1]])
            && Known(db, links[i]) && JobOf(db, links[i]).spec == Advance(db.archive[links[i - 1]].spec)
  {
    var links := db.log.chains[c];
    assert ChainOk(db, c, links, NOTHING) && LinkOk(db, c, links, i - 1, NOTHING);
    assert links[i - 1] in db.live ==> LiveRow(db, links[i - 1], db.live[links[i - 1]]);
  }

  /** The links of a chain run the first tasks of its plan, in order; only the last one can be live,
      the others succeeded; and once the last one succeeded without stopping the chain, the whole plan
      was run. */
  ghost predicate FollowsPlan(db: Db, c: int, links: seq<int>) {
    && links != [] && links[0] == c && (forall i :: 0 <= i < |links| ==> Known(db, links[i]))
    && Tasks(db, links) <= Plan(JobOf(db, c).spec)
    && (forall i :: 0 <= i < |links| - 1 ==>
          links[i] !in db.live && links[i] in db.archive && db.archive[links[i]].state.Succeeded?)
    && var last := links[|links| - 1];
       (last in db.archive && db.archive[last].state.Succeeded? && !db.archive[last].past.stopped
        ==> Tasks(db, links) == Plan(JobOf(db, c).spec))
  }

  lemma ChainFollowsPlan(db: Db, c: int)
    requires Sane(db) && Chained(db, NOTHING) && c in db.log.chains
    ensures FollowsPlan(db, c, db.log.chains[c])
  {
    var links := db.log.chains[c];
    LinksKnown(db, c);
    assert ChainOk(db, c, links, NOTHING);
    TasksArePrefix(db, c);
    LastEndsPlan(db, c);
    forall i | 0 <= i < |links| - 1
      ensures links[i] !in db.live && links[i] in db.archive && db.archive[links[i]].state.Succeeded?
    {
      PreviousLink(db, c, i + 1);
    }
  }

  /** In every run every chain follows its plan, and every job is a link of its chain. */
  lemma ChainsFollowPlans(maxChain: nat, evs: seq<Event>)
    ensures var db := Run(Fresh(), maxChain, evs);
            && (forall c :: c in db.log.chains ==> FollowsPlan(db, c, db.log.chains[c]))
            && (forall x :: Known(db, x) ==> OnChain(db, x, JobOf(db, x)))
  {
    var db := Run(Fresh(), maxChain, evs);
    FreshLinked();
    RunSane(Fresh(), maxChain, evs);
    RunLinked(Fresh(), maxChain, evs);
    forall c | c in db.log.chains
      ensures FollowsPlan(db, c, db.log.chains[c])
    {
      ChainFollowsPlan(db, c);
    }
  }

  lemma LinksKnown(db: Db, c: int)
    requires Chained(db, NOTHING) && c in db.log.chains
    ensures forall i :: 0 <= i < |db.log.chains[c]| ==> Known(db, db.log.chains[c][i])
  {
    var links := db.log.chains[c];
    assert ChainOk(db, c, links, NOTHING);
    forall i | 0 <= i < |links|
      ensures Known(db, links[i])
    {
      assert LinkOk(db, c, links, i, NOTHING);
    }
  }

  lemma TasksArePrefix(db: Db, c: int)
    requires Sane(db) && Chained(db, NOTHING) && c in db.log.chains && Known(db, c)
    requires forall i :: 0 <= i < |db.log.chains[c]| ==> Known(db, db.log.chains[c][i])
    ensures Tasks(db, db.log.chains[c]) <= Plan(JobOf(db, c).spec)
  {
    var links, plan := db.log.chains[c], Plan(JobOf(db, c).spec);
    assert ChainOk(db, c, links, NOTHING);
    LinkCarriesRest(db, c, |links| - 1);
    forall i | 0 <= i < |links|
      ensures i < |plan| && Tasks(db, links)[i] == plan[i]
    {
      LinkCarriesRest(db, c, i);
      assert plan[i..][0] == plan[i];
    }
  }

  lemma LastEndsPlan(db: Db, c: int)
    requires Sane(db) && Chained(db, NOTHING) && c in db.log.chains && Known(db, c)
    ensures var links := db.log.chains[c];
            && links != []
            && var last := links[|links| - 1];
               (last in db.archive && db.archive[last].state.Succeeded? && !db.archive[last].past.stopped
                ==> |Plan(JobOf(db, c).spec)| == |links|)
  {
    var links := db.log.chains[c];
    assert ChainOk(db, c, links, NOTHING);
    var last := links[|links| - 1];
    assert LinkOk(db, c, links, |links| - 1, NOTHING);
    assert last in db.live ==> LiveRow(db, last, db.live[last]);
    if last in db.archive && db.archive[last].state.Succeeded? && !db.archive[last].past.stopped {
      LinkCarriesRest(db, c, |links| - 1);
      assert |Plan(db.archive[last].spec)| == 1;
    }
  }

  /** A plan is no longer than the cap on submitted chains allows, and a step for the job itself. */
  lemma {:induction false} PlanWithinCap(spec: Spec)
    ensures |Plan(spec)| <= 1 + ChainLength(spec)
  {
    NamesWithin(spec.onSuccess, spec.tail);
  }

  lemma {:induction false} NamesWithin(onSuccess: string, tail: seq<string>)
    ensures |Names(onSuccess, tail)| <= (if onSuccess != "" then 1 else 0) + |tail|
    decreases |tail|
  {
    if onSuccess != "" && tail != [] { NamesWithin(tail[0], tail[1..]); }
  }

  /** All links of a chain are for the tenant of the first, with its failure hook. */
  lemma {:induction false} LinkKeepsTenant(db: Db, c: int, i: nat)
    requires Sane(db) && Chained(db, NOTHING) && c in db.log.chains && i < |db.log.chains[c]|
    ensures Known(db, c) && Known(db, db.log.chains[c][i])
    ensures var spec := JobOf(db, db.log.chains[c][i]).spec;
            spec.tenant == JobOf(db, c).spec.tenant && spec.onFailure == JobOf(db, c).spec.onFailure
    decreases i
  {
    var links := db.log.chains[c];
    assert ChainOk(db, c, links, NOTHING) && LinkOk(db, c, links, i, NOTHING);
    if i > 0 {
      LinkKeepsTenant(db, c, i - 1);
      PreviousLink(db, c, i);
      AdvanceIsNext(db.archive[links[i - 1]].spec);
    }
  }

  /** The row an accepted submit makes, after whatever follows: under the next id, first of its own chain,
      and with the submitted specification. */
  lemma SubmittedStays(maxChain: nat, before: seq<Event>, ev: Event, after: seq<Event>)
    requires ev.OnSubmit? && ChainLength(ev.spec) <= maxChain
    ensures var x, db := Run(Fresh(), maxChain, before).nextId, Run(Fresh(), maxChain, before + [ev] + after);
            Known(db, x) && JobOf(db, x).spec == ev.spec && JobOf(db, x).past.chain == x
  {
    var d0 := Run(Fresh(), maxChain, before);
    var d1 := Step(d0, maxChain, ev);
    RunConcat(Fresh(), maxChain, before, [ev] + after);
    RunCons(d0, maxChain, ev, after);
    assert before + [ev] + after == before + ([ev] + after);
    RunSane(Fresh(), maxChain, before);
    StepSane(d0, maxChain, ev);
    RunSane(d1, maxChain, after);
    JobMoves.RunLater(d1, maxChain, after);
    KeepsSpec(d1, Run(d1, maxChain, after), d0.nextId);
  }

  /** The chain that starts with `x` runs `spec`: its tasks are the first of the plan in order, all for its
      tenant, and the whole plan once the last one succeeded without stopping the chain. */
  ghost predicate RunsPlan(db: Db, x: int, spec: Spec) {
    && x in db.log.chains && db.log.chains[x] != []
    && var links := db.log.chains[x];
       var last := links[|links| - 1];
       && (forall i :: 0 <= i < |links| ==> Known(db, links[i]) && JobOf(db, links[i]).spec.tenant == spec.tenant)
       && Tasks(db, links) <= Plan(spec)
       && (last in db.archive && db.archive[last].state.Succeeded? && !db.archive[last].past.stopped
           ==> Tasks(db, links) == Plan(spec))
  }

  lemma ChainRunsPlan(db: Db, x: int, spec: Spec)
    requires Sane(db) && Chained(db, NOTHING)
    requires Known(db, x) && JobOf(db, x).spec == spec && JobOf(db, x).past.chain == x
    ensures RunsPlan(db, x, spec)
  {
    assert OnChain(db, x, JobOf(db, x));
    ChainFollowsPlan(db, x);
    forall i | 0 <= i < |db.log.chains[x]|
      ensures Known(db, db.log.chains[x][i]) && JobOf(db, db.log.chains[x][i]).spec.tenant == spec.tenant
    {
      LinkKeepsTenant(db, x, i);
    }
  }

  /** In every run, and whatever follows, the chain of an accepted submit runs what was submitted. */
  lemma SubmittedChainRuns(maxChain: nat, before: seq<Event>, ev: Event, after: seq<Event>)
    requires ev.OnSubmit? && ChainLength(ev.spec) <= maxChain
    ensures RunsPlan(Run(Fresh(), maxChain, before + [ev] + after), Run(Fresh(), maxChain, before).nextId, ev.spec)
  {
    var evs := before + [ev] + after;
    SubmittedStays(maxChain, before, ev, after);
    FreshLinked();
    RunSane(Fresh(), maxChain, evs);
    RunLinked(Fresh(), maxChain, evs);
    ChainRunsPlan(Run(Fresh(), maxChain, evs), Run(Fresh(), maxChain, before).nextId, ev.spec);
  }

  /** And it never has more links than the cap allows, and one for the job itself. */
  lemma AcceptedChainWithinCap(maxChain: nat, before: seq<Event>, ev: Event, after: seq<Event>)
    requires ev.OnSubmit? && ChainLength(ev.spec) <= maxChain
    ensures var x, db := Run(Fresh(), maxChain, before).nextId, Run(Fresh(), maxChain, before + [ev] + after);
            x in db.log.chains && |db.log.chains[x]| <= maxChain + 1
  {
    SubmittedChainRuns(maxChain, before, ev, after);
    PlanWithinCap(ev.spec);
  }

  lemma KeepsSpec(db: Db, d: Db, x: int)
    requires Sane(db) && Sane(d) && JobMoves.Later(db, d) && x in db.live
    ensures Known(d, x) && JobOf(d, x).spec == db.live[x].spec && JobOf(d, x).past.chain == db.live[x].past.chain
  {
    assert LiveRow(db, x, db.live[x]);
    if x in d.live {
      assert JobMoves.Continued(db, x, d.live[x]);
    } else {
      assert JobMoves.Archived(db, d, x);
    }
  }

  /** How the client service splits a chain that may lead with the task itself. */
  function SplitChain(spec: Spec, chain: seq<string>): Spec {
    var rest := if chain != [] && chain[0] == spec.task then chain[1..] else chain;
    spec.(onSuccess := if rest != [] then rest[0] else "", tail := if |rest| > 1 then rest[1..] else [])
  }

  /** A chain of non-empty names led by the task is its own plan. */
  lemma ClientChainIsPlan(spec: Spec, rest: seq<string>)
    requires forall i :: 0 <= i < |rest| ==> rest[i] != ""
    ensures Plan(SplitChain(spec, [spec.task] + rest)) == [spec.task] + rest
  {
    assert ([spec.task] + rest)[1..] == rest;
    if rest != [] { NamesOfAll(rest); }
  }

  lemma {:induction false} NamesOfAll(rest: seq<string>)
    requires rest != [] && forall i :: 0 <= i < |rest| ==> rest[i] != ""
    ensures Names(rest[0], rest[1..]) == rest
    decreases |rest|
  {
    if |rest| > 1 { NamesOfAll(rest[1..]); }
  }
}
