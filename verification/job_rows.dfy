/**
 * The rows each transaction leaves, field by field, and what it leaves alone.
 */
module JobRows {
  import opened Claims
  import opened Jobs
  import opened JobSafety
  import opened JobLinks
  import JobDeps
  import JobMoves
  import JobSignals
  import JobStarts
  import Gates

  /** A row that was just asked for: queued, due at `now`, never claimed, on its own. */
  predicate IsNew(job: Job, now: int) {
    && job.state.Queued? && job.runAt == now && job.token.None? && job.attempt == 0 && !job.cancelRequested
    && job.waitKey.None? && job.gate.None? && job.ups == {} && job.remaining == 0
  }

  // ---------------------------------------------------------------- submit

  /** What an accepted submit stores under `x`. */
  predicate Stores(db: Db, x: int, spec: Spec, ups: seq<int>, runAt: Option<int>, now: int) {
    && x in db.live
    && var job := db.live[x];
       && job.spec == spec && job.runAt == (if runAt.Some? then runAt.value else now)
       && job.state == (if ups == [] && (runAt.None? || runAt.value <= now) then Queued else Submitted)
       && job.remaining == |ups| && (forall u :: 0 <= u < x ==> (u in job.ups <==> u in ups))
       && job.token.None? && job.attempt == 0 && !job.cancelRequested && job.waitKey.None? && job.gate.None?
  }

  lemma SubmitStores(db: Db, maxChain: nat, spec: Spec, ups: seq<int>, runAt: Option<int>, now: int)
    requires Sane(db) && ChainLength(spec) <= maxChain
    ensures var d := Submit(db, maxChain, spec, ups, runAt, now);
            && Stores(d, db.nextId, spec, ups, runAt, now)
            && d.live - {db.nextId} == db.live && d.archive == db.archive
  {
    var d := Submit(db, maxChain, spec, ups, runAt, now);
    forall u | 0 <= u < db.nextId
      ensures u in d.live[db.nextId].ups <==> u in ups
    {
      JobStarts.NamedIn(u, ups, db.nextId);
    }
    assert db.nextId in db.live ==> LiveRow(db, db.nextId, db.live[db.nextId]);
    assert d.live - {db.nextId} == db.live;
  }

  // ---------------------------------------------------------------- complete

  /** The next link of the chain of `job`, under `x`. */
  predicate Continues(db: Db, x: int, job: Job, now: int) {
    && x in db.live && IsNew(db.live[x], now) && IsNextOf(db.live[x].spec, job.spec)
    && db.live[x].past.chain == job.past.chain
  }

  lemma CompleteContinues(db: Db, id: int, token: nat, skipped: bool, now: int)
    requires Holds(db, id, token) && db.live[id].spec.onSuccess != ""
    ensures Continues(Complete(db, id, token, false, skipped, now), db.nextId, db.live[id], now)
  {
    var job := db.live[id];
    var d2 := Continue(Move(db, id, Succeeded, skipped, false), id, job, now);
    AdvanceIsNext(job.spec);
    JobStarts.SettleKeeps(DecrementDeps(d2, id, now), id, job.gate, if skipped then Gates.Skipped else Gates.Won, now, db.nextId);
  }

  /** If `g` fired between the two states, the job of its branch is new. */
  predicate BranchReady(db: Db, d: Db, g: int, now: int) {
    g in db.gates && g in d.gates && !db.gates[g].gate.fired && Materializes(d.gates[g]) ==>
      && g in d.log.branchOf && db.nextId <= d.log.branchOf[g] < d.nextId
      && d.log.branchOf[g] in d.live && IsNew(d.live[d.log.branchOf[g]], now)
  }

  lemma SettleBranches(db: Db, child: int, gate: Option<int>, o: Gates.Outcome, now: int, g: int)
    ensures BranchReady(db, SettleGate(db, child, gate, o, now), g, now)
  {
    var d := SettleGate(db, child, gate, o, now);
    if gate == Some(g) && g in db.gates && Gates.Resolves(db.gates[g].gate, o) {
      var branch := Branch(db.gates[g], Gates.Bump(db.gates[g].gate, o).branch);
      if branch.Some? {
        assert d == Insert(BumpGate(db, child, g, o), BranchJob(branch.value, g, now));
      }
    }
  }

  lemma CompleteBranches(db: Db, id: int, token: nat, stop: bool, skipped: bool, now: int, g: int)
    requires Holds(db, id, token)
    ensures BranchReady(db, Complete(db, id, token, stop, skipped, now), g, now)
  {
    var job := db.live[id];
    var d1 := Move(db, id, Succeeded, skipped, stop);
    var d3 := DecrementDeps(if stop then d1 else Continue(d1, id, job, now), id, now);
    SettleBranches(d3, id, job.gate, if skipped then Gates.Skipped else Gates.Won, now, g);
  }

  // ---------------------------------------------------------------- fail

  /** A retry changes the row and nothing else: queued without its lease, for the given time. */
  predicate IsRetried(db: Db, d: Db, id: int, retryAt: int) {
    && id in db.live && id in d.live && d.live - {id} == db.live - {id} && d.archive == db.archive
    && var job := d.live[id];
       && job.state.Queued? && job.token.None? && job.runAt == retryAt
       && job.spec == db.live[id].spec && job.attempt == db.live[id].attempt && job.gate == db.live[id].gate
       && job.ups == db.live[id].ups && job.cancelRequested == db.live[id].cancelRequested
  }

  /** The hook job of the dead job `id`. */
  predicate HookReady(d: Db, id: int, job: Job, now: int) {
    job.spec.onFailure.Some? ==>
      && id in d.log.hookOf && d.log.hookOf[id] in d.live && IsNew(d.live[d.log.hookOf[id]], now)
      && IsHookOf(d.live[d.log.hookOf[id]].spec, job.spec.onFailure.value, job.spec.tenant)
  }

  /** A row without upstreams outlives a cascade. */
  lemma CascadeSpares(db: Db, root: int, x: int)
    requires x in db.live && db.live[x].ups == {}
    ensures x in Cascade(db, root).live && Cascade(db, root).live[x] == db.live[x]
  {
    JobMoves.ConeWithin(db.live, root, {});
  }

  lemma HookInserts(db: Db, id: int, job: Job, now: int)
    ensures HookReady(FireHook(db, id, job, now), id, job, now)
  {
    if job.spec.onFailure.Some? { HookIsStored(job.spec.onFailure.value, job.spec.tenant); }
  }

  lemma DieHooks(db: Db, id: int, now: int)
    requires id in db.live
    ensures HookReady(Die(db, id, now), id, db.live[id], now)
  {
    var job := db.live[id];
    var d2 := SettleGate(Move(db, id, Dead, false, false), id, job.gate, Gates.Lost, now);
    HookInserts(d2, id, job, now);
    if job.spec.onFailure.Some? { CascadeSpares(FireHook(d2, id, job, now), id, d2.nextId); }
  }

  lemma DieBranches(db: Db, id: int, now: int, g: int)
    requires id in db.live
    ensures BranchReady(db, Die(db, id, now), g, now)
  {
    var job := db.live[id];
    var d1 := Move(db, id, Dead, false, false);
    SettleBranches(d1, id, job.gate, Gates.Lost, now, g);
    var d2 := SettleGate(d1, id, job.gate, Gates.Lost, now);
    var d3 := FireHook(d2, id, job, now);
    if g in db.gates && g in d2.gates && !db.gates[g].gate.fired && Materializes(d2.gates[g]) {
      CascadeSpares(d3, id, d2.log.branchOf[g]);
    }
  }

  // ---------------------------------------------------------------- cancel

  /** Not running: archived as cancelled. Running: flagged, and nothing else about it. */
  predicate IsCancelledOr(db: Db, d: Db, id: int)
    requires id in db.live
  {
    if db.live[id].state.Running? then id in d.live && d.live[id] == db.live[id].(cancelRequested := true)
    else
      && id !in d.live && id in d.archive && d.archive[id].state.Cancelled? && d.archive[id].spec == db.live[id].spec
  }

  lemma NotItsOwnDependent(live: map<int, Job>, root: int)
    requires forall x :: x in live ==> forall u :: u in live[x].ups ==> u < x
    ensures root !in Cone(live, root, {})
  {
    var later := set x | x in live && x > root;
    assert Next(live, root, later) == {} by {
      forall x | x in live && x !in later
        ensures root !in live[x].ups && live[x].ups * later == {}
      {
      }
    }
    JobDeps.ConeLeast(live, root, {}, later);
  }

  lemma CancelRow(db: Db, id: int, cascade: bool)
    requires Sane(db) && id in db.live
    ensures IsCancelledOr(db, Cancel(db, id, cascade), id)
    ensures !cascade ==> Cancel(db, id, cascade).live - {id} == db.live - {id}
  {
    var d := if db.live[id].state.Running? then Put(db, id, db.live[id].(cancelRequested := true))
             else Move(db, id, Cancelled, false, false);
    forall x | x in d.live
      ensures forall u :: u in d.live[x].ups ==> u < x
    {
      assert LiveRow(db, x, db.live[x]);
    }
    NotItsOwnDependent(d.live, id);
    JobMoves.ConeWithin(d.live, id, {});
  }

  // ---------------------------------------------------------------- signals

  lemma {:induction false} OldestIsLeast(live: map<int, Job>, tenant: string, key: string, i: nat, bound: nat, x: int)
    requires OldestWaiter(live, tenant, key, i, bound).Some? && i <= x && x in live && WaitsFor(live[x], tenant, key)
    ensures OldestWaiter(live, tenant, key, i, bound).value <= x
    decreases bound - i
  {
    if !(i in live && WaitsFor(live[i], tenant, key)) { OldestIsLeast(live, tenant, key, i + 1, bound, x); }
  }

  /** A signal wakes `id`, the oldest job that waits for it, and touches no other: queued and due, no longer
      waiting. */
  ghost predicate Wakes(db: Db, d: Db, id: int, tenant: string, key: string, now: int) {
    && id in db.live && WaitsFor(db.live[id], tenant, key)
    && (forall x :: x in db.live && WaitsFor(db.live[x], tenant, key) ==> id <= x)
    && id in d.live && d.live - {id} == db.live - {id} && d.signals == db.signals
    && IsReleased(db.live[id], d.live[id], now)
  }

  /** A wait that ended: queued and due at `now`, otherwise as before. */
  predicate IsReleased(before: Job, after: Job, now: int) {
    && after.state.Queued? && after.runAt == now && after.waitKey.None? && after.token == before.token
    && after.spec == before.spec && after.attempt == before.attempt && after.gate == before.gate && after.ups == before.ups
  }

  lemma SendWakes(db: Db, tenant: string, key: string, now: int)
    requires Sane(db)
    ensures var w, d := OldestWaiter(db.live, tenant, key, 0, db.nextId), Send(db, tenant, key, now);
            if w.Some? then Wakes(db, d, w.value, tenant, key, now)
            else d.live == db.live && d.signals == db.signals + [Signal(tenant, key, false)]
  {
    var w := OldestWaiter(db.live, tenant, key, 0, db.nextId);
    if w.Some? {
      forall x | x in db.live && WaitsFor(db.live[x], tenant, key)
        ensures w.value <= x
      {
        assert LiveRow(db, x, db.live[x]);
        OldestIsLeast(db.live, tenant, key, 0, db.nextId, x);
      }
    }
  }

  lemma {:induction false} PendingIsFirst(signals: seq<Signal>, tenant: string, key: string, i: nat, j: nat)
    requires i <= j < |signals| && Pending(signals, tenant, key, i).Some? && signals[j] == Signal(tenant, key, false)
    ensures Pending(signals, tenant, key, i).value <= j
    decreases |signals| - i
  {
    if signals[i] != Signal(tenant, key, false) { PendingIsFirst(signals, tenant, key, i + 1, j); }
  }

  /** A wait takes the oldest pending signal, at `i`, and nothing else changes. */
  ghost predicate Consumes(db: Db, d: Db, i: nat, tenant: string, key: string) {
    && i < |db.signals| && db.signals[i] == Signal(tenant, key, false)
    && (forall j :: 0 <= j < i ==> db.signals[j] != Signal(tenant, key, false))
    && d.signals == db.signals[i := Signal(tenant, key, true)] && d.live == db.live && d.archive == db.archive
  }

  /** The job waits for the key, without a lease, and nothing else changes. */
  predicate Parks(db: Db, d: Db, id: int, key: string) {
    && id in db.live && id in d.live && d.live - {id} == db.live - {id} && d.signals == db.signals
    && WaitsFor(d.live[id], db.live[id].spec.tenant, key) && d.live[id].token.None?
    && d.live[id].spec == db.live[id].spec && d.live[id].attempt == db.live[id].attempt
    && d.live[id].gate == db.live[id].gate && d.live[id].ups == db.live[id].ups
  }

  lemma WaitRow(db: Db, id: int, token: nat, tenant: string, key: string)
    ensures var p, d := Pending(db.signals, tenant, key, 0), Wait(db, id, token, tenant, key);
            && (p.Some? ==> Consumes(db, d, p.value, tenant, key))
            && (p.None? && Holds(db, id, token) ==> Parks(db, d, id, key))
            && (p.None? && !Holds(db, id, token) ==> d == db)
  {
    var p := Pending(db.signals, tenant, key, 0);
    if p.Some? {
      forall j | 0 <= j < p.value
        ensures db.signals[j] != Signal(tenant, key, false)
      {
        if db.signals[j] == Signal(tenant, key, false) { PendingIsFirst(db.signals, tenant, key, 0, j); }
      }
    }
  }

  // ---------------------------------------------------------------- sweeps

  /** An expired wait is released, and nothing else changes. */
  lemma SweepWaitReleases(db: Db, id: int, now: int)
    requires id in db.live && db.live[id].state.Waiting?
    ensures var d := SweepWait(db, id, now);
            && id in d.live && IsReleased(db.live[id], d.live[id], now)
            && d.live - {id} == db.live - {id} && d.archive == db.archive
  {
  }

  /** The transactions of the three parts of a sweeper pass. */
  function Fails(ids: seq<int>, now: int): seq<Event> {
    if ids == [] then [] else [OnSweepExhausted(ids[0], now)] + Fails(ids[1..], now)
  }

  function Reclaims(ids: seq<int>): seq<Event> {
    if ids == [] then [] else [OnSweepLease(ids[0])] + Reclaims(ids[1..])
  }

  function Releases(ids: seq<int>, now: int): seq<Event> {
    if ids == [] then [] else [OnSweepWait(ids[0], now)] + Releases(ids[1..], now)
  }

  /** A lease that a sweep can end at once: a cancel was asked for, or attempts are left. */
  predicate Reclaimable(db: Db, x: int) {
    x in db.live && db.live[x].state.Running? && (db.live[x].cancelRequested || db.live[x].attempt < db.live[x].spec.maxAttempts)
  }

  predicate IsWaiting(db: Db, x: int) { x in db.live && db.live[x].state.Waiting? }

  lemma SettleRow(db: Db, child: int, gate: Option<int>, o: Gates.Outcome, now: int, x: int)
    ensures var d := SettleGate(db, child, gate, o, now);
            x in d.live ==> (x in db.live && d.live[x] == db.live[x]) || d.live[x].state.Queued?
  {
  }

  lemma DieRow(db: Db, id: int, now: int, x: int)
    requires id in db.live
    ensures var d := Die(db, id, now);
            x in d.live ==> (x in db.live && x != id && d.live[x] == db.live[x]) || d.live[x].state.Queued?
  {
    var job := db.live[id];
    var d1 := Move(db, id, Dead, false, false);
    var d2 := SettleGate(d1, id, job.gate, Gates.Lost, now);
    SettleRow(d1, id, job.gate, Gates.Lost, now, x);
    var d3 := FireHook(d2, id, job, now);
    assert x in d3.live ==> (x in d2.live && d3.live[x] == d2.live[x]) || d3.live[x].state.Queued?;
  }

  lemma {:induction false} FailsEnd(db: Db, maxChain: nat, ids: seq<int>, now: int, x: int)
    requires x in ids || !Exhausted(db, x)
    ensures !Exhausted(Run(db, maxChain, Fails(ids, now)), x)
    decreases |ids|
  {
    if ids != [] {
      var d := SweepExhausted(db, ids[0], now);
      if Exhausted(db, ids[0]) { DieRow(db, ids[0], now, x); }
      RunCons(db, maxChain, OnSweepExhausted(ids[0], now), Fails(ids[1..], now));
      FailsEnd(d, maxChain, ids[1..], now, x);
    }
  }

  lemma {:induction false} ReclaimsEnd(db: Db, maxChain: nat, ids: seq<int>, x: int)
    ensures var d := Run(db, maxChain, Reclaims(ids));
            && (!Exhausted(db, x) ==> !Exhausted(d, x))
            && (x in ids || !Reclaimable(db, x) ==> !Reclaimable(d, x))
    decreases |ids|
  {
    if ids != [] {
      RunCons(db, maxChain, OnSweepLease(ids[0]), Reclaims(ids[1..]));
      ReclaimsEnd(SweepLease(db, ids[0]), maxChain, ids[1..], x);
    }
  }

  lemma {:induction false} ReleasesEnd(db: Db, maxChain: nat, ids: seq<int>, now: int, x: int)
    ensures var d := Run(db, maxChain, Releases(ids, now));
            && (!Exhausted(db, x) ==> !Exhausted(d, x)) && (!Reclaimable(db, x) ==> !Reclaimable(d, x))
            && (x in ids || !IsWaiting(db, x) ==> !IsWaiting(d, x))
    decreases |ids|
  {
    if ids != [] {
      RunCons(db, maxChain, OnSweepWait(ids[0], now), Releases(ids[1..], now));
      ReleasesEnd(SweepWait(db, ids[0], now), maxChain, ids[1..], now, x);
    }
  }

  /** After a pass none of the leases and waits its scans found is as they found it. */
  lemma PassEnds(db: Db, maxChain: nat, exhausted: seq<int>, expired: seq<int>, waits: seq<int>, now: int, x: int)
    ensures var d := Run(db, maxChain, Fails(exhausted, now) + (Reclaims(expired) + Releases(waits, now)));
            && (x in exhausted ==> !Exhausted(d, x)) && (x in expired ==> !Reclaimable(d, x))
            && (x in waits ==> !IsWaiting(d, x))
  {
    var d1 := Run(db, maxChain, Fails(exhausted, now));
    var d2 := Run(d1, maxChain, Reclaims(expired));
    RunConcat(db, maxChain, Fails(exhausted, now), Reclaims(expired) + Releases(waits, now));
    RunConcat(d1, maxChain, Reclaims(expired), Releases(waits, now));
    if x in exhausted { FailsEnd(db, maxChain, exhausted, now, x); }
    ReclaimsEnd(d1, maxChain, expired, x);
    ReleasesEnd(d2, maxChain, waits, now, x);
  }

  // ---------------------------------------------------------------- the table is no larger than it need be

  /** A key nobody has sent a signal under. */
  lemma {:induction false} UnusedKey(signals: seq<Signal>) returns (key: string)
    ensures forall i :: 0 <= i < |signals| ==> signals[i].key != key && |signals[i].key| < |key|
    decreases |signals|
  {
    if signals == [] {
      key := "";
    } else {
      var k := UnusedKey(signals[1..]);
      key := k + signals[0].key + "+";
      assert forall i :: 0 < i < |signals| ==> signals[i] == signals[1..][i - 1];
    }
  }

  lemma {:induction false} NonePendingUnder(signals: seq<Signal>, tenant: string, key: string, i: nat)
    requires i <= |signals| && forall j :: 0 <= j < |signals| ==> signals[j].key != key
    ensures Pending(signals, tenant, key, i).None?
    decreases |signals| - i
  {
    if i < |signals| { NonePendingUnder(signals, tenant, key, i + 1); }
  }

  /** One transaction that takes a running job to `t`; a cancel needs the flag first. */
  lemma RunningMoves(db: Db, x: int, t: State) returns (ev: Event)
    requires Sane(db) && x in db.live && db.live[x].state.Running?
    requires t in {Queued, Waiting, Succeeded, Dead} || (t == Cancelled && db.live[x].cancelRequested)
    ensures JobMoves.StateOf(Step(db, 0, ev), x) == Some(t)
  {
    assert LiveRow(db, x, db.live[x]);
    var job, token := db.live[x], db.live[x].token.value;
    match t
    case Queued => ev := OnFail(x, token, true, job.attempt + 1, 0, 0);
    case Waiting =>
      var key := UnusedKey(db.signals);
      NonePendingUnder(db.signals, "", key, 0);
      ev := OnWait(x, token, "", key);
    case Succeeded =>
      ev := OnComplete(x, token, false, false, 0);
      JobMoves.CompleteLegal(db, x, token, false, false, 0, x);
    case Dead =>
      ev := OnFail(x, token, false, 0, 0, 0);
      JobMoves.DieLegal(db, x, 0, x);
    case Cancelled => ev := OnSweepLease(x);
  }

  /** Every move of the table but one is open to every job in that state, in every state of the engine: one
      transaction takes it there, or two that leave it where it is in between. The exception is that a
      submitted job is queued, which `JobStarts` says when. */
  lemma MoveHappens(db: Db, x: int, t: State) returns (evs: seq<Event>)
    requires Sane(db) && x in db.live && t in Transitions(db.live[x].state)
    requires !(db.live[x].state.Submitted? && t.Queued?)
    ensures 1 <= |evs| <= 2 && JobMoves.StateOf(Run(db, 0, evs), x) == Some(t)
    ensures |evs| == 2 ==> JobMoves.StateOf(Step(db, 0, evs[0]), x) == Some(db.live[x].state)
  {
    var job := db.live[x];
    assert LiveRow(db, x, job);
    if job.state.Running? {
      if t.Cancelled? && !job.cancelRequested {
        var d := Step(db, 0, OnCancel(x, false));
        StepSane(db, 0, OnCancel(x, false));
        var ev := RunningMoves(d, x, t);
        RunCons(db, 0, OnCancel(x, false), [ev]);
        RunCons(d, 0, ev, []);
        assert [ev] == [ev] + [];
        evs := [OnCancel(x, false)] + [ev];
      } else {
        var ev := RunningMoves(db, x, t);
        RunCons(db, 0, ev, []);
        evs := [ev] + [];
      }
    } else {
      var ev := if t.Cancelled? then OnCancel(x, false) else if t.Running? then OnClaim(x, job.runAt) else OnSweepWait(x, 0);
      RunCons(db, 0, ev, []);
      evs := [ev] + [];
    }
  }
}
