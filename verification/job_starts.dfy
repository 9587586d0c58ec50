/**
 * When a submitted job is queued, and which jobs never are.
 */
module JobStarts {
  import opened Claims
  import opened Jobs
  import opened JobSafety
  import opened JobDeps
  import JobMoves
  import Gates

  predicate IsSubmitted(db: Db, x: int) { x in db.live && db.live[x].state.Submitted? }

  predicate IsQueued(db: Db, x: int) { x in db.live && db.live[x].state.Queued? }

  predicate IsCancelled(db: Db, x: int) { x !in db.live && x in db.archive && db.archive[x].state.Cancelled? }

  /** The completion, under a current lease, of the last upstream that is still counted, at or after
      the job's start time. */
  predicate Releases(db: Db, ev: Event, x: int)
    requires x in db.live
  {
    && ev.OnComplete? && Holds(db, ev.id, ev.token) && ev.id in db.live[x].ups
    && db.live[x].remaining == 1 && db.live[x].runAt <= ev.now
  }

  predicate Kept(db: Db, d: Db, x: int)
    requires x in db.live
  {
    (x in d.live && d.live[x] == db.live[x]) || IsCancelled(d, x)
  }

  // ---------------------------------------------------------------- what a transaction does to a submitted row

  lemma {:induction false} ChildrenKeep(db: Db, specs: seq<Spec>, tenant: string, gid: int, now: int, x: int)
    requires x in db.live && x < db.nextId
    ensures var d := InsertChildren(db, specs, tenant, gid, now);
            x in d.live && d.live[x] == db.live[x]
    decreases |specs|
  {
    if specs != [] {
      ChildrenKeep(Insert(db, ChildJob(specs[0], tenant, gid, now)), specs[1..], tenant, gid, now, x);
    }
  }

  lemma FanOutKeeps(db: Db, specs: seq<Spec>, onComplete: Spec, tenant: string, policy: Gates.Policy, now: int, x: int)
    requires Sane(db) && x in db.live
    ensures Kept(db, FanOut(db, specs, onComplete, tenant, policy, now), x)
  {
    var d := OpenGate(db, onComplete, tenant, policy, |specs|);
    assert LiveRow(db, x, db.live[x]);
    ChildrenKeep(d, specs, tenant, db.nextGate, now, x);
  }

  lemma SettleKeeps(db: Db, child: int, gate: Option<int>, o: Gates.Outcome, now: int, x: int)
    requires x in db.live && x < db.nextId
    ensures var d := SettleGate(db, child, gate, o, now);
            x in d.live && d.live[x] == db.live[x] && db.nextId <= d.nextId
  {
  }

  /** A completion tells the row, and that is all it does to it. */
  lemma CompleteTells(db: Db, id: int, token: nat, stop: bool, skipped: bool, now: int, x: int)
    requires Sane(db) && x in db.live && x != id && Holds(db, id, token)
    ensures var d := Complete(db, id, token, stop, skipped, now);
            x in d.live && d.live[x] == Decremented(db.live[x], id, now)
  {
    var job := db.live[id];
    assert LiveRow(db, x, db.live[x]);
    var d1 := Move(db, id, Succeeded, skipped, stop);
    MoveSane(db, id, Succeeded, skipped, stop);
    ContinueSane(d1, id, job, now);
    var d2 := if stop then d1 else Continue(d1, id, job, now);
    assert x in d2.live && d2.live[x] == db.live[x];
    DecrementSane(d2, id, now);
    SettleKeeps(DecrementDeps(d2, id, now), id, job.gate, if skipped then Gates.Skipped else Gates.Won, now, x);
  }

  lemma DieKeeps(db: Db, id: int, now: int, x: int)
    requires Sane(db) && IsSubmitted(db, x) && id in db.live && db.live[id].state.Running?
    ensures Kept(db, Die(db, id, now), x)
  {
    var job := db.live[id];
    var d1 := Move(db, id, Dead, false, false);
    MoveSane(db, id, Dead, false, false);
    var d2 := SettleGate(d1, id, job.gate, Gates.Lost, now);
    SettleSane(d1, id, job.gate, Gates.Lost, now);
    assert LiveRow(db, x, db.live[x]);
    SettleKeeps(d1, id, job.gate, Gates.Lost, now, x);
    HookKeeps(d2, id, job, now, x);
    CascadeKeeps(FireHook(d2, id, job, now), id, x);
  }

  lemma HookKeeps(db: Db, id: int, job: Job, now: int, x: int)
    requires Sane(db) && x in db.live
    ensures var d := FireHook(db, id, job, now);
            x in d.live && d.live[x] == db.live[x]
  {
    assert LiveRow(db, x, db.live[x]);
  }

  lemma CascadeKeeps(db: Db, root: int, x: int)
    requires x in db.live
    ensures Kept(db, Cascade(db, root), x)
  {
  }

  lemma FailKeeps(db: Db, id: int, token: nat, retryable: bool, workerCap: int, runAt: int, now: int, x: int)
    requires Sane(db) && IsSubmitted(db, x)
    ensures Kept(db, Fail(db, id, token, retryable, workerCap, runAt, now), x)
  {
    if Holds(db, id, token) && !ShouldRetry(db.live[id].attempt, RetryCap(db.live[id], workerCap), retryable) {
      DieKeeps(db, id, now, x);
    }
  }

  lemma CancelKeeps(db: Db, id: int, cascade: bool, x: int)
    requires Sane(db) && IsSubmitted(db, x)
    ensures Kept(db, Cancel(db, id, cascade), x)
  {
    if id in db.live {
      var d := if db.live[id].state.Running? then Put(db, id, db.live[id].(cancelRequested := true))
               else Move(db, id, Cancelled, false, false);
      if x in d.live {
        CascadeKeeps(d, id, x);
      } else {
        GoneStaysCancelled(d, id, x);
      }
    }
  }

  lemma GoneStaysCancelled(db: Db, root: int, x: int)
    requires IsCancelled(db, x)
    ensures IsCancelled(Cascade(db, root), x)
  {
  }

  /** Claims, heartbeats, sweeps, waits and signals only touch jobs that were queued before. */
  lemma UpdatesKeep(db: Db, id: int, token: nat, tenant: string, key: string, now: int, x: int)
    requires IsSubmitted(db, x)
    ensures Kept(db, Claim(db, id, now), x) && Kept(db, Heartbeat(db, id, token, now), x)
    ensures Kept(db, SweepLease(db, id), x) && Kept(db, SweepWait(db, id, now), x)
    ensures Kept(db, Wait(db, id, token, tenant, key), x)
  {
  }

  lemma SignalKeeps(db: Db, tenant: string, key: string, now: int, x: int)
    requires IsSubmitted(db, x)
    ensures Kept(db, Send(db, tenant, key, now), x)
  {
  }

  lemma OthersKeep(db: Db, maxChain: nat, ev: Event, x: int)
    requires Sane(db) && IsSubmitted(db, x) && !(ev.OnComplete? && Holds(db, ev.id, ev.token))
    ensures Kept(db, Step(db, maxChain, ev), x)
  {
    match ev
    case OnSubmit(spec, ups, runAt, now) => assert LiveRow(db, x, db.live[x]);
    case OnFanOut(specs, onComplete, tenant, policy, now) => FanOutKeeps(db, specs, onComplete, tenant, policy, now, x);
    case OnComplete(id, token, stop, skipped, now) =>
    case OnFail(id, token, retryable, workerCap, retryAt, now) =>
      FailKeeps(db, id, token, retryable, workerCap, retryAt, now, x);
    case OnSweepExhausted(id, now) =>
      if Exhausted(db, id) { FailKeeps(db, id, db.live[id].token.value, false, 0, now, now, x); }
    case OnCancel(id, cascade) => CancelKeeps(db, id, cascade, x);
    case OnSignal(tenant, key, now) => SignalKeeps(db, tenant, key, now, x);
    case OnClaim(id, now) => UpdatesKeep(db, id, 0, "", "", now, x);
    case OnHeartbeat(id, token, now) => UpdatesKeep(db, id, token, "", "", now, x);
    case OnSweepLease(id) => UpdatesKeep(db, id, 0, "", "", 0, x);
    case OnWait(id, token, tenant, key) => UpdatesKeep(db, id, token, tenant, key, 0, x);
    case OnSweepWait(id, now) => UpdatesKeep(db, id, 0, "", "", now, x);
  }

  // ---------------------------------------------------------------- exactly when a job is queued

  /** One transaction queues a submitted job exactly when it is the completion that releases it;
      otherwise the job stays submitted or is cancelled. */
  lemma StepQueuesIff(db: Db, maxChain: nat, ev: Event, x: int)
    requires Sane(db) && IsSubmitted(db, x)
    ensures var d := Step(db, maxChain, ev);
            && (IsQueued(d, x) <==> Releases(db, ev, x))
            && (!Releases(db, ev, x) ==> IsSubmitted(d, x) || IsCancelled(d, x))
  {
    if ev.OnComplete? && Holds(db, ev.id, ev.token) {
      CompleteTells(db, ev.id, ev.token, ev.stop, ev.skipped, ev.now, x);
    } else {
      OthersKeep(db, maxChain, ev, x);
    }
  }

  /** The job is queued in some state of the run. */
  predicate EverQueued(db: Db, maxChain: nat, evs: seq<Event>, x: int)
    decreases |evs|
  {
    IsQueued(db, x) || (evs != [] && EverQueued(Step(db, maxChain, evs[0]), maxChain, evs[1..], x))
  }

  /** Some transaction of the run releases the job. */
  predicate EverReleased(db: Db, maxChain: nat, evs: seq<Event>, x: int)
    decreases |evs|
  {
    && evs != [] && x in db.live
    && (Releases(db, evs[0], x) || EverReleased(Step(db, maxChain, evs[0]), maxChain, evs[1..], x))
  }

  lemma {:induction false} CancelledNeverQueued(db: Db, maxChain: nat, evs: seq<Event>, x: int)
    requires Sane(db) && IsCancelled(db, x)
    ensures !EverQueued(db, maxChain, evs, x) && !EverReleased(db, maxChain, evs, x)
    decreases |evs|
  {
    if evs != [] {
      StepSane(db, maxChain, evs[0]);
      CancelledStays(db, maxChain, evs[0], x);
      CancelledNeverQueued(Step(db, maxChain, evs[0]), maxChain, evs[1..], x);
    }
  }

  lemma CancelledStays(db: Db, maxChain: nat, ev: Event, x: int)
    requires Sane(db) && IsCancelled(db, x)
    ensures IsCancelled(Step(db, maxChain, ev), x)
  {
    StepSane(db, maxChain, ev);
    JobMoves.StepLater(db, maxChain, ev);
    var d := Step(db, maxChain, ev);
    assert JobMoves.Archived(db, d, x);
    assert x in d.live ==> LiveRow(d, x, d.live[x]);
  }

  /** In every run from any state, a submitted job is queued at some point exactly when a completion of
      the run releases it: nothing else, and no passing of time, starts it. */
  lemma {:induction false} QueuedInRunIff(db: Db, maxChain: nat, evs: seq<Event>, x: int)
    requires Sane(db) && IsSubmitted(db, x)
    ensures EverQueued(db, maxChain, evs, x) <==> EverReleased(db, maxChain, evs, x)
    decreases |evs|
  {
    if evs != [] {
      var d := Step(db, maxChain, evs[0]);
      StepQueuesIff(db, maxChain, evs[0], x);
      StepSane(db, maxChain, evs[0]);
      if IsSubmitted(d, x) {
        QueuedInRunIff(d, maxChain, evs[1..], x);
      } else if IsCancelled(d, x) {
        CancelledNeverQueued(d, maxChain, evs[1..], x);
      }
    }
  }

  // ---------------------------------------------------------------- jobs that never start

  /** A submitted row that cannot be released: nothing left to wait for, an upstream that was not live
      at submit, or one named twice. */
  predicate Blocked(db: Db, x: int) {
    IsSubmitted(db, x) && (db.live[x].remaining == 0 || !Clean(db.live[x]))
  }

  predicate Clean(job: Job) { job.past.missed == {} && job.declared == |job.ups| }

  lemma StepKeepsBlocked(db: Db, maxChain: nat, ev: Event, x: int)
    requires Sane(db) && Deps(db, {}, {}) && Blocked(db, x)
    ensures !Releases(db, ev, x)
    ensures var d := Step(db, maxChain, ev);
            Blocked(d, x) || IsCancelled(d, x)
  {
    assert RowDeps(db, db.live[x], {}, {});
    StepQueuesIff(db, maxChain, ev, x);
    if ev.OnComplete? && Holds(db, ev.id, ev.token) {
      CompleteTells(db, ev.id, ev.token, ev.stop, ev.skipped, ev.now, x);
      BlockedNotTold(db, ev.id, x);
    } else {
      OthersKeep(db, maxChain, ev, x);
    }
  }

  /** A live upstream has not been counted yet; so a counter at zero has none left, and one about to
      reach zero belongs to a clean row. */
  lemma BlockedNotTold(db: Db, id: int, x: int)
    requires Sane(db) && Blocked(db, x) && id in db.live && RowDeps(db, db.live[x], {}, {})
    ensures db.live[x].remaining == 0 ==> id !in db.live[x].ups
    ensures db.live[x].remaining == 1 && id in db.live[x].ups ==> Clean(db.live[x])
  {
    var job, done := db.live[x], Done(db.archive) - {};
    assert LiveRow(db, id, db.live[id]);
    if job.remaining == 0 {
      AllDone(job, done);
    } else if job.remaining == 1 && id in job.ups {
      LastOneLeft(job, done, id);
    }
  }

  lemma LastOneLeft(job: Job, done: set<int>, id: int)
    requires DepOk(job, done) && job.remaining == 1 && id in job.ups && id !in done && id !in job.past.missed
    ensures Clean(job)
  {
    var told := Told(job, done);
    SubsetSize(told + {id}, job.ups);
  }

  /** In every run, whatever happens, a blocked job is never queued. */
  lemma {:induction false} BlockedNeverQueued(db: Db, maxChain: nat, evs: seq<Event>, x: int)
    requires Sane(db) && Deps(db, {}, {}) && Blocked(db, x)
    ensures !EverQueued(db, maxChain, evs, x)
    decreases |evs|
  {
    if evs != [] {
      var d := Step(db, maxChain, evs[0]);
      StepSane(db, maxChain, evs[0]);
      StepDeps(db, maxChain, evs[0]);
      StepKeepsBlocked(db, maxChain, evs[0], x);
      if Blocked(d, x) {
        BlockedNeverQueued(d, maxChain, evs[1..], x);
      } else {
        CancelledNeverQueued(d, maxChain, evs[1..], x);
      }
    }
  }

  /** The completion of a job's last counted upstream decides for good: queued now if its start time has
      come, and never if it has not. */
  lemma LastUpstreamDecides(db: Db, maxChain: nat, id: int, token: nat, stop: bool, skipped: bool, now: int,
                            evs: seq<Event>, x: int)
    requires Sane(db) && Deps(db, {}, {}) && IsSubmitted(db, x) && Holds(db, id, token)
    requires id in db.live[x].ups && db.live[x].remaining == 1
    ensures EverQueued(Complete(db, id, token, stop, skipped, now), maxChain, evs, x) <==> db.live[x].runAt <= now
  {
    CompleteTells(db, id, token, stop, skipped, now, x);
    if db.live[x].runAt > now {
      CompleteSane(db, id, token, stop, skipped, now);
      CompleteDeps(db, id, token, stop, skipped, now);
      BlockedNeverQueued(Complete(db, id, token, stop, skipped, now), maxChain, evs, x);
    }
  }

  // ---------------------------------------------------------------- what a caller can see at submit

  predicate AllDistinct(ups: seq<int>) {
    forall i, j :: 0 <= i < j < |ups| ==> ups[i] != ups[j]
  }

  /** Different names stay different. */
  lemma NamedApart(u: int, v: int, nextId: nat)
    ensures Named(u, nextId) == Named(v, nextId) <==> u == v
  {
  }

  lemma NamedIn(u: int, ups: seq<int>, nextId: nat)
    ensures Named(u, nextId) in Upstreams(ups, nextId) <==> u in ups
  {
    if Named(u, nextId) in Upstreams(ups, nextId) {
      var v :| v in ups && Named(v, nextId) == Named(u, nextId);
      NamedApart(u, v, nextId);
    }
  }

  /** As many edges as names, exactly when no name comes twice. */
  lemma {:induction false} EdgesIffDistinct(ups: seq<int>, nextId: nat)
    ensures |Upstreams(ups, nextId)| == |ups| <==> AllDistinct(ups)
    decreases |ups|
  {
    UpstreamsSize(ups, nextId);
    if ups != [] {
      var u, rest := ups[0], ups[1..];
      assert ups == [u] + rest;
      assert Upstreams(ups, nextId) == {Named(u, nextId)} + Upstreams(rest, nextId);
      UpstreamsSize(rest, nextId);
      EdgesIffDistinct(rest, nextId);
      NamedIn(u, rest, nextId);
      DistinctCons(u, rest);
    }
  }

  lemma DistinctCons(u: int, rest: seq<int>)
    ensures AllDistinct([u] + rest) <==> u !in rest && AllDistinct(rest)
  {
    var all := [u] + rest;
    if AllDistinct(all) {
      forall i, j | 0 <= i < j < |rest|
        ensures rest[i] != rest[j]
      {
        assert all[i + 1] != all[j + 1];
      }
      forall i | 0 <= i < |rest|
        ensures rest[i] != u
      {
        assert all[0] != all[i + 1];
      }
    }
  }

  lemma MissedIff(db: Db, spec: Spec, ups: seq<int>, runAt: Option<int>, now: int)
    requires Sane(db)
    ensures Prepared(db, spec, ups, runAt, now).past.missed == {} <==> forall u :: u in ups ==> u in db.live
  {
    var missed := Prepared(db, spec, ups, runAt, now).past.missed;
    forall u | u in ups
      ensures Named(u, db.nextId) in missed <==> u !in db.live
    {
      NamedIn(u, ups, db.nextId);
      assert u in db.live ==> LiveRow(db, u, db.live[u]);
      assert Named(u, db.nextId) in db.live ==> LiveRow(db, Named(u, db.nextId), db.live[Named(u, db.nextId)]);
    }
    assert forall m :: m in missed ==> exists u :: u in ups && m == Named(u, db.nextId);
  }

  /** A submit that is accepted leaves a blocked row exactly when it names no upstream and a time to come,
      names an upstream twice, or names one that is not live. */
  lemma SubmitBlockedIff(db: Db, maxChain: nat, spec: Spec, ups: seq<int>, runAt: Option<int>, now: int)
    requires Sane(db) && ChainLength(spec) <= maxChain
    ensures Blocked(Submit(db, maxChain, spec, ups, runAt, now), db.nextId)
            <==> || (ups == [] && runAt.Some? && runAt.value > now)
                 || !AllDistinct(ups)
                 || (exists u :: u in ups && u !in db.live)
  {
    MissedIff(db, spec, ups, runAt, now);
    EdgesIffDistinct(ups, db.nextId);
  }

  /** So in every run after such a submit the job is never queued. */
  lemma SubmittedForNothing(db: Db, maxChain: nat, spec: Spec, ups: seq<int>, runAt: Option<int>, now: int, evs: seq<Event>)
    requires Sane(db) && Deps(db, {}, {}) && ChainLength(spec) <= maxChain
    requires (ups == [] && runAt.Some? && runAt.value > now) || !AllDistinct(ups) || exists u :: u in ups && u !in db.live
    ensures !EverQueued(Submit(db, maxChain, spec, ups, runAt, now), maxChain, evs, db.nextId)
  {
    SubmitBlockedIff(db, maxChain, spec, ups, runAt, now);
    SubmitSane(db, maxChain, spec, ups, runAt, now);
    SubmitDeps(db, maxChain, spec, ups, runAt, now);
    BlockedNeverQueued(Submit(db, maxChain, spec, ups, runAt, now), maxChain, evs, db.nextId);
  }

  // ---------------------------------------------------------------- runs

  /** The first job of all, for a time to come: never queued, whatever follows. */
  lemma FutureStartNeverQueued(spec: Spec, evs: seq<Event>)
    requires ChainLength(spec) == 0
    ensures !EverQueued(Step(Fresh(), 0, OnSubmit(spec, [], Some(5), 0)), 0, evs, 0)
  {
    SubmittedForNothing(Fresh(), 0, spec, [], Some(5), 0, evs);
  }

  /** A job on an upstream that has just succeeded: never queued, whatever follows. */
  lemma TooLateForUpstream(db: Db, id: int, token: nat, now: int, spec: Spec, evs: seq<Event>)
    requires Sane(db) && Deps(db, {}, {}) && Holds(db, id, token) && ChainLength(spec) == 0
    ensures var done := Complete(db, id, token, false, false, now);
            !EverQueued(Submit(done, 0, spec, [id], None, now), 0, evs, done.nextId)
  {
    var done := Complete(db, id, token, false, false, now);
    CompleteSane(db, id, token, false, false, now);
    CompleteDeps(db, id, token, false, false, now);
    JobMoves.CompleteLegal(db, id, token, false, false, now, id);
    assert id in done.live ==> LiveRow(done, id, done.live[id]);
    assert id in [id];
    SubmittedForNothing(done, 0, spec, [id], None, now, evs);
  }

  lemma FinishedUpstreamNeverQueued(spec: Spec, evs: seq<Event>)
    requires ChainLength(spec) == 0
    ensures var done := Step(Step(Step(Fresh(), 0, OnSubmit(spec, [], None, 0)), 0, OnClaim(0, 0)),
                             0, OnComplete(0, 0, false, false, 0));
            !EverQueued(Step(done, 0, OnSubmit(spec, [0], None, 0)), 0, evs, done.nextId)
  {
    var e1, e2 := OnSubmit(spec, [], None, 0), OnClaim(0, 0);
    var d1 := Step(Fresh(), 0, e1);
    FirstClaim(spec);
    StepSane(Fresh(), 0, e1);
    StepSane(d1, 0, e2);
    StepDeps(Fresh(), 0, e1);
    StepDeps(d1, 0, e2);
    TooLateForUpstream(Step(d1, 0, e2), 0, 0, 0, spec, evs);
  }

  /** A job for a time to come is queued after all when its last upstream completes late enough. */
  lemma LateUpstreamReleases(spec: Spec)
    requires ChainLength(spec) == 0
    ensures IsQueued(Run(Fresh(), 0, [OnSubmit(spec, [], None, 0), OnSubmit(spec, [0], Some(5), 0), OnClaim(0, 0),
                                      OnComplete(0, 0, false, false, 10)]), 1)
  {
    var e1, e2 := OnSubmit(spec, [], None, 0), OnSubmit(spec, [0], Some(5), 0);
    var e3, e4 := OnClaim(0, 0), OnComplete(0, 0, false, false, 10);
    var d1 := Step(Fresh(), 0, e1);
    var d2 := Step(d1, 0, e2);
    var d3 := Step(d2, 0, e3);
    assert [e1, e2, e3, e4] == [e1] + ([e2] + ([e3] + ([e4] + [])));
    RunCons(Fresh(), 0, e1, [e2] + ([e3] + ([e4] + [])));
    RunCons(d1, 0, e2, [e3] + ([e4] + []));
    RunCons(d2, 0, e3, [e4] + []);
    RunCons(d3, 0, e4, []);
    StepSane(Fresh(), 0, e1);
    StepSane(d1, 0, e2);
    StepSane(d2, 0, e3);
    TwoJobs(spec);
    StepQueuesIff(d3, 0, e4, 1);
  }

  lemma TwoJobs(spec: Spec)
    requires ChainLength(spec) == 0
    ensures var d := Step(Step(Step(Fresh(), 0, OnSubmit(spec, [], None, 0)), 0, OnSubmit(spec, [0], Some(5), 0)), 0, OnClaim(0, 0));
            && Holds(d, 0, 0) && IsSubmitted(d, 1)
            && 0 in d.live[1].ups && d.live[1].remaining == 1 && d.live[1].runAt == 5
  {
    var d1 := Step(Fresh(), 0, OnSubmit(spec, [], None, 0));
    assert d1.live.Keys == {0} && d1.live[0].state.Queued? && d1.live[0].runAt == 0 && d1.nextId == 1;
    var d2 := Step(d1, 0, OnSubmit(spec, [0], Some(5), 0));
    assert 0 in [0] && Named(0, 1) == 0;
    assert d2.live.Keys == {0, 1} && d2.live[0] == d1.live[0] && 0 in d2.live[1].ups;
  }
}
