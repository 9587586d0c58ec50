/**
 * Dependencies: the counter `remaining_deps` against the upstreams themselves, in every run.
 */
module JobDeps {
  import opened Claims
  import opened Jobs
  import opened JobSafety
  import Gates

  function Done(archive: map<int, Job>): set<int> {
    set x | x in archive && archive[x].state.Succeeded?
  }

  /** Upstreams whose success reached this job's counter. */
  function Told(job: Job, done: set<int>): set<int> { job.ups * done - job.past.missed }

  predicate DepOk(job: Job, done: set<int>) {
    && job.past.missed <= job.ups && |job.ups| <= job.declared
    && job.remaining == job.declared - |Told(job, done)|
    && (job.state.Submitted? || job.remaining == 0)
  }

  predicate Clear(db: Db, job: Job, owed: set<int>) {
    forall m :: m in job.past.missed ==> m !in db.live && m !in owed
  }

  /** An upstream that died was already gone when the job was submitted. */
  predicate NotOrphaned(db: Db, job: Job, doomed: set<int>) {
    forall u :: u in job.ups && u in db.archive && db.archive[u].state.Dead? && u !in doomed ==> u in job.past.missed
  }

  predicate RowDeps(db: Db, job: Job, owed: set<int>, doomed: set<int>) {
    DepOk(job, Done(db.archive) - owed) && Clear(db, job, owed) && NotOrphaned(db, job, doomed)
  }

  /** `owed`: a job that just succeeded and whose dependents were not told yet; `doomed`: one that
      just died and whose dependents were not cancelled yet. Both are empty between transactions. */
  ghost predicate Deps(db: Db, owed: set<int>, doomed: set<int>) {
    && (forall x :: x in db.live ==> RowDeps(db, db.live[x], owed, doomed))
    && (forall x :: x in db.archive && Ran(db.archive[x]) ==> db.archive[x].ups <= Done(db.archive))
  }

  // ---------------------------------------------------------------- counting

  lemma SubsetSize(a: set<int>, b: set<int>)
    requires a <= b
    ensures |a| <= |b| && (|a| == |b| ==> a == b)
  {
    assert b == a + (b - a);
  }

  /** A counter at zero means that every upstream succeeded after the job was submitted. */
  lemma AllDone(job: Job, done: set<int>)
    requires DepOk(job, done) && job.remaining == 0
    ensures job.ups <= done && job.past.missed == {} && job.declared == |job.ups|
  {
    SubsetSize(Told(job, done), job.ups);
    assert Told(job, done) == job.ups;
  }

  lemma {:induction false} UpstreamsSize(ups: seq<int>, nextId: nat)
    ensures |Upstreams(ups, nextId)| <= |ups|
    decreases |ups|
  {
    if ups == [] {
      assert Upstreams(ups, nextId) == {};
    } else {
      var rest := ups[1..];
      UpstreamsSize(rest, nextId);
      assert ups == [ups[0]] + rest;
      assert Upstreams(ups, nextId) == {Named(ups[0], nextId)} + Upstreams(rest, nextId);
    }
  }

  // ---------------------------------------------------------------- statements

  /** A row without upstreams is no trouble. */
  lemma AloneOk(db: Db, job: Job, owed: set<int>, doomed: set<int>)
    requires job.ups == {} && job.declared == 0 && job.remaining == 0 && job.past.missed == {}
    ensures RowDeps(db, job, owed, doomed)
  {
  }

  lemma ArchiveSame(db: Db, d: Db, owed: set<int>, doomed: set<int>)
    requires Deps(db, owed, doomed) && d.archive == db.archive
    requires forall x :: x in d.live ==> RowDeps(d, d.live[x], owed, doomed)
    ensures Deps(d, owed, doomed)
  {
  }

  /** A new row's id is in nobody's history. */
  lemma RowAfterInsert(db: Db, d: Db, x: int, owed: set<int>, doomed: set<int>)
    requires Sane(db) && Deps(db, owed, doomed) && x in db.live
    requires d.archive == db.archive && d.live.Keys == db.live.Keys + {db.nextId}
    ensures RowDeps(d, db.live[x], owed, doomed)
  {
  }

  /** Which chain a row belongs to is no matter. */
  lemma RowOnChain(db: Db, job: Job, chain: int, owed: set<int>, doomed: set<int>)
    requires RowDeps(db, job, owed, doomed)
    ensures RowDeps(db, job.(past := job.past.(chain := chain)), owed, doomed)
  {
  }

  lemma InsertDeps(db: Db, job: Job, owed: set<int>, doomed: set<int>)
    requires Sane(db) && Deps(db, owed, doomed)
    requires RowDeps(Insert(db, job), job, owed, doomed)
    ensures Deps(Insert(db, job), owed, doomed)
  {
    var d := Insert(db, job);
    forall x | x in d.live
      ensures RowDeps(d, d.live[x], owed, doomed)
    {
      if x != db.nextId {
        RowAfterInsert(db, d, x, owed, doomed);
      } else {
        RowOnChain(d, job, db.nextId, owed, doomed);
      }
    }
    ArchiveSame(db, d, owed, doomed);
  }

  lemma InsertAlone(db: Db, job: Job, owed: set<int>, doomed: set<int>)
    requires Sane(db) && Deps(db, owed, doomed)
    requires job.ups == {} && job.declared == 0 && job.remaining == 0 && job.past.missed == {}
    ensures Deps(Insert(db, job), owed, doomed)
  {
    AloneOk(Insert(db, job), job, owed, doomed);
    InsertDeps(db, job, owed, doomed);
  }

  lemma FollowDeps(db: Db, job: Job, chain: int, owed: set<int>, doomed: set<int>)
    requires Sane(db) && Deps(db, owed, doomed)
    requires job.ups == {} && job.declared == 0 && job.remaining == 0 && job.past.missed == {}
    ensures Deps(Follow(db, job, chain), owed, doomed)
  {
    var d := Follow(db, job, chain);
    forall x | x in d.live
      ensures RowDeps(d, d.live[x], owed, doomed)
    {
      if x != db.nextId { RowAfterInsert(db, d, x, owed, doomed); } else { AloneOk(d, d.live[x], owed, doomed); }
    }
    ArchiveSame(db, d, owed, doomed);
  }

  predicate SameDeps(a: Job, b: Job) {
    && a.ups == b.ups && a.declared == b.declared && a.remaining == b.remaining && a.past.missed == b.past.missed
    && (a.state.Submitted? ==> b.state.Submitted?)
  }

  lemma PutDeps(db: Db, id: int, job: Job)
    requires Deps(db, {}, {}) && id in db.live && SameDeps(db.live[id], job)
    ensures Deps(Put(db, id, job), {}, {})
  {
    var d := Put(db, id, job);
    forall x | x in d.live
      ensures RowDeps(d, d.live[x], {}, {})
    {
      assert RowDeps(db, db.live[x], {}, {});
      if x == id { assert Told(job, Done(db.archive) - {}) == Told(db.live[id], Done(db.archive) - {}); }
    }
    ArchiveSame(db, d, {}, {});
  }

  lemma DoneAfterMove(db: Db, id: int, final: State, skipped: bool, stopped: bool)
    requires Sane(db) && id in db.live
    ensures var d := Move(db, id, final, skipped, stopped);
            Done(d.archive) == Done(db.archive) + (if final.Succeeded? then {id} else {})
    ensures id !in Done(db.archive)
  {
  }

  function Owed(id: int, final: State): set<int> { if final.Succeeded? then {id} else {} }

  function Doomed(id: int, final: State): set<int> { if final.Dead? then {id} else {} }

  lemma RowAfterMove(db: Db, id: int, final: State, skipped: bool, stopped: bool, job: Job)
    requires Sane(db) && id in db.live && RowDeps(db, job, {}, {})
    ensures RowDeps(Move(db, id, final, skipped, stopped), job, Owed(id, final), Doomed(id, final))
  {
    SameDone(db, id, final, skipped, stopped);
    ClearAfterMove(db, id, final, skipped, stopped, job);
    OrphanAfterMove(db, id, final, skipped, stopped, job);
  }

  lemma SameDone(db: Db, id: int, final: State, skipped: bool, stopped: bool)
    requires Sane(db) && id in db.live
    ensures Done(Move(db, id, final, skipped, stopped).archive) - Owed(id, final) == Done(db.archive) - {}
  {
  }

  lemma ClearAfterMove(db: Db, id: int, final: State, skipped: bool, stopped: bool, job: Job)
    requires id in db.live && Clear(db, job, {})
    ensures Clear(Move(db, id, final, skipped, stopped), job, Owed(id, final))
  {
  }

  lemma OrphanAfterMove(db: Db, id: int, final: State, skipped: bool, stopped: bool, job: Job)
    requires id in db.live && NotOrphaned(db, job, {})
    ensures NotOrphaned(Move(db, id, final, skipped, stopped), job, Doomed(id, final))
  {
  }

  /** A finished job leaves its dependents to be told, or to be cancelled. */
  lemma MoveDeps(db: Db, id: int, final: State, skipped: bool, stopped: bool)
    requires Sane(db) && Deps(db, {}, {}) && id in db.live && !IsLive(final)
    requires !final.Cancelled? ==> !db.live[id].state.Submitted?
    ensures Deps(Move(db, id, final, skipped, stopped), Owed(id, final), Doomed(id, final))
  {
    var d := Move(db, id, final, skipped, stopped);
    forall x | x in d.live
      ensures RowDeps(d, d.live[x], Owed(id, final), Doomed(id, final))
    {
      RowAfterMove(db, id, final, skipped, stopped, db.live[x]);
    }
    ArchiveAfterMove(db, id, final, skipped, stopped);
  }

  lemma ArchiveAfterMove(db: Db, id: int, final: State, skipped: bool, stopped: bool)
    requires Sane(db) && Deps(db, {}, {}) && id in db.live && !IsLive(final)
    requires !final.Cancelled? ==> !db.live[id].state.Submitted?
    ensures var d := Move(db, id, final, skipped, stopped);
            forall x :: x in d.archive && Ran(d.archive[x]) ==> d.archive[x].ups <= Done(d.archive)
  {
    DoneAfterMove(db, id, final, skipped, stopped);
    assert RowDeps(db, db.live[id], {}, {});
    if !final.Cancelled? { AllDone(db.live[id], Done(db.archive) - {}); }
  }

  /** Telling the dependents pays what was owed. */
  lemma DecrementDepsOk(db: Db, up: int, now: int)
    requires Deps(db, {up}, {}) && up in Done(db.archive)
    ensures Deps(DecrementDeps(db, up, now), {}, {})
  {
    var d := DecrementDeps(db, up, now);
    forall x | x in d.live
      ensures RowDeps(d, d.live[x], {}, {})
    {
      assert RowDeps(db, db.live[x], {up}, {});
      ToldOk(db.live[x], Done(db.archive), up, now);
    }
    ArchiveSame2(db, d, {up});
  }

  lemma ArchiveSame2(db: Db, d: Db, owed: set<int>)
    requires Deps(db, owed, {}) && d.archive == db.archive
    requires forall x :: x in d.live ==> RowDeps(d, d.live[x], {}, {})
    ensures Deps(d, {}, {})
  {
  }

  lemma ToldOk(job: Job, done: set<int>, up: int, now: int)
    requires DepOk(job, done - {up}) && up in done && up !in job.past.missed
    ensures DepOk(Decremented(job, up, now), done - {})
  {
    var told := Decremented(job, up, now);
    var before := Told(job, done - {up});
    assert Told(told, done - {}) == before + (if up in job.ups then {up} else {});
    SubsetSize(Told(told, done - {}), job.ups);
  }

  lemma DoneAfterCancelAll(db: Db, ids: set<int>)
    requires Sane(db)
    ensures Done(CancelAll(db, ids).archive) == Done(db.archive)
  {
    var d := CancelAll(db, ids);
    forall x
      ensures x in Done(d.archive) <==> x in Done(db.archive)
    {
      if x in db.live { assert LiveRow(db, x, db.live[x]); }
    }
  }

  /** Cancelling a set that holds every dependent of the doomed job settles its death. */
  lemma CancelAllDeps(db: Db, ids: set<int>, doomed: set<int>)
    requires Sane(db) && Deps(db, {}, doomed)
    requires forall x :: x in db.live && x !in ids ==> db.live[x].ups * doomed == {}
    ensures Deps(CancelAll(db, ids), {}, {})
  {
    var d := CancelAll(db, ids);
    DoneAfterCancelAll(db, ids);
    forall x | x in d.live
      ensures RowDeps(d, d.live[x], {}, {})
    {
      assert RowDeps(db, db.live[x], {}, doomed);
      CancelledNotDead(db, ids, d.live[x], doomed);
    }
    forall x | x in d.archive && Ran(d.archive[x])
      ensures d.archive[x].ups <= Done(d.archive)
    {
      if !(x in db.live && x in ids) { assert db.archive[x].ups <= Done(db.archive); }
    }
  }

  lemma CancelledNotDead(db: Db, ids: set<int>, job: Job, doomed: set<int>)
    requires NotOrphaned(db, job, doomed) && job.ups * doomed == {}
    ensures NotOrphaned(CancelAll(db, ids), job, {})
  {
  }

  // ---------------------------------------------------------------- the cone

  /** The cone is closed: no live job outside it depends on the root or on a job of the cone. */
  lemma {:induction false} ConeClosed(live: map<int, Job>, root: int, seen: set<int>)
    ensures Next(live, root, Cone(live, root, seen)) == {} && seen <= Cone(live, root, seen)
    decreases |live.Keys - seen|
  {
    var more := Next(live, root, seen);
    if more != {} {
      Shrinks(live.Keys, seen, more);
      ConeClosed(live, root, seen + more);
    }
  }

  /** And it is the least such set. */
  lemma {:induction false} ConeLeast(live: map<int, Job>, root: int, seen: set<int>, closed: set<int>)
    requires seen <= closed && Next(live, root, closed) == {}
    ensures Cone(live, root, seen) <= closed
    decreases |live.Keys - seen|
  {
    var more := Next(live, root, seen);
    if more != {} {
      Shrinks(live.Keys, seen, more);
      assert forall x :: x in more ==> x in closed || x in Next(live, root, closed);
      ConeLeast(live, root, seen + more, closed);
    }
  }

  lemma OutsideCone(live: map<int, Job>, root: int, x: int)
    requires x in live && x !in Cone(live, root, {})
    ensures root !in live[x].ups && live[x].ups * Cone(live, root, {}) == {}
  {
    ConeClosed(live, root, {});
    assert x !in Next(live, root, Cone(live, root, {}));
  }

  /** A cascade leaves no live job that depends on the root, directly or through live jobs, and what
      it removed is archived as cancelled. */
  lemma CascadeLeavesNoDependent(db: Db, root: int, x: int)
    requires x in db.live
    ensures var d, cone := Cascade(db, root), Cone(db.live, root, {});
            && (x in d.live <==> x !in cone)
            && (x in d.live ==> root !in d.live[x].ups && d.live[x].ups * cone == {})
            && (x in cone ==> x in d.archive && d.archive[x] == db.live[x].(state := Cancelled))
  {
    if x !in Cone(db.live, root, {}) { OutsideCone(db.live, root, x); }
  }

  /** A cascade from a job that did not succeed cancels only jobs that never started. */
  lemma CascadeSparesStarted(db: Db, root: int, doomed: set<int>)
    requires Sane(db) && Deps(db, {}, doomed) && root !in Done(db.archive)
    ensures forall x :: x in Cone(db.live, root, {}) ==> x in db.live && db.live[x].state.Submitted?
  {
    var idle := set x | x in db.live && db.live[x].state.Submitted?;
    forall x | x in db.live && x !in idle
      ensures root !in db.live[x].ups && db.live[x].ups * idle == {}
    {
      assert RowDeps(db, db.live[x], {}, doomed);
      AllDone(db.live[x], Done(db.archive) - {});
      StartedApart(db, db.live[x].ups, idle);
    }
    assert Next(db.live, root, idle) == {};
    ConeLeast(db.live, root, {}, idle);
  }

  lemma StartedApart(db: Db, ups: set<int>, idle: set<int>)
    requires Sane(db) && ups <= Done(db.archive) && idle <= db.live.Keys
    ensures ups * idle == {}
  {
    forall u | u in idle
      ensures u !in ups
    {
      assert LiveRow(db, u, db.live[u]);
    }
  }

  // ---------------------------------------------------------------- transactions

  lemma SameTablesDeps(db: Db, d: Db, owed: set<int>, doomed: set<int>)
    requires Deps(db, owed, doomed) && d.live == db.live && d.archive == db.archive
    ensures Deps(d, owed, doomed)
  {
    forall x | x in d.live
      ensures RowDeps(d, d.live[x], owed, doomed)
    {
      assert RowDeps(db, db.live[x], owed, doomed);
    }
  }

  lemma SettleDeps(db: Db, child: int, gate: Option<int>, o: Gates.Outcome, now: int, owed: set<int>, doomed: set<int>)
    requires Sane(db) && Deps(db, owed, doomed)
    ensures Deps(SettleGate(db, child, gate, o, now), owed, doomed)
  {
    if gate.Some? && gate.value in db.gates {
      var row := db.gates[gate.value];
      var d := BumpGate(db, child, gate.value, o);
      SameTablesDeps(db, d, owed, doomed);
      assert Sane(d);
      var branch := Branch(row, Gates.Bump(row.gate, o).branch);
      if Gates.Resolves(row.gate, o) && branch.Some? {
        InsertAlone(d, BranchJob(branch.value, gate.value, now), owed, doomed);
      }
    }
  }

  lemma ContinueDeps(db: Db, id: int, job: Job, now: int, owed: set<int>)
    requires Sane(db) && Deps(db, owed, {})
    ensures Deps(Continue(db, id, job, now), owed, {})
  {
    if job.spec.onSuccess != "" {
      var next := NextJob(job, id, now);
      FollowDeps(db, next, job.past.chain, owed, {});
      SameTablesDeps(Follow(db, next, job.past.chain), Continue(db, id, job, now), owed, {});
    }
  }

  lemma HookDeps(db: Db, id: int, job: Job, now: int, doomed: set<int>)
    requires Sane(db) && Deps(db, {}, doomed)
    ensures Deps(FireHook(db, id, job, now), {}, doomed)
  {
    if job.spec.onFailure.Some? {
      var hook := HookJob(job, id, now);
      InsertAlone(db, hook, {}, doomed);
      SameTablesDeps(Insert(db, hook), FireHook(db, id, job, now), {}, doomed);
    }
  }

  lemma CompleteDeps(db: Db, id: int, token: nat, stop: bool, skipped: bool, now: int)
    requires Sane(db) && Deps(db, {}, {})
    ensures Deps(Complete(db, id, token, stop, skipped, now), {}, {})
  {
    if Holds(db, id, token) {
      var job := db.live[id];
      var d1 := Move(db, id, Succeeded, skipped, stop);
      MoveSane(db, id, Succeeded, skipped, stop);
      MoveDeps(db, id, Succeeded, skipped, stop);
      var d2 := if stop then d1 else Continue(d1, id, job, now);
      ContinueSane(d1, id, job, now);
      ContinueDeps(d1, id, job, now, {id});
      assert d2.archive == d1.archive && id in Done(d1.archive);
      DecrementSane(d2, id, now);
      DecrementDepsOk(d2, id, now);
      SettleDeps(DecrementDeps(d2, id, now), id, job.gate, if skipped then Gates.Skipped else Gates.Won, now, {}, {});
    }
  }

  lemma CascadeDeps(db: Db, root: int, doomed: set<int>)
    requires Sane(db) && Deps(db, {}, doomed) && doomed <= {root}
    ensures Deps(Cascade(db, root), {}, {})
  {
    forall x | x in db.live && x !in Cone(db.live, root, {})
      ensures db.live[x].ups * doomed == {}
    {
      OutsideCone(db.live, root, x);
    }
    CancelAllDeps(db, Cone(db.live, root, {}), doomed);
  }

  lemma DieDeps(db: Db, id: int, now: int)
    requires Sane(db) && Deps(db, {}, {}) && id in db.live && db.live[id].state.Running?
    ensures Deps(Die(db, id, now), {}, {})
  {
    var job := db.live[id];
    var d1 := Move(db, id, Dead, false, false);
    MoveSane(db, id, Dead, false, false);
    MoveDeps(db, id, Dead, false, false);
    var d2 := SettleGate(d1, id, job.gate, Gates.Lost, now);
    SettleSane(d1, id, job.gate, Gates.Lost, now);
    SettleDeps(d1, id, job.gate, Gates.Lost, now, {}, {id});
    HookSane(d2, id, job, now);
    HookDeps(d2, id, job, now, {id});
    CascadeDeps(FireHook(d2, id, job, now), id, {id});
  }

  lemma FailDeps(db: Db, id: int, token: nat, retryable: bool, workerCap: int, runAt: int, now: int)
    requires Sane(db) && Deps(db, {}, {})
    ensures Deps(Fail(db, id, token, retryable, workerCap, runAt, now), {}, {})
  {
    if Holds(db, id, token) {
      if ShouldRetry(db.live[id].attempt, RetryCap(db.live[id], workerCap), retryable) {
        PutDeps(db, id, Retried(db.live[id], workerCap, runAt));
      } else {
        DieDeps(db, id, now);
      }
    }
  }

  lemma PreparedOk(db: Db, spec: Spec, ups: seq<int>, runAt: Option<int>, now: int)
    requires Sane(db)
    ensures var job := Prepared(db, spec, ups, runAt, now);
            RowDeps(Insert(db, job), job, {}, {})
  {
    var job := Prepared(db, spec, ups, runAt, now);
    var done := Done(db.archive) - {};
    UpstreamsSize(ups, db.nextId);
    forall u | u in job.ups && u in db.archive
      ensures u in job.past.missed
    {
    }
    assert Told(job, done) == {};
  }

  lemma SubmitDeps(db: Db, maxChain: nat, spec: Spec, ups: seq<int>, runAt: Option<int>, now: int)
    requires Sane(db) && Deps(db, {}, {})
    ensures Deps(Submit(db, maxChain, spec, ups, runAt, now), {}, {})
  {
    PreparedOk(db, spec, ups, runAt, now);
    InsertDeps(db, Prepared(db, spec, ups, runAt, now), {}, {});
  }

  lemma {:induction false} ChildrenDeps(db: Db, specs: seq<Spec>, tenant: string, gid: int, now: int)
    requires Sane(db) && Deps(db, {}, {})
    ensures Deps(InsertChildren(db, specs, tenant, gid, now), {}, {})
    decreases |specs|
  {
    if specs != [] {
      var job := ChildJob(specs[0], tenant, gid, now);
      InsertSane(db, job);
      InsertAlone(db, job, {}, {});
      ChildrenDeps(Insert(db, job), specs[1..], tenant, gid, now);
    }
  }

  lemma FanOutDeps(db: Db, specs: seq<Spec>, onComplete: Spec, tenant: string, policy: Gates.Policy, now: int)
    requires Sane(db) && Deps(db, {}, {})
    ensures Deps(FanOut(db, specs, onComplete, tenant, policy, now), {}, {})
  {
    var d := OpenGate(db, onComplete, tenant, policy, |specs|);
    SameTablesDeps(db, d, {}, {});
    assert Sane(d);
    ChildrenDeps(d, specs, tenant, db.nextGate, now);
  }

  lemma SweepDeps(db: Db, id: int, now: int)
    requires Sane(db) && Deps(db, {}, {})
    ensures Deps(SweepLease(db, id), {}, {}) && Deps(SweepWait(db, id, now), {}, {})
    ensures Deps(SweepExhausted(db, id, now), {}, {})
  {
    if id in db.live {
      var job := db.live[id];
      if Exhausted(db, id) { FailDeps(db, id, job.token.value, false, 0, now, now); }
      if job.state.Waiting? { PutDeps(db, id, TimedOut(job, now)); }
      if job.state.Running? {
        MoveDeps(db, id, Cancelled, false, false);
        PutDeps(db, id, job.(state := Queued, token := None));
      }
    }
  }

  lemma CancelDeps(db: Db, id: int, cascade: bool)
    requires Sane(db) && Deps(db, {}, {})
    ensures Deps(Cancel(db, id, cascade), {}, {})
  {
    if id in db.live {
      assert LiveRow(db, id, db.live[id]);
      var flagged := db.live[id].(cancelRequested := true);
      var d := if db.live[id].state.Running? then Put(db, id, flagged) else Move(db, id, Cancelled, false, false);
      if db.live[id].state.Running? {
        PutSane(db, id, flagged);
        PutDeps(db, id, flagged);
      } else {
        MoveSane(db, id, Cancelled, false, false);
        MoveDeps(db, id, Cancelled, false, false);
      }
      CascadeDeps(d, id, {});
    }
  }

  lemma SendDeps(db: Db, tenant: string, key: string, now: int)
    requires Sane(db) && Deps(db, {}, {})
    ensures Deps(Send(db, tenant, key, now), {}, {})
  {
    var w := OldestWaiter(db.live, tenant, key, 0, db.nextId);
    if w.Some? {
      var d := Put(db, w.value, Woken(db.live[w.value], now));
      PutDeps(db, w.value, Woken(db.live[w.value], now));
      SameTablesDeps(d, Send(db, tenant, key, now), {}, {});
    } else {
      SameTablesDeps(db, Send(db, tenant, key, now), {}, {});
    }
  }

  lemma WaitDeps(db: Db, id: int, token: nat, tenant: string, key: string)
    requires Sane(db) && Deps(db, {}, {})
    ensures Deps(Wait(db, id, token, tenant, key), {}, {})
  {
    if Pending(db.signals, tenant, key, 0).None? && Holds(db, id, token) {
      PutDeps(db, id, Parked(db.live[id], key));
    } else {
      SameTablesDeps(db, Wait(db, id, token, tenant, key), {}, {});
    }
  }

  lemma ClaimDeps(db: Db, id: int, now: int)
    requires Sane(db) && Deps(db, {}, {})
    ensures Deps(Claim(db, id, now), {}, {})
  {
    if id in db.live && db.live[id].state.Queued? && db.live[id].runAt <= now {
      PutDeps(db, id, Claimed(db.live[id], db.nextToken, now));
      SameTablesDeps(Put(db, id, Claimed(db.live[id], db.nextToken, now)), Claim(db, id, now), {}, {});
    }
  }

  lemma StepDeps(db: Db, maxChain: nat, ev: Event)
    requires Sane(db) && Deps(db, {}, {})
    ensures Deps(Step(db, maxChain, ev), {}, {})
  {
    match ev
    case OnSubmit(spec, ups, runAt, now) => SubmitDeps(db, maxChain, spec, ups, runAt, now);
    case OnFanOut(specs, onComplete, tenant, policy, now) => FanOutDeps(db, specs, onComplete, tenant, policy, now);
    case OnClaim(id, now) => ClaimDeps(db, id, now);
    case OnComplete(id, token, stop, skipped, now) => CompleteDeps(db, id, token, stop, skipped, now);
    case OnFail(id, token, retryable, workerCap, retryAt, now) =>
      FailDeps(db, id, token, retryable, workerCap, retryAt, now);
    case OnHeartbeat(id, token, now) =>
      if Holds(db, id, token) { PutDeps(db, id, db.live[id].(beatAt := now)); }
    case OnSweepLease(id) => SweepDeps(db, id, 0);
    case OnSweepExhausted(id, now) => SweepDeps(db, id, now);
    case OnWait(id, token, tenant, key) => WaitDeps(db, id, token, tenant, key);
    case OnSignal(tenant, key, now) => SendDeps(db, tenant, key, now);
    case OnSweepWait(id, now) => SweepDeps(db, id, now);
    case OnCancel(id, cascade) => CancelDeps(db, id, cascade);
  }

  lemma {:induction false} RunDeps(db: Db, maxChain: nat, evs: seq<Event>)
    requires Sane(db) && Deps(db, {}, {})
    ensures Deps(Run(db, maxChain, evs), {}, {})
    decreases |evs|
  {
    if evs != [] {
      StepSane(db, maxChain, evs[0]);
      StepDeps(db, maxChain, evs[0]);
      RunDeps(Step(db, maxChain, evs[0]), maxChain, evs[1..]);
    }
  }

  // ---------------------------------------------------------------- what it means

  /** In every run: a job that is queued, running or waiting, or that ran to an end, has only
      upstreams that succeeded. */
  lemma StartedAfterUpstreams(maxChain: nat, evs: seq<Event>, x: int)
    ensures var db := Run(Fresh(), maxChain, evs);
            && (x in db.live && !db.live[x].state.Submitted? ==> db.live[x].ups <= Done(db.archive))
            && (x in db.archive && Ran(db.archive[x]) ==> db.archive[x].ups <= Done(db.archive))
  {
    var db := Run(Fresh(), maxChain, evs);
    RunDeps(Fresh(), maxChain, evs);
    if x in db.live && !db.live[x].state.Submitted? {
      assert RowDeps(db, db.live[x], {}, {});
      AllDone(db.live[x], Done(db.archive) - {});
    }
  }

  /** In every run the counter of a live job is the number of its upstreams that have not succeeded,
      exactly when no upstream was named twice and none had already succeeded at submit. Otherwise it
      is larger, and the job can never start. */
  lemma CounterIsUnsucceededIff(maxChain: nat, evs: seq<Event>, x: int)
    ensures var db := Run(Fresh(), maxChain, evs);
            x in db.live ==>
              var job, done := db.live[x], Done(db.archive);
              && job.remaining >= |job.ups - done|
              && (job.remaining == |job.ups - done| <==> job.declared == |job.ups| && job.past.missed * done == {})
  {
    var db := Run(Fresh(), maxChain, evs);
    RunDeps(Fresh(), maxChain, evs);
    if x in db.live {
      assert RowDeps(db, db.live[x], {}, {});
      CounterSize(db.live[x], Done(db.archive));
    }
  }

  lemma CounterSize(job: Job, done: set<int>)
    requires DepOk(job, done - {})
    ensures job.remaining == (job.declared - |job.ups|) + |job.ups - done| + |job.past.missed * done|
    ensures |job.past.missed * done| == 0 <==> job.past.missed * done == {}
  {
    assert done - {} == done;
    assert job.ups == (job.ups - done) + (job.ups * done);
    assert job.ups * done == Told(job, done) + job.past.missed * done;
  }

  /** In every run, a live job's dead upstream was already gone when the job was submitted: deaths
      cancel every dependent there is at the time. */
  lemma DeadUpstreamWasGone(maxChain: nat, evs: seq<Event>, x: int, u: int)
    ensures var db := Run(Fresh(), maxChain, evs);
            x in db.live && u in db.live[x].ups && u in db.archive && db.archive[u].state.Dead?
            ==> u in db.live[x].past.missed
  {
    var db := Run(Fresh(), maxChain, evs);
    RunDeps(Fresh(), maxChain, evs);
    if x in db.live { assert RowDeps(db, db.live[x], {}, {}); }
  }
}
