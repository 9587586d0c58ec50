/**
 * Signals and waits, src/symba/services/signal_service.py: who gets which signal, in every run.
 */
module JobSignals {
  import opened Claims
  import opened Jobs
  import opened JobSafety
  import Gates

  // ---------------------------------------------------------------- conservation

  /** On every channel, every signal sent woke a waiter, was consumed by a later wait or is still
      pending, and what was consumed are the rows marked so. */
  predicate ChannelOk(signals: seq<Signal>, log: Log, ch: Channel) {
    && log.sent[ch] == log.delivered[ch] + log.consumed[ch] + multiset(signals)[Signal(ch.tenant, ch.key, false)]
    && log.consumed[ch] == multiset(signals)[Signal(ch.tenant, ch.key, true)]
  }

  ghost predicate Conserved(signals: seq<Signal>, log: Log) {
    forall ch :: ChannelOk(signals, log, ch)
  }

  // ---------------------------------------------------------------- transactions that leave signals alone

  predicate SameWaiter(db: Db, x: int, job: Job) {
    job.state.Waiting? ==> x in db.live && db.live[x].state.Waiting? && db.live[x].waitKey == job.waitKey
                           && db.live[x].spec == job.spec
  }

  /** Nobody starts to wait, and no signal comes or goes. */
  ghost predicate Quiet(db: Db, d: Db) {
    && d.signals == db.signals && d.log.sent == db.log.sent && d.log.delivered == db.log.delivered
    && d.log.consumed == db.log.consumed
    && (forall x :: x in d.live ==> SameWaiter(db, x, d.live[x]))
  }

  lemma QuietTransitive(a: Db, b: Db, c: Db)
    requires Quiet(a, b) && Quiet(b, c)
    ensures Quiet(a, c)
  {
  }

  lemma InsertQuiet(db: Db, job: Job)
    requires !job.state.Waiting?
    ensures Quiet(db, Insert(db, job))
  {
  }

  lemma MoveQuiet(db: Db, id: int, final: State, skipped: bool, stopped: bool)
    requires id in db.live
    ensures Quiet(db, Move(db, id, final, skipped, stopped))
  {
  }

  lemma CascadeQuiet(db: Db, root: int)
    ensures Quiet(db, Cascade(db, root))
  {
  }

  lemma SettleQuiet(db: Db, child: int, gate: Option<int>, o: Gates.Outcome, now: int)
    ensures Quiet(db, SettleGate(db, child, gate, o, now))
  {
  }

  lemma CompleteQuiet(db: Db, id: int, token: nat, stop: bool, skipped: bool, now: int)
    ensures Quiet(db, Complete(db, id, token, stop, skipped, now))
  {
    if Holds(db, id, token) {
      var job := db.live[id];
      var d1 := Move(db, id, Succeeded, skipped, stop);
      MoveQuiet(db, id, Succeeded, skipped, stop);
      var d2 := if stop then d1 else Continue(d1, id, job, now);
      assert Quiet(d1, d2);
      QuietTransitive(db, d1, d2);
      var d3 := DecrementDeps(d2, id, now);
      assert Quiet(d2, d3);
      QuietTransitive(db, d2, d3);
      var o := if skipped then Gates.Skipped else Gates.Won;
      SettleQuiet(d3, id, job.gate, o, now);
      QuietTransitive(db, d3, SettleGate(d3, id, job.gate, o, now));
    }
  }

  lemma FailQuiet(db: Db, id: int, token: nat, retryable: bool, workerCap: int, runAt: int, now: int)
    ensures Quiet(db, Fail(db, id, token, retryable, workerCap, runAt, now))
  {
    if Holds(db, id, token) && !ShouldRetry(db.live[id].attempt, RetryCap(db.live[id], workerCap), retryable) {
      var job := db.live[id];
      var d1 := Move(db, id, Dead, false, false);
      MoveQuiet(db, id, Dead, false, false);
      var d2 := SettleGate(d1, id, job.gate, Gates.Lost, now);
      SettleQuiet(d1, id, job.gate, Gates.Lost, now);
      QuietTransitive(db, d1, d2);
      var d3 := FireHook(d2, id, job, now);
      assert Quiet(d2, d3);
      QuietTransitive(db, d2, d3);
      CascadeQuiet(d3, id);
      QuietTransitive(db, d3, Die(db, id, now));
    }
  }

  lemma {:induction false} ChildrenQuiet(db: Db, specs: seq<Spec>, tenant: string, gid: int, now: int)
    ensures Quiet(db, InsertChildren(db, specs, tenant, gid, now))
    decreases |specs|
  {
    if specs != [] {
      var job := ChildJob(specs[0], tenant, gid, now);
      InsertQuiet(db, job);
      ChildrenQuiet(Insert(db, job), specs[1..], tenant, gid, now);
      QuietTransitive(db, Insert(db, job), InsertChildren(db, specs, tenant, gid, now));
    }
  }

  lemma CancelQuiet(db: Db, id: int, cascade: bool)
    ensures Quiet(db, Cancel(db, id, cascade))
  {
    if id in db.live {
      var d := if db.live[id].state.Running? then Put(db, id, db.live[id].(cancelRequested := true))
               else Move(db, id, Cancelled, false, false);
      assert Quiet(db, d);
      CascadeQuiet(d, id);
      QuietTransitive(db, d, Cascade(d, id));
    }
  }

  lemma FanOutQuiet(db: Db, specs: seq<Spec>, onComplete: Spec, tenant: string, policy: Gates.Policy, now: int)
    ensures Quiet(db, FanOut(db, specs, onComplete, tenant, policy, now))
  {
    var d := OpenGate(db, onComplete, tenant, policy, |specs|);
    assert Quiet(db, d);
    ChildrenQuiet(d, specs, tenant, db.nextGate, now);
    QuietTransitive(db, d, InsertChildren(d, specs, tenant, db.nextGate, now));
  }

  /** Everything but a signal and a wait. */
  lemma OthersQuiet(db: Db, maxChain: nat, ev: Event)
    requires !ev.OnSignal? && !ev.OnWait?
    ensures Quiet(db, Step(db, maxChain, ev))
  {
    match ev
    case OnSubmit(spec, ups, runAt, now) => InsertQuiet(db, Prepared(db, spec, ups, runAt, now));
    case OnFanOut(specs, onComplete, tenant, policy, now) => FanOutQuiet(db, specs, onComplete, tenant, policy, now);
    case OnComplete(id, token, stop, skipped, now) => CompleteQuiet(db, id, token, stop, skipped, now);
    case OnFail(id, token, retryable, workerCap, retryAt, now) =>
      FailQuiet(db, id, token, retryable, workerCap, retryAt, now);
    case OnSweepExhausted(id, now) =>
      if Exhausted(db, id) { FailQuiet(db, id, db.live[id].token.value, false, 0, now, now); }
    case OnCancel(id, cascade) => CancelQuiet(db, id, cascade);
    case OnSweepLease(id) => SweepsQuiet(db, id, 0);
    case OnSweepWait(id, now) => SweepsQuiet(db, id, now);
    case OnClaim(id, now) => ClaimQuiet(db, id, now);
    case OnHeartbeat(id, token, now) => HeartbeatQuiet(db, id, token, now);
  }

  lemma SweepsQuiet(db: Db, id: int, now: int)
    ensures Quiet(db, SweepLease(db, id)) && Quiet(db, SweepWait(db, id, now))
  {
  }

  lemma ClaimQuiet(db: Db, id: int, now: int)
    ensures Quiet(db, Claim(db, id, now))
  {
  }

  lemma HeartbeatQuiet(db: Db, id: int, token: nat, now: int)
    ensures Quiet(db, Heartbeat(db, id, token, now))
  {
  }

  lemma SendConserves(db: Db, tenant: string, key: string, now: int)
    requires Conserved(db.signals, db.log)
    ensures Conserved(Send(db, tenant, key, now).signals, Send(db, tenant, key, now).log)
  {
    var d := Send(db, tenant, key, now);
    forall ch
      ensures ChannelOk(d.signals, d.log, ch)
    {
      assert ChannelOk(db.signals, db.log, ch);
    }
  }

  lemma UpdatedRows(signals: seq<Signal>, i: nat, s: Signal)
    requires i < |signals|
    ensures multiset(signals[i := s]) == multiset(signals) - multiset{signals[i]} + multiset{s}
  {
  }

  lemma ConsumedOne(signals: seq<Signal>, log: Log, i: nat, on: Channel, ch: Channel)
    requires ChannelOk(signals, log, ch) && i < |signals| && signals[i] == Signal(on.tenant, on.key, false)
    ensures ChannelOk(signals[i := Signal(on.tenant, on.key, true)], log.(consumed := log.consumed + multiset{on}), ch)
  {
    UpdatedRows(signals, i, Signal(on.tenant, on.key, true));
    assert signals[i] in multiset(signals);
  }

  lemma WaitConserves(db: Db, id: int, token: nat, tenant: string, key: string)
    requires Conserved(db.signals, db.log)
    ensures Conserved(Wait(db, id, token, tenant, key).signals, Wait(db, id, token, tenant, key).log)
  {
    var p := Pending(db.signals, tenant, key, 0);
    if p.Some? {
      forall ch
        ensures ChannelOk(Wait(db, id, token, tenant, key).signals, Wait(db, id, token, tenant, key).log, ch)
      {
        assert ChannelOk(db.signals, db.log, ch);
        ConsumedOne(db.signals, db.log, p.value, Channel(tenant, key), ch);
      }
    }
  }

  lemma StepConserves(db: Db, maxChain: nat, ev: Event)
    requires Conserved(db.signals, db.log)
    ensures Conserved(Step(db, maxChain, ev).signals, Step(db, maxChain, ev).log)
  {
    match ev
    case OnSignal(tenant, key, now) => SendConserves(db, tenant, key, now);
    case OnWait(id, token, tenant, key) => WaitConserves(db, id, token, tenant, key);
    case _ =>
      OthersQuiet(db, maxChain, ev);
      forall ch
        ensures ChannelOk(Step(db, maxChain, ev).signals, Step(db, maxChain, ev).log, ch)
      {
        assert ChannelOk(db.signals, db.log, ch);
      }
  }

  /** In every run, the signals sent to a tenant's key are those delivered to a waiter, those consumed by
      a wait and those still pending, each counted once. */
  lemma {:induction false} SignalsConserved(db: Db, maxChain: nat, evs: seq<Event>)
    requires Conserved(db.signals, db.log)
    ensures Conserved(Run(db, maxChain, evs).signals, Run(db, maxChain, evs).log)
    decreases |evs|
  {
    if evs != [] {
      StepConserves(db, maxChain, evs[0]);
      SignalsConserved(Step(db, maxChain, evs[0]), maxChain, evs[1..]);
    }
  }

  // ---------------------------------------------------------------- rendezvous

  predicate Misses(s: Signal, job: Job) { !s.consumed && WaitsFor(job, s.tenant, s.key) }

  /** No pending signal sits beside a job that waits for it. */
  ghost predicate Rendezvous(db: Db) {
    forall i, x :: 0 <= i < |db.signals| && x in db.live ==> !Misses(db.signals[i], db.live[x])
  }

  lemma QuietMeets(db: Db, d: Db)
    requires Rendezvous(db) && Quiet(db, d)
    ensures Rendezvous(d)
  {
  }

  lemma {:induction false} NoWaiter(live: map<int, Job>, tenant: string, key: string, i: nat, bound: nat, x: int)
    requires OldestWaiter(live, tenant, key, i, bound).None? && i <= x < bound && x in live
    ensures !WaitsFor(live[x], tenant, key)
    decreases bound - i
  {
    if x != i { NoWaiter(live, tenant, key, i + 1, bound, x); }
  }

  lemma {:induction false} NonePending(signals: seq<Signal>, tenant: string, key: string, i: nat, j: nat)
    requires i <= j < |signals| && Pending(signals, tenant, key, i).None?
    ensures signals[j] != Signal(tenant, key, false)
    decreases |signals| - i
  {
    if i != j { NonePending(signals, tenant, key, i + 1, j); }
  }

  lemma SignalMeets(db: Db, tenant: string, key: string, now: int)
    requires Sane(db) && Rendezvous(db)
    ensures Rendezvous(Send(db, tenant, key, now))
  {
    var d := Send(db, tenant, key, now);
    var w := OldestWaiter(db.live, tenant, key, 0, db.nextId);
    forall i, x | 0 <= i < |d.signals| && x in d.live
      ensures !Misses(d.signals[i], d.live[x])
    {
      assert i < |db.signals| ==> !Misses(db.signals[i], db.live[x]);
      if w.None? {
        assert LiveRow(db, x, db.live[x]);
        NoWaiter(db.live, tenant, key, 0, db.nextId, x);
      }
    }
  }

  /** The wait parks a job although a signal for that job's own tenant and key is pending. */
  predicate WaitsPast(db: Db, id: int, token: nat, tenant: string, key: string) {
    && Holds(db, id, token) && Pending(db.signals, tenant, key, 0).None?
    && Pending(db.signals, db.live[id].spec.tenant, key, 0).Some?
  }

  /** A wait keeps the rendezvous exactly when it does not look under another tenant than the job's
      and so past a pending signal. */
  lemma WaitMeetsIff(db: Db, id: int, token: nat, tenant: string, key: string)
    requires Sane(db) && Rendezvous(db)
    ensures Rendezvous(Wait(db, id, token, tenant, key)) <==> !WaitsPast(db, id, token, tenant, key)
  {
    var d := Wait(db, id, token, tenant, key);
    if WaitsPast(db, id, token, tenant, key) {
      var i := Pending(db.signals, db.live[id].spec.tenant, key, 0).value;
      assert Misses(d.signals[i], d.live[id]);
    } else {
      forall i, x | 0 <= i < |d.signals| && x in d.live
        ensures !Misses(d.signals[i], d.live[x])
      {
        assert !Misses(db.signals[i], db.live[x]);
        if Pending(db.signals, tenant, key, 0).None? && Holds(db, id, token) && x == id {
          NonePending(db.signals, db.live[id].spec.tenant, key, 0, i);
        }
      }
    }
  }

  /** Under the job's own tenant a wait never looks past a signal. */
  predicate OwnTenant(db: Db, ev: Event) {
    ev.OnWait? && Holds(db, ev.id, ev.token) ==> ev.tenant == db.live[ev.id].spec.tenant
  }

  predicate AllOwnTenant(db: Db, maxChain: nat, evs: seq<Event>)
    decreases |evs|
  {
    evs == [] || (OwnTenant(db, evs[0]) && AllOwnTenant(Step(db, maxChain, evs[0]), maxChain, evs[1..]))
  }

  lemma StepMeets(db: Db, maxChain: nat, ev: Event)
    requires Sane(db) && Rendezvous(db) && OwnTenant(db, ev)
    ensures Rendezvous(Step(db, maxChain, ev))
  {
    match ev
    case OnSignal(tenant, key, now) => SignalMeets(db, tenant, key, now);
    case OnWait(id, token, tenant, key) => WaitMeetsIff(db, id, token, tenant, key);
    case _ =>
      OthersQuiet(db, maxChain, ev);
      QuietMeets(db, Step(db, maxChain, ev));
  }

  /** In every run whose waits name the job's own tenant, no signal is pending for a job that waits
      for it. */
  lemma {:induction false} RunMeets(db: Db, maxChain: nat, evs: seq<Event>)
    requires Sane(db) && Rendezvous(db) && AllOwnTenant(db, maxChain, evs)
    ensures Rendezvous(Run(db, maxChain, evs))
    decreases |evs|
  {
    if evs != [] {
      StepSane(db, maxChain, evs[0]);
      StepMeets(db, maxChain, evs[0]);
      RunMeets(Step(db, maxChain, evs[0]), maxChain, evs[1..]);
    }
  }

  /** The worker API always waits under one fixed tenant, so a job of any other tenant misses a signal
      that came first. */
  lemma FixedTenantMissesSignal(spec: Spec, fixed: string, key: string)
    requires spec.tenant != fixed && ChainLength(spec) == 0
    ensures !Rendezvous(Run(Fresh(), 0, [OnSubmit(spec, [], None, 0), OnClaim(0, 0), OnSignal(spec.tenant, key, 0),
                                         OnWait(0, 0, fixed, key)]))
  {
    var e1, e2, e3, e4 := OnSubmit(spec, [], None, 0), OnClaim(0, 0), OnSignal(spec.tenant, key, 0), OnWait(0, 0, fixed, key);
    var d1 := Step(Fresh(), 0, e1);
    var d2 := Step(d1, 0, e2);
    var d3 := Step(d2, 0, e3);
    assert [e1, e2, e3, e4] == [e1] + ([e2] + ([e3] + ([e4] + [])));
    RunCons(Fresh(), 0, e1, [e2] + ([e3] + ([e4] + [])));
    RunCons(d1, 0, e2, [e3] + ([e4] + []));
    RunCons(d2, 0, e3, [e4] + []);
    RunCons(d3, 0, e4, []);
    FirstClaim(spec);
    SignalParks(d2, spec.tenant, key, 0);
    WaitPastIt(d3, 0, 0, fixed, spec.tenant, key);
  }

  lemma SignalParks(db: Db, tenant: string, key: string, now: int)
    requires forall x :: x in db.live ==> !db.live[x].state.Waiting?
    ensures Send(db, tenant, key, now).live == db.live
    ensures Send(db, tenant, key, now).signals == db.signals + [Signal(tenant, key, false)]
  {
  }

  lemma WaitPastIt(db: Db, id: int, token: nat, fixed: string, tenant: string, key: string)
    requires Holds(db, id, token) && db.live[id].spec.tenant == tenant != fixed && db.signals == [Signal(tenant, key, false)]
    ensures !Rendezvous(Wait(db, id, token, fixed, key))
  {
    assert Pending(db.signals, fixed, key, 1).None?;
    assert Pending(db.signals, fixed, key, 0).None?;
    var d := Wait(db, id, token, fixed, key);
    assert Misses(d.signals[0], d.live[id]);
  }

  /** A wait under a lease that is not current changes nothing exactly when no signal is pending:
      otherwise it takes the signal, and nobody gets it. */
  lemma StaleWaitIsHarmlessIff(db: Db, id: int, token: nat, tenant: string, key: string)
    requires !Holds(db, id, token)
    ensures Wait(db, id, token, tenant, key) == db <==> Pending(db.signals, tenant, key, 0).None?
  {
  }

  /** It does happen: a worker that lost its lease to a sweep waits, and the signal sent since is gone,
      though it woke nobody and nobody holds a lease. */
  lemma StaleWaitTakesSignal(spec: Spec, key: string)
    requires spec.maxAttempts > 1 && ChainLength(spec) == 0
    ensures var d := Run(Fresh(), 0, [OnSubmit(spec, [], None, 0), OnClaim(0, 0), OnSweepLease(0),
                                      OnSignal(spec.tenant, key, 0), OnWait(0, 0, spec.tenant, key)]);
            && d.signals == [Signal(spec.tenant, key, true)] && 0 in d.live && d.live[0].state.Queued?
  {
    var e1, e2, e3 := OnSubmit(spec, [], None, 0), OnClaim(0, 0), OnSweepLease(0);
    var e4, e5 := OnSignal(spec.tenant, key, 0), OnWait(0, 0, spec.tenant, key);
    var d1 := Step(Fresh(), 0, e1);
    var d2 := Step(d1, 0, e2);
    var d3 := Step(d2, 0, e3);
    var d4 := Step(d3, 0, e4);
    assert [e1, e2, e3, e4, e5] == [e1] + ([e2] + ([e3] + ([e4] + ([e5] + []))));
    RunCons(Fresh(), 0, e1, [e2] + ([e3] + ([e4] + ([e5] + []))));
    RunCons(d1, 0, e2, [e3] + ([e4] + ([e5] + [])));
    RunCons(d2, 0, e3, [e4] + ([e5] + []));
    RunCons(d3, 0, e4, [e5] + []);
    RunCons(d4, 0, e5, []);
    FirstClaim(spec);
    SignalParks(d3, spec.tenant, key, 0);
    assert d4.signals == [Signal(spec.tenant, key, false)];
  }
}
