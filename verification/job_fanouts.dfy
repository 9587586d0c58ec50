/**
 * Fan-outs over whole runs: a gate stays what the call asked for, and decides as the call's policy does.
 */
module JobFanOuts {
  import opened Claims
  import opened Jobs
  import opened JobSafety
  import opened JobLinks
  import opened JobEffects
  import JobStarts
  import Gates

  /** What a gate is for never changes. */
  predicate SameGate(a: GateRow, b: GateRow) {
    a.gate.policy == b.gate.policy && a.onComplete == b.onComplete && a.tenant == b.tenant && a.children == b.children
  }

  predicate KeepsGate(db: Db, d: Db, g: int) {
    g in d.gates && db.nextGate <= d.nextGate && (g in db.gates ==> SameGate(db.gates[g], d.gates[g]))
  }

  lemma {:induction false} ChildrenKeepGates(db: Db, specs: seq<Spec>, tenant: string, gid: int, now: int)
    ensures var d := InsertChildren(db, specs, tenant, gid, now);
            d.gates == db.gates && d.nextGate == db.nextGate && d.nextId == db.nextId + |specs|
    decreases |specs|
  {
    if specs != [] {
      ChildrenKeepGates(Insert(db, ChildJob(specs[0], tenant, gid, now)), specs[1..], tenant, gid, now);
    }
  }

  lemma SettleKeepsGate(db: Db, child: int, gate: Option<int>, o: Gates.Outcome, now: int, g: int)
    requires g in db.gates
    ensures KeepsGate(db, SettleGate(db, child, gate, o, now), g)
  {
  }

  lemma CompleteKeepsGate(db: Db, id: int, token: nat, stop: bool, skipped: bool, now: int, g: int)
    requires g in db.gates
    ensures KeepsGate(db, Complete(db, id, token, stop, skipped, now), g)
  {
    if Holds(db, id, token) {
      var job := db.live[id];
      var d1 := Move(db, id, Succeeded, skipped, stop);
      var d3 := DecrementDeps(if stop then d1 else Continue(d1, id, job, now), id, now);
      SettleKeepsGate(d3, id, job.gate, if skipped then Gates.Skipped else Gates.Won, now, g);
    }
  }

  lemma DieKeepsGate(db: Db, id: int, now: int, g: int)
    requires g in db.gates && id in db.live
    ensures KeepsGate(db, Die(db, id, now), g)
  {
    SettleKeepsGate(Move(db, id, Dead, false, false), id, db.live[id].gate, Gates.Lost, now, g);
  }

  lemma StepKeepsGate(db: Db, maxChain: nat, ev: Event, g: int)
    requires g in db.gates && g < db.nextGate
    ensures KeepsGate(db, Step(db, maxChain, ev), g)
  {
    match ev
    case OnFanOut(specs, onComplete, tenant, policy, now) =>
      ChildrenKeepGates(OpenGate(db, onComplete, tenant, policy, |specs|), specs, tenant, db.nextGate, now);
    case OnComplete(id, token, stop, skipped, now) => CompleteKeepsGate(db, id, token, stop, skipped, now, g);
    case OnFail(id, token, retryable, workerCap, retryAt, now) =>
      if Holds(db, id, token) { DieKeepsGate(db, id, now, g); }
    case OnSweepExhausted(id, now) =>
      if Exhausted(db, id) { DieKeepsGate(db, id, now, g); }
    case _ => OthersKeepGates(db, maxChain, ev);
  }

  lemma OthersKeepGates(db: Db, maxChain: nat, ev: Event)
    requires !ev.OnFanOut? && !ev.OnComplete? && !ev.OnFail? && !ev.OnSweepExhausted?
    ensures Step(db, maxChain, ev).gates == db.gates && Step(db, maxChain, ev).nextGate == db.nextGate
  {
  }

  lemma {:induction false} RunKeepsGate(db: Db, maxChain: nat, evs: seq<Event>, g: int)
    requires g in db.gates && g < db.nextGate
    ensures KeepsGate(db, Run(db, maxChain, evs), g)
    decreases |evs|
  {
    if evs != [] {
      StepKeepsGate(db, maxChain, evs[0], g);
      RunKeepsGate(Step(db, maxChain, evs[0]), maxChain, evs[1..], g);
    }
  }

  /** Child i of a fan-out: the i-th specification for the gate's tenant, queued and due, under the gate. */
  predicate IsChild(job: Job, spec: Spec, tenant: string, gid: int, now: int) {
    && job.spec == spec.(tenant := tenant) && job.gate == Some(gid) && job.state.Queued? && job.runAt == now
    && job.token.None? && job.attempt == 0 && job.ups == {} && !job.cancelRequested
  }

  lemma {:induction false} ChildAt(db: Db, specs: seq<Spec>, tenant: string, gid: int, now: int, i: nat)
    requires i < |specs|
    ensures HasChild(InsertChildren(db, specs, tenant, gid, now), db.nextId + i, specs[i], tenant, gid, now)
    decreases |specs|
  {
    var d := Insert(db, ChildJob(specs[0], tenant, gid, now));
    if i == 0 {
      JobStarts.ChildrenKeep(d, specs[1..], tenant, gid, now, db.nextId);
    } else {
      ChildAt(d, specs[1..], tenant, gid, now, i - 1);
    }
  }

  /** A gate that has what the call gave it, with no child settled. */
  ghost predicate IsGateFor(row: GateRow, first: int, n: nat, onComplete: Spec, tenant: string, policy: Gates.Policy) {
    && row.gate == Gates.Gate(policy, Gates.Progress(n, 0, 0, 0), false, false)
    && row.onComplete == onComplete && row.tenant == tenant && row.settled == {}
    && |row.children| == n && (forall c :: c in row.children <==> first <= c < first + n)
  }

  /** What a fan-out opens: the gate, and a queued child for every specification. */
  ghost predicate OpensFor(db: Db, g: int, first: int, specs: seq<Spec>, onComplete: Spec, tenant: string,
                           policy: Gates.Policy, now: int)
  {
    && g in db.gates && IsGateFor(db.gates[g], first, |specs|, onComplete, tenant, policy)
    && (forall i :: 0 <= i < |specs| ==> HasChild(db, first + i, specs[i], tenant, g, now))
  }

  predicate HasChild(db: Db, x: int, spec: Spec, tenant: string, gid: int, now: int) {
    x in db.live && IsChild(db.live[x], spec, tenant, gid, now)
  }

  lemma OpenGateIsFor(db: Db, n: nat, onComplete: Spec, tenant: string, policy: Gates.Policy)
    ensures var d := OpenGate(db, onComplete, tenant, policy, n);
            db.nextGate in d.gates && IsGateFor(d.gates[db.nextGate], db.nextId, n, onComplete, tenant, policy)
  {
    IdRangeIs(db.nextId, n);
  }

  lemma FanOutOpensFor(db: Db, specs: seq<Spec>, onComplete: Spec, tenant: string, policy: Gates.Policy, now: int)
    requires specs != []
    ensures OpensFor(FanOut(db, specs, onComplete, tenant, policy, now), db.nextGate, db.nextId, specs, onComplete, tenant,
                     policy, now)
  {
    var d := OpenGate(db, onComplete, tenant, policy, |specs|);
    var e := InsertChildren(d, specs, tenant, db.nextGate, now);
    OpenGateIsFor(db, |specs|, onComplete, tenant, policy);
    ChildrenKeepGates(d, specs, tenant, db.nextGate, now);
    assert FanOut(db, specs, onComplete, tenant, policy, now) == e && e.gates[db.nextGate] == d.gates[db.nextGate];
    forall i | 0 <= i < |specs|
      ensures HasChild(e, db.nextId + i, specs[i], tenant, db.nextGate, now)
    {
      ChildAt(d, specs, tenant, db.nextGate, now, i);
    }
  }

  /** The gate of a fan-out, after whatever follows, is still the one the call asked for. */
  lemma FanOutStays(maxChain: nat, before: seq<Event>, ev: Event, after: seq<Event>)
    requires ev.OnFanOut? && ev.specs != []
    ensures var d0, db := Run(Fresh(), maxChain, before), Run(Fresh(), maxChain, before + [ev] + after);
            && d0.nextGate in db.gates
            && var row := db.gates[d0.nextGate];
               && row.gate.policy == ev.policy && row.onComplete == ev.onComplete && row.tenant == ev.tenant
               && (forall c :: c in row.children <==> d0.nextId <= c < d0.nextId + |ev.specs|)
               && |row.children| == |ev.specs|
  {
    var d0 := Run(Fresh(), maxChain, before);
    var d1 := Step(d0, maxChain, ev);
    RunConcat(Fresh(), maxChain, before, [ev] + after);
    RunCons(d0, maxChain, ev, after);
    assert before + [ev] + after == before + ([ev] + after);
    FanOutOpensFor(d0, ev.specs, ev.onComplete, ev.tenant, ev.policy, ev.now);
    ChildrenKeepGates(OpenGate(d0, ev.onComplete, ev.tenant, ev.policy, |ev.specs|), ev.specs, ev.tenant, d0.nextGate, ev.now);
    RunKeepsGate(d1, maxChain, after, d0.nextGate);
  }

  /** The ids of `n` jobs from `first` on that ended in one way. */
  function Winners(db: Db, first: int, n: nat): set<int> {
    set c | c in db.archive && first <= c < first + n && db.archive[c].state.Succeeded? && !db.archive[c].past.skipped
  }

  function Losers(db: Db, first: int, n: nat): set<int> {
    set c | c in db.archive && first <= c < first + n && db.archive[c].state.Dead?
  }

  /** The gate fired on the branch that its policy gives for the ends of its children, and the job of that
      branch is the continuation or its failure hook. */
  ghost predicate Decides(db: Db, g: int, first: int, n: nat, onComplete: Spec, tenant: string, policy: Gates.Policy) {
    var met := Gates.Satisfied(policy, Gates.Progress(n, n, |Winners(db, first, n)|, |Losers(db, first, n)|));
    && g in db.gates && db.gates[g].gate.fired && db.gates[g].gate.branch == met
    && (met || onComplete.onFailure.Some? ==>
          && g in db.log.branchOf && Known(db, db.log.branchOf[g])
          && var spec := JobOf(db, db.log.branchOf[g]).spec;
             if met then spec == onComplete.(tenant := tenant) else IsHookOf(spec, onComplete.onFailure.value, tenant))
  }

  /** With every child in, a gate's counts are those of the winners and the losers. */
  lemma WonAndLost(db: Db, row: GateRow, first: int, n: nat)
    requires forall c :: c in row.children <==> first <= c < first + n
    requires forall c :: c in row.settled <==> c in row.children && c in db.archive && Ran(db.archive[c])
    requires forall c :: c in row.won <==>
               c in row.children && c in db.archive && db.archive[c].state.Succeeded? && !db.archive[c].past.skipped
    requires forall c :: c in row.lost <==> c in row.children && c in db.archive && db.archive[c].state.Dead?
    requires forall c :: first <= c < first + n ==> c in db.archive && Ran(db.archive[c])
    ensures row.settled == row.children && row.won == Winners(db, first, n) && row.lost == Losers(db, first, n)
  {
    forall c
      ensures c in row.settled <==> c in row.children
      ensures c in row.won <==> c in Winners(db, first, n)
      ensures c in row.lost <==> c in Losers(db, first, n)
    {
      assert c in row.children <==> first <= c < first + n;
    }
  }

  /** In every run, whatever follows a fan-out: once all its children ran to an end, its gate decides as the
      policy of the call does. */
  lemma FanOutDecides(maxChain: nat, before: seq<Event>, ev: Event, after: seq<Event>)
    requires ev.OnFanOut? && ev.specs != []
    ensures var d0, db := Run(Fresh(), maxChain, before), Run(Fresh(), maxChain, before + [ev] + after);
            (forall c :: d0.nextId <= c < d0.nextId + |ev.specs| ==> c in db.archive && Ran(db.archive[c])) ==>
              Decides(db, d0.nextGate, d0.nextId, |ev.specs|, ev.onComplete, ev.tenant, ev.policy)
  {
    var d0, evs := Run(Fresh(), maxChain, before), before + [ev] + after;
    var db, g := Run(Fresh(), maxChain, evs), d0.nextGate;
    FanOutStays(maxChain, before, ev, after);
    GatesCountChildren(maxChain, evs, g);
    BranchesMatchPolicies(maxChain, evs, g);
    if forall c :: d0.nextId <= c < d0.nextId + |ev.specs| ==> c in db.archive && Ran(db.archive[c]) {
      WonAndLost(db, db.gates[g], d0.nextId, |ev.specs|);
    }
  }
}
