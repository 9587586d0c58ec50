/**
 * What a finished job sets off: one gate bump, one chain continuation, one failure hook. The three
 * invariants below hold between transactions; inside one, `Owed` names what the finishing job has
 * not set off yet.
 */
module JobLinks {
  import opened Claims
  import opened Jobs
  import opened JobSafety
  import Gates

  /** The finished job whose bump, continuation or hook is still to come, and the children of `gate`
      that are still to be inserted, and a gate that fired and whose job is still to be inserted. */
  datatype Owed = Owed(bump: set<int>, cont: set<int>, hook: set<int>, unborn: set<int>, gate: int, branch: set<int>)

  const NOTHING := Owed({}, {}, {}, {}, 0, {})

  /** Right after a job moved to the archive. */
  function AllOf(id: int): Owed { Owed({id}, {id}, {id}, {}, 0, {}) }

  predicate WantsBump(job: Job) { Ran(job) && job.gate.Some? }

  predicate WantsNext(job: Job) { job.state.Succeeded? && !job.past.stopped && job.spec.onSuccess != "" }

  predicate WantsHook(job: Job) { job.state.Dead? && job.spec.onFailure.Some? }

  // ---------------------------------------------------------------- effects happen exactly once

  function One(b: bool): nat { if b then 1 else 0 }

  predicate EffectsOf(db: Db, x: int, o: Owed) {
    && db.log.bumped[x] == One(x in db.archive && x !in o.bump && WantsBump(db.archive[x]))
    && db.log.continued[x] == One(x in db.archive && x !in o.cont && WantsNext(db.archive[x]))
    && db.log.hooked[x] == One(x in db.archive && x !in o.hook && WantsHook(db.archive[x]))
  }

  ghost predicate Once(db: Db, o: Owed) {
    forall x :: EffectsOf(db, x, o)
  }

  // ---------------------------------------------------------------- gates count their children

  predicate Known(db: Db, x: int) { x in db.live || x in db.archive }

  function JobOf(db: Db, x: int): Job
    requires Known(db, x)
  {
    if x in db.live then db.live[x] else db.archive[x]
  }

  predicate Counts(db: Db, c: int, o: Owed) {
    c in db.archive && Ran(db.archive[c]) && c !in o.bump
  }

  /** A child is settled exactly when it ran to an end, and counted by how it ended. */
  predicate ChildOk(db: Db, gid: int, row: GateRow, c: int, o: Owed) {
    if c in o.unborn then gid == o.gate && c >= db.nextId && c !in row.settled
    else
      && Known(db, c) && JobOf(db, c).gate == Some(gid)
      && (c in row.settled <==> Counts(db, c, o))
      && (c in row.won <==> Counts(db, c, o) && db.archive[c].state.Succeeded? && !db.archive[c].past.skipped)
      && (c in row.lost <==> Counts(db, c, o) && db.archive[c].state.Dead?)
  }

  predicate RowOk(row: GateRow) {
    && row.won <= row.settled && row.lost <= row.settled && row.won !! row.lost && row.settled <= row.children
    && row.gate.progress == Gates.Progress(|row.children|, |row.settled|, |row.won|, |row.lost|)
    && Gates.Settled(row.gate)
  }

  predicate GateOk(db: Db, gid: int, row: GateRow, o: Owed) {
    RowOk(row) && forall c :: c in row.children ==> ChildOk(db, gid, row, c, o)
  }

  predicate Enrolled(db: Db, x: int, job: Job) {
    job.gate.Some? ==> job.gate.value in db.gates && x in db.gates[job.gate.value].children
  }

  ghost predicate Gated(db: Db, o: Owed) {
    && (forall g :: g in db.gates ==> 0 <= g < db.nextGate && GateOk(db, g, db.gates[g], o))
    && (forall x :: x in db.live ==> Enrolled(db, x, db.live[x]))
    && (forall x :: x in db.archive ==> Enrolled(db, x, db.archive[x]))
  }

  // ---------------------------------------------------------------- chains grow link by link

  predicate LinkOk(db: Db, chain: int, links: seq<int>, i: int, o: Owed)
    requires 0 <= i < |links|
  {
    && Known(db, links[i]) && JobOf(db, links[i]).past.chain == chain
    && (if i < |links| - 1 then
          && links[i] in db.archive && WantsNext(db.archive[links[i]]) && links[i] !in o.cont
          && Known(db, links[i + 1]) && JobOf(db, links[i + 1]).spec == Advance(db.archive[links[i]].spec)
        else links[i] in db.archive && WantsNext(db.archive[links[i]]) ==> links[i] in o.cont)
  }

  predicate ChainOk(db: Db, chain: int, links: seq<int>, o: Owed) {
    && links != [] && links[0] == chain
    && (forall i :: 0 <= i < |links| ==> LinkOk(db, chain, links, i, o))
  }

  predicate OnChain(db: Db, x: int, job: Job) {
    job.past.chain in db.log.chains && x in db.log.chains[job.past.chain]
  }

  ghost predicate Chained(db: Db, o: Owed) {
    && (forall c :: c in db.log.chains ==> ChainOk(db, c, db.log.chains[c], o))
    && (forall x :: x in db.live ==> OnChain(db, x, db.live[x]))
    && (forall x :: x in db.archive ==> OnChain(db, x, db.archive[x]))
  }

  /** Field by field, the link after one with specification `spec`. */
  predicate IsNextOf(next: Spec, spec: Spec) {
    && next.task == spec.onSuccess && next.tenant == spec.tenant && next.onFailure == spec.onFailure
    && next.maxAttempts == 5
    && (if spec.tail == [] then next.onSuccess == "" && next.tail == []
        else [next.onSuccess] + next.tail == spec.tail)
  }

  lemma AdvanceIsNext(spec: Spec)
    ensures IsNextOf(Advance(spec), spec)
  {
  }

  // ---------------------------------------------------------------- hooks and branches have a cause

  /** Field by field, the job that runs the stored hook `h` for `tenant`. */
  predicate IsHookOf(spec: Spec, h: Hook, tenant: string) {
    && spec.task == h.task && spec.onSuccess == h.onSuccess && spec.tail == h.tail && spec.tenant == tenant
    && spec.onFailure.None? && spec.maxAttempts == 5
  }

  lemma HookIsStored(h: Hook, tenant: string)
    ensures IsHookOf(HookSpec(h, tenant), h, tenant)
  {
  }

  predicate Traced(db: Db, x: int, origin: Origin) {
    match origin
    case OfDead(p) => p in db.log.hookOf && db.log.hookOf[p] == x
    case OfGate(g) => g in db.log.branchOf && db.log.branchOf[g] == x
    case _ => true
  }

  predicate Hooked(db: Db, p: int, x: int, o: Owed) {
    && p in db.archive && WantsHook(db.archive[p]) && p !in o.hook
    && Known(db, x) && JobOf(db, x).spec == HookSpec(db.archive[p].spec.onFailure.value, db.archive[p].spec.tenant)
  }

  /** The gate fired and has a job for the branch it took. */
  predicate Materializes(row: GateRow) {
    row.gate.fired && (row.gate.branch || row.onComplete.onFailure.Some?)
  }

  function BranchSpec(row: GateRow): Spec
    requires Materializes(row)
  {
    if row.gate.branch then row.onComplete.(tenant := row.tenant)
    else HookSpec(row.onComplete.onFailure.value, row.tenant)
  }

  predicate Branched(db: Db, g: int, x: int, o: Owed) {
    && g in db.gates && Materializes(db.gates[g]) && g !in o.branch
    && Known(db, x) && JobOf(db, x).spec == BranchSpec(db.gates[g])
  }

  ghost predicate Traces(db: Db) {
    && (forall x :: x in db.live ==> Traced(db, x, db.live[x].past.origin))
    && (forall x :: x in db.archive ==> Traced(db, x, db.archive[x].past.origin))
  }

  ghost predicate Hooks(db: Db, o: Owed) {
    && (forall p :: p in db.log.hookOf ==> Hooked(db, p, db.log.hookOf[p], o))
    && (forall p :: p in db.archive && WantsHook(db.archive[p]) && p !in o.hook ==> p in db.log.hookOf)
  }

  ghost predicate Branches(db: Db, o: Owed) {
    && (forall g :: g in db.log.branchOf ==> Branched(db, g, db.log.branchOf[g], o))
    && (forall g :: g in db.gates && Materializes(db.gates[g]) && g !in o.branch ==> g in db.log.branchOf)
  }

  ghost predicate Sourced(db: Db, o: Owed) {
    Traces(db) && Hooks(db, o) && Branches(db, o)
  }

  ghost predicate Linked(db: Db, o: Owed) {
    Once(db, o) && Gated(db, o) && Chained(db, o) && Sourced(db, o)
  }

  // ---------------------------------------------------------------- statements: effects

  lemma OnceSame(db: Db, d: Db, o: Owed)
    requires Once(db, o) && d.archive == db.archive && d.log.bumped == db.log.bumped
    requires d.log.continued == db.log.continued && d.log.hooked == db.log.hooked
    ensures Once(d, o)
  {
    forall x
      ensures EffectsOf(d, x, o)
    {
      assert EffectsOf(db, x, o);
    }
  }

  lemma OnceMove(db: Db, id: int, final: State, skipped: bool, stopped: bool)
    requires Sane(db) && Once(db, NOTHING) && id in db.live
    ensures Once(Move(db, id, final, skipped, stopped), AllOf(id))
  {
    var d := Move(db, id, final, skipped, stopped);
    assert LiveRow(db, id, db.live[id]);
    forall x
      ensures EffectsOf(d, x, AllOf(id))
    {
      assert EffectsOf(db, x, NOTHING);
    }
  }

  lemma OnceCancelAll(db: Db, ids: set<int>)
    requires Sane(db) && Once(db, NOTHING)
    ensures Once(CancelAll(db, ids), NOTHING)
  {
    var d := CancelAll(db, ids);
    forall x
      ensures EffectsOf(d, x, NOTHING)
    {
      assert EffectsOf(db, x, NOTHING);
      if x in db.live { assert LiveRow(db, x, db.live[x]); }
    }
  }

  /** What the finished job does not set off is not owed. */
  lemma OnceForgive(db: Db, id: int, o: Owed, p: Owed)
    requires Once(db, o) && id in db.archive && p.bump <= o.bump <= {id} && p.cont <= o.cont <= {id} && p.hook <= o.hook <= {id}
    requires WantsBump(db.archive[id]) ==> p.bump == o.bump
    requires WantsNext(db.archive[id]) ==> p.cont == o.cont
    requires WantsHook(db.archive[id]) ==> p.hook == o.hook
    ensures Once(db, p)
  {
    forall x
      ensures EffectsOf(db, x, p)
    {
      assert EffectsOf(db, x, o);
    }
  }

  lemma OnceBump(db: Db, d: Db, id: int, o: Owed)
    requires Once(db, o) && o.bump == {id} && id in db.archive && WantsBump(db.archive[id])
    requires d.archive == db.archive && d.log == db.log.(bumped := db.log.bumped + multiset{id})
    ensures Once(d, o.(bump := {}))
  {
    forall x
      ensures EffectsOf(d, x, o.(bump := {}))
    {
      assert EffectsOf(db, x, o);
    }
  }

  lemma OnceContinue(db: Db, d: Db, id: int, o: Owed)
    requires Once(db, o) && o.cont == {id} && id in db.archive && WantsNext(db.archive[id])
    requires d.archive == db.archive && d.log.bumped == db.log.bumped && d.log.hooked == db.log.hooked
    requires d.log.continued == db.log.continued + multiset{id}
    ensures Once(d, o.(cont := {}))
  {
    forall x
      ensures EffectsOf(d, x, o.(cont := {}))
    {
      assert EffectsOf(db, x, o);
    }
  }

  lemma OnceHook(db: Db, d: Db, id: int, o: Owed)
    requires Once(db, o) && o.hook == {id} && id in db.archive && WantsHook(db.archive[id])
    requires d.archive == db.archive && d.log.bumped == db.log.bumped && d.log.continued == db.log.continued
    requires d.log.hooked == db.log.hooked + multiset{id}
    ensures Once(d, o.(hook := {}))
  {
    forall x
      ensures EffectsOf(d, x, o.(hook := {}))
    {
      assert EffectsOf(db, x, o);
    }
  }

  // ---------------------------------------------------------------- statements: gates

  /** The tables keep every job's gate, and the archive is the same. */
  ghost predicate SameJobs(db: Db, d: Db) {
    && d.archive == db.archive && db.nextId <= d.nextId
    && (forall x :: x in db.live ==> x in d.live && d.live[x].gate == db.live[x].gate)
    && (forall x :: x in d.live && x !in db.live ==> x !in db.archive)
  }

  /** Updates of live rows, and new rows without a gate. */
  lemma GatedSame(db: Db, d: Db, o: Owed)
    requires Gated(db, o) && SameJobs(db, d) && d.gates == db.gates && d.nextGate == db.nextGate
    requires forall c :: c in o.unborn ==> c >= d.nextId
    requires forall x :: x in d.live ==> if x in db.live then d.live[x].gate == db.live[x].gate else d.live[x].gate.None?
    ensures Gated(d, o)
  {
  }

  lemma GatedMove(db: Db, id: int, final: State, skipped: bool, stopped: bool)
    requires Sane(db) && Gated(db, NOTHING) && id in db.live
    ensures Gated(Move(db, id, final, skipped, stopped), AllOf(id))
  {
  }

  /** A bump is not owed by a job that was cancelled or has no gate. */
  lemma GatedForgive(db: Db, id: int, o: Owed, p: Owed)
    requires Gated(db, o) && id in db.archive && id !in db.live && p.unborn == o.unborn && p.gate == o.gate && p.bump <= o.bump <= {id}
    requires WantsBump(db.archive[id]) ==> p.bump == o.bump
    ensures Gated(db, p)
  {
  }

  lemma CancelledChild(db: Db, ids: set<int>, gid: int, row: GateRow, c: int)
    requires Sane(db) && ChildOk(db, gid, row, c, NOTHING)
    ensures ChildOk(CancelAll(db, ids), gid, row, c, NOTHING)
  {
  }

  lemma GatedCancelAll(db: Db, ids: set<int>)
    requires Sane(db) && Gated(db, NOTHING)
    ensures Gated(CancelAll(db, ids), NOTHING)
  {
    var d := CancelAll(db, ids);
    forall g | g in d.gates
      ensures 0 <= g < d.nextGate && GateOk(d, g, d.gates[g], NOTHING)
    {
      assert GateOk(db, g, db.gates[g], NOTHING);
      forall c | c in db.gates[g].children
        ensures ChildOk(d, g, db.gates[g], c, NOTHING)
      {
        CancelledChild(db, ids, g, db.gates[g], c);
      }
    }
    forall x | x in d.live
      ensures Enrolled(d, x, d.live[x])
    {
      assert Enrolled(db, x, db.live[x]);
    }
    forall x | x in d.archive
      ensures Enrolled(d, x, d.archive[x])
    {
      if x in db.live && x in ids { assert Enrolled(db, x, db.live[x]); } else { assert Enrolled(db, x, db.archive[x]); }
    }
  }

  predicate Matches(job: Job, oc: Gates.Outcome) {
    && (oc.Won? <==> job.state.Succeeded? && !job.past.skipped)
    && (oc.Lost? <==> job.state.Dead?)
  }

  lemma StillRoom(settled: set<int>, children: set<int>, id: int)
    requires settled <= children && id in children && id !in settled
    ensures |settled| < |children|
  {
    assert children == settled + {id} + (children - settled - {id});
  }

  lemma RowCounted(row: GateRow, id: int, oc: Gates.Outcome)
    requires RowOk(row) && id in row.children && id !in row.settled
    ensures RowOk(Counted(row, id, oc))
  {
    StillRoom(row.settled, row.children, id);
    Gates.BumpSettles(row.gate, oc);
    var next := Counted(row, id, oc);
    assert |next.settled| == |row.settled| + 1;
    assert |next.won| == |row.won| + (if oc.Won? then 1 else 0);
    assert |next.lost| == |row.lost| + (if oc.Lost? then 1 else 0);
    assert next.gate.progress == Gates.Count(row.gate.progress, oc);
  }

  lemma ChildBumped(db: Db, gid: int, id: int, oc: Gates.Outcome, g: int, c: int, o: Owed)
    requires gid in db.gates && g in db.gates && c in db.gates[g].children && ChildOk(db, g, db.gates[g], c, o)
    requires o.bump == {id} && id in db.archive && id !in db.live && Ran(db.archive[id]) && Matches(db.archive[id], oc)
    requires db.archive[id].gate == Some(gid) && id !in o.unborn
    ensures ChildOk(BumpGate(db, id, gid, oc), g, BumpGate(db, id, gid, oc).gates[g], c, o.(bump := {}))
  {
  }

  lemma GatedBump(db: Db, gid: int, id: int, oc: Gates.Outcome, o: Owed)
    requires Gated(db, o) && o.bump == {id} && o.unborn == {} && gid in db.gates
    requires id in db.archive && id !in db.live && Ran(db.archive[id]) && Matches(db.archive[id], oc)
    requires db.archive[id].gate == Some(gid)
    ensures Gated(BumpGate(db, id, gid, oc), o.(bump := {}))
  {
    var d := BumpGate(db, id, gid, oc);
    assert Enrolled(db, id, db.archive[id]);
    forall g | g in d.gates
      ensures 0 <= g < d.nextGate && GateOk(d, g, d.gates[g], o.(bump := {}))
    {
      assert GateOk(db, g, db.gates[g], o);
      if g == gid {
        assert ChildOk(db, gid, db.gates[gid], id, o);
        RowCounted(db.gates[gid], id, oc);
      }
      forall c | c in d.gates[g].children
        ensures ChildOk(d, g, d.gates[g], c, o.(bump := {}))
      {
        ChildBumped(db, gid, id, oc, g, c, o);
      }
    }
    forall x | x in d.live
      ensures Enrolled(d, x, d.live[x])
    {
      assert Enrolled(db, x, db.live[x]);
    }
    forall x | x in d.archive
      ensures Enrolled(d, x, d.archive[x])
    {
      assert Enrolled(db, x, db.archive[x]);
    }
  }

  lemma {:induction false} IdRangeIs(from: int, n: nat)
    ensures |IdRange(from, n)| == n && forall x :: x in IdRange(from, n) <==> from <= x < from + n
    decreases n
  {
    if n > 0 { IdRangeIs(from + 1, n - 1); }
  }

  /** A new gate expects the ids its children are about to get. */
  lemma GatedOpen(db: Db, onComplete: Spec, tenant: string, policy: Gates.Policy, n: nat)
    requires Sane(db) && Gated(db, NOTHING) && n > 0
    ensures Gated(OpenGate(db, onComplete, tenant, policy, n), NOTHING.(unborn := IdRange(db.nextId, n), gate := db.nextGate))
  {
    var d := OpenGate(db, onComplete, tenant, policy, n);
    var o := NOTHING.(unborn := IdRange(db.nextId, n), gate := db.nextGate);
    IdRangeIs(db.nextId, n);
    forall g | g in d.gates
      ensures 0 <= g < d.nextGate && GateOk(d, g, d.gates[g], o)
    {
      if g != db.nextGate {
        assert GateOk(db, g, db.gates[g], NOTHING);
        forall c | c in d.gates[g].children
          ensures ChildOk(d, g, d.gates[g], c, o)
        {
          ChildOfOlder(db, d, g, db.gates[g], c, o);
        }
      }
    }
    forall x | x in d.live
      ensures Enrolled(d, x, d.live[x])
    {
      assert Enrolled(db, x, db.live[x]);
    }
    forall x | x in d.archive
      ensures Enrolled(d, x, d.archive[x])
    {
      assert Enrolled(db, x, db.archive[x]);
    }
  }

  lemma ChildOfOlder(db: Db, d: Db, g: int, row: GateRow, c: int, o: Owed)
    requires Sane(db) && ChildOk(db, g, row, c, NOTHING) && d.live == db.live && d.archive == db.archive
    requires o == NOTHING.(unborn := o.unborn, gate := o.gate) && forall x :: x in o.unborn ==> x >= db.nextId
    ensures ChildOk(d, g, row, c, o)
  {
  }

  /** Each child takes the id it was expected under. */
  lemma GatedChild(db: Db, job: Job, n: nat, o: Owed)
    requires Sane(db) && Gated(db, o) && n > 0 && o == NOTHING.(unborn := IdRange(db.nextId, n), gate := o.gate)
    requires job.gate == Some(o.gate) && o.gate in db.gates && IdRange(db.nextId, n) <= db.gates[o.gate].children
    requires IsLive(job.state)
    ensures Gated(Insert(db, job), o.(unborn := IdRange(db.nextId + 1, n - 1)))
  {
    var d := Insert(db, job);
    var p := o.(unborn := IdRange(db.nextId + 1, n - 1));
    IdRangeIs(db.nextId, n);
    IdRangeIs(db.nextId + 1, n - 1);
    forall g | g in d.gates
      ensures 0 <= g < d.nextGate && GateOk(d, g, d.gates[g], p)
    {
      assert GateOk(db, g, db.gates[g], o);
      forall c | c in d.gates[g].children
        ensures ChildOk(d, g, d.gates[g], c, p)
      {
        ChildInserted(db, job, n, o, g, c);
      }
    }
    forall x | x in d.live
      ensures Enrolled(d, x, d.live[x])
    {
      if x != db.nextId { assert Enrolled(db, x, db.live[x]); }
    }
    forall x | x in d.archive
      ensures Enrolled(d, x, d.archive[x])
    {
      assert Enrolled(db, x, db.archive[x]);
    }
  }

  lemma ChildInserted(db: Db, job: Job, n: nat, o: Owed, g: int, c: int)
    requires Sane(db) && g in db.gates && GateOk(db, g, db.gates[g], o) && ChildOk(db, g, db.gates[g], c, o)
    requires n > 0 && o == NOTHING.(unborn := IdRange(db.nextId, n), gate := o.gate) && job.gate == Some(o.gate)
    requires IsLive(job.state)
    ensures ChildOk(Insert(db, job), g, db.gates[g], c, o.(unborn := IdRange(db.nextId + 1, n - 1)))
  {
    IdRangeIs(db.nextId, n);
    IdRangeIs(db.nextId + 1, n - 1);
    assert c in db.live ==> LiveRow(db, c, db.live[c]);
    assert c in db.archive ==> ArchivedRow(db, c, db.archive[c]);
    assert db.gates[g].won <= db.gates[g].settled && db.gates[g].lost <= db.gates[g].settled;
  }

  // ---------------------------------------------------------------- statements: chains

  predicate SameLink(a: Job, b: Job) {
    a.spec == b.spec && a.past.chain == b.past.chain && a.past.origin == b.past.origin
  }

  lemma LinkSame(db: Db, d: Db, chain: int, links: seq<int>, i: int, o: Owed)
    requires 0 <= i < |links| && LinkOk(db, chain, links, i, o) && d.archive == db.archive
    requires forall x :: x in db.live ==> x in d.live && SameLink(d.live[x], db.live[x])
    requires forall x :: x in d.live && x !in db.live ==> x !in db.archive
    ensures LinkOk(d, chain, links, i, o)
  {
  }

  lemma ChainSame(db: Db, d: Db, c: int, o: Owed)
    requires Chained(db, o) && c in db.log.chains && d.archive == db.archive
    requires forall x :: x in db.live ==> x in d.live && SameLink(d.live[x], db.live[x])
    requires forall x :: x in d.live && x !in db.live ==> x !in db.archive
    ensures ChainOk(d, c, db.log.chains[c], o)
  {
    var links := db.log.chains[c];
    assert ChainOk(db, c, links, o);
    forall i | 0 <= i < |links|
      ensures LinkOk(d, c, links, i, o)
    {
      LinkSame(db, d, c, links, i, o);
    }
  }

  lemma ChainedSame(db: Db, d: Db, o: Owed)
    requires Chained(db, o) && d.archive == db.archive && d.log.chains == db.log.chains && d.live.Keys == db.live.Keys
    requires forall x :: x in db.live ==> SameLink(d.live[x], db.live[x])
    ensures Chained(d, o)
  {
    forall c | c in d.log.chains
      ensures ChainOk(d, c, d.log.chains[c], o)
    {
      ChainSame(db, d, c, o);
    }
    forall x | x in d.live
      ensures OnChain(d, x, d.live[x])
    {
      assert OnChain(db, x, db.live[x]);
    }
    forall x | x in d.archive
      ensures OnChain(d, x, d.archive[x])
    {
      assert OnChain(db, x, db.archive[x]);
    }
  }

  lemma ChainKeys(db: Db, o: Owed, c: int)
    requires Sane(db) && Chained(db, o) && c in db.log.chains
    ensures c < db.nextId
  {
    assert ChainOk(db, c, db.log.chains[c], o) && LinkOk(db, c, db.log.chains[c], 0, o);
    assert c in db.live ==> LiveRow(db, c, db.live[c]);
    assert c in db.archive ==> ArchivedRow(db, c, db.archive[c]);
  }

  lemma ChainedInsert(db: Db, job: Job, o: Owed)
    requires Sane(db) && Chained(db, o)
    ensures Chained(Insert(db, job), o)
  {
    var d := Insert(db, job);
    forall c | c in d.log.chains
      ensures ChainOk(d, c, d.log.chains[c], o)
    {
      if c != db.nextId {
        ChainSame(db, d, c, o);
      } else {
        FirstLink(d, c, o);
      }
    }
    forall x | x in d.live
      ensures OnChain(d, x, d.live[x])
    {
      if x != db.nextId {
        assert OnChain(db, x, db.live[x]);
        ChainKeys(db, o, db.live[x].past.chain);
      }
    }
    forall x | x in d.archive
      ensures OnChain(d, x, d.archive[x])
    {
      assert OnChain(db, x, db.archive[x]);
      ChainKeys(db, o, db.archive[x].past.chain);
    }
  }

  lemma FirstLink(d: Db, c: int, o: Owed)
    requires c in d.live && c !in d.archive && d.live[c].past.chain == c
    ensures ChainOk(d, c, [c], o)
  {
  }

  lemma LinkMoved(db: Db, id: int, final: State, skipped: bool, stopped: bool, chain: int, links: seq<int>, i: int)
    requires Sane(db) && id in db.live && 0 <= i < |links| && LinkOk(db, chain, links, i, NOTHING)
    ensures LinkOk(Move(db, id, final, skipped, stopped), chain, links, i, AllOf(id))
  {
  }

  lemma ChainedMove(db: Db, id: int, final: State, skipped: bool, stopped: bool)
    requires Sane(db) && Chained(db, NOTHING) && id in db.live
    ensures Chained(Move(db, id, final, skipped, stopped), AllOf(id))
  {
    var d := Move(db, id, final, skipped, stopped);
    forall c | c in d.log.chains
      ensures ChainOk(d, c, d.log.chains[c], AllOf(id))
    {
      var links := db.log.chains[c];
      assert ChainOk(db, c, links, NOTHING);
      forall i | 0 <= i < |links|
        ensures LinkOk(d, c, links, i, AllOf(id))
      {
        LinkMoved(db, id, final, skipped, stopped, c, links, i);
      }
    }
    forall x | x in d.live
      ensures OnChain(d, x, d.live[x])
    {
      assert OnChain(db, x, db.live[x]);
    }
    forall x | x in d.archive
      ensures OnChain(d, x, d.archive[x])
    {
      if x == id { assert OnChain(db, x, db.live[x]); } else { assert OnChain(db, x, db.archive[x]); }
    }
  }

  lemma ChainedForgive(db: Db, id: int, o: Owed, p: Owed)
    requires Chained(db, o) && id in db.archive && p.cont <= o.cont <= {id}
    requires WantsNext(db.archive[id]) ==> p.cont == o.cont
    ensures Chained(db, p)
  {
    forall c | c in db.log.chains
      ensures ChainOk(db, c, db.log.chains[c], p)
    {
      var links := db.log.chains[c];
      assert ChainOk(db, c, links, o);
      forall i | 0 <= i < |links|
        ensures LinkOk(db, c, links, i, p)
      {
        assert LinkOk(db, c, links, i, o);
      }
    }
  }

  lemma LinkCancelled(db: Db, ids: set<int>, chain: int, links: seq<int>, i: int)
    requires Sane(db) && 0 <= i < |links| && LinkOk(db, chain, links, i, NOTHING)
    ensures LinkOk(CancelAll(db, ids), chain, links, i, NOTHING)
  {
  }

  lemma ChainedCancelAll(db: Db, ids: set<int>)
    requires Sane(db) && Chained(db, NOTHING)
    ensures Chained(CancelAll(db, ids), NOTHING)
  {
    var d := CancelAll(db, ids);
    forall c | c in d.log.chains
      ensures ChainOk(d, c, d.log.chains[c], NOTHING)
    {
      var links := db.log.chains[c];
      assert ChainOk(db, c, links, NOTHING);
      forall i | 0 <= i < |links|
        ensures LinkOk(d, c, links, i, NOTHING)
      {
        LinkCancelled(db, ids, c, links, i);
      }
    }
    forall x | x in d.live
      ensures OnChain(d, x, d.live[x])
    {
      assert OnChain(db, x, db.live[x]);
    }
    forall x | x in d.archive
      ensures OnChain(d, x, d.archive[x])
    {
      if x in db.live && x in ids { assert OnChain(db, x, db.live[x]); } else { assert OnChain(db, x, db.archive[x]); }
    }
  }

  /** The job that owes a continuation is the last link of its chain. */
  lemma LastLink(db: Db, id: int, o: Owed)
    requires Chained(db, o) && o.cont == {id} && id in db.archive
    ensures var c := db.archive[id].past.chain;
            c in db.log.chains && db.log.chains[c] != [] && db.log.chains[c][|db.log.chains[c]| - 1] == id
  {
    var c := db.archive[id].past.chain;
    assert OnChain(db, id, db.archive[id]);
    var links := db.log.chains[c];
    assert ChainOk(db, c, links, o);
    var i :| 0 <= i < |links| && links[i] == id;
    assert LinkOk(db, c, links, i, o);
  }

  lemma LinkFollowed(db: Db, d: Db, chain: int, links: seq<int>, i: int, id: int, next: int, o: Owed)
    requires links != [] && 0 <= i < |links| && LinkOk(db, chain, links, i, o) && links[|links| - 1] == id
    requires o.cont == {id} && id in db.archive && WantsNext(db.archive[id]) && d.archive == db.archive
    requires next !in db.live && next !in db.archive && next in d.live && d.live[next].spec == Advance(db.archive[id].spec)
    requires forall x :: x in db.live ==> x in d.live && SameLink(d.live[x], db.live[x])
    requires forall x :: x in d.live && x !in db.live ==> x !in db.archive
    ensures LinkOk(d, chain, links + [next], i, o.(cont := {}))
  {
  }

  lemma NewestLink(d: Db, chain: int, links: seq<int>, next: int, o: Owed)
    requires next in d.live && next !in d.archive && d.live[next].past.chain == chain
    ensures LinkOk(d, chain, links + [next], |links|, o)
  {
  }

  /** The other chains do not have the owing job in them. */
  lemma OtherLink(db: Db, d: Db, chain: int, links: seq<int>, i: int, id: int, o: Owed)
    requires 0 <= i < |links| && LinkOk(db, chain, links, i, o) && o.cont == {id} && id in db.archive && id !in db.live
    requires db.archive[id].past.chain != chain && d.archive == db.archive
    requires forall x :: x in db.live ==> x in d.live && SameLink(d.live[x], db.live[x])
    requires forall x :: x in d.live && x !in db.live ==> x !in db.archive
    ensures LinkOk(d, chain, links, i, o.(cont := {}))
  {
  }

  lemma FollowedChain(db: Db, job: Job, id: int, o: Owed, c: int)
    requires Sane(db) && Chained(db, o) && o.cont == {id} && id in db.archive && WantsNext(db.archive[id])
    requires id !in db.live && job.spec == Advance(db.archive[id].spec)
    requires var d := Follow(db, job, db.archive[id].past.chain); c in d.log.chains
    ensures var d := Follow(db, job, db.archive[id].past.chain);
            ChainOk(d, c, d.log.chains[c], o.(cont := {}))
  {
    var chain := db.archive[id].past.chain;
    var d := Follow(db, job, chain);
    LastLink(db, id, o);
    var links := db.log.chains[c];
    assert ChainOk(db, c, links, o);
    forall i | 0 <= i < |d.log.chains[c]|
      ensures LinkOk(d, c, d.log.chains[c], i, o.(cont := {}))
    {
      if c != chain {
        OtherLink(db, d, c, links, i, id, o);
      } else if i < |links| {
        LinkFollowed(db, d, c, links, i, id, db.nextId, o);
      } else {
        NewestLink(d, c, links, db.nextId, o.(cont := {}));
      }
    }
  }

  lemma ChainedFollow(db: Db, job: Job, id: int, o: Owed)
    requires Sane(db) && Chained(db, o) && o.cont == {id} && id in db.archive && WantsNext(db.archive[id])
    requires id !in db.live && job.spec == Advance(db.archive[id].spec)
    ensures Chained(Follow(db, job, db.archive[id].past.chain), o.(cont := {}))
  {
    var chain := db.archive[id].past.chain;
    var d := Follow(db, job, chain);
    LastLink(db, id, o);
    forall c | c in d.log.chains
      ensures ChainOk(d, c, d.log.chains[c], o.(cont := {}))
    {
      FollowedChain(db, job, id, o, c);
    }
    forall x | x in d.live
      ensures OnChain(d, x, d.live[x])
    {
      if x != db.nextId { assert OnChain(db, x, db.live[x]); }
    }
    forall x | x in d.archive
      ensures OnChain(d, x, d.archive[x])
    {
      assert OnChain(db, x, db.archive[x]);
    }
  }

  // ---------------------------------------------------------------- statements: causes

  predicate ByChoice(origin: Origin) { origin.OfClient? || origin.OfLink? }

  /** Updates of live rows, and new rows that no death and no gate asked for. */
  ghost predicate SameCauses(db: Db, d: Db) {
    && d.archive == db.archive && d.log.hookOf == db.log.hookOf && d.log.branchOf == db.log.branchOf
    && (forall x :: x in db.live ==> x in d.live && d.live[x].spec == db.live[x].spec)
    && (forall x :: x in d.live ==>
          if x in db.live then d.live[x].past.origin == db.live[x].past.origin
          else x !in db.archive && ByChoice(d.live[x].past.origin))
  }

  lemma TracesSame(db: Db, d: Db)
    requires Traces(db) && SameCauses(db, d)
    ensures Traces(d)
  {
  }

  /** Every row is kept with its specification, and dead rows stay as they are. */
  ghost predicate KeepsSpecs(db: Db, d: Db) {
    && (forall x :: Known(db, x) ==> Known(d, x) && JobOf(d, x).spec == JobOf(db, x).spec)
    && (forall x :: x in db.archive ==> x in d.archive && d.archive[x] == db.archive[x])
  }

  lemma HooksSame(db: Db, d: Db, o: Owed)
    requires Hooks(db, o) && KeepsSpecs(db, d) && d.log.hookOf == db.log.hookOf
    requires forall p :: p in d.archive && WantsHook(d.archive[p]) && p !in o.hook ==> p in db.archive
    ensures Hooks(d, o)
  {
  }

  lemma BranchesSame(db: Db, d: Db, o: Owed)
    requires Branches(db, o) && KeepsSpecs(db, d) && d.log.branchOf == db.log.branchOf && d.gates == db.gates
    ensures Branches(d, o)
  {
  }

  lemma SameCausesKeep(db: Db, d: Db)
    requires SameCauses(db, d)
    ensures KeepsSpecs(db, d)
  {
  }

  lemma SourcedSame(db: Db, d: Db, o: Owed)
    requires Sourced(db, o) && SameCauses(db, d) && d.gates == db.gates
    ensures Sourced(d, o)
  {
    TracesSame(db, d);
    SameCausesKeep(db, d);
    HooksSame(db, d, o);
    BranchesSame(db, d, o);
  }

  lemma BranchesOpen(db: Db, onComplete: Spec, tenant: string, policy: Gates.Policy, n: nat)
    requires Branches(db, NOTHING) && db.nextGate !in db.gates
    ensures Branches(OpenGate(db, onComplete, tenant, policy, n), NOTHING)
  {
  }

  lemma SourcedOpen(db: Db, onComplete: Spec, tenant: string, policy: Gates.Policy, n: nat)
    requires Sourced(db, NOTHING) && db.nextGate !in db.gates
    ensures Sourced(OpenGate(db, onComplete, tenant, policy, n), NOTHING)
  {
    var d := OpenGate(db, onComplete, tenant, policy, n);
    TracesSame(db, d);
    SameCausesKeep(db, d);
    HooksSame(db, d, NOTHING);
    BranchesOpen(db, onComplete, tenant, policy, n);
  }

  lemma MoveKeeps(db: Db, id: int, final: State, skipped: bool, stopped: bool)
    requires Sane(db) && id in db.live
    ensures KeepsSpecs(db, Move(db, id, final, skipped, stopped))
  {
  }

  lemma TracesMove(db: Db, id: int, final: State, skipped: bool, stopped: bool)
    requires Sane(db) && Traces(db) && id in db.live
    ensures Traces(Move(db, id, final, skipped, stopped))
  {
  }

  lemma SourcedMove(db: Db, id: int, final: State, skipped: bool, stopped: bool)
    requires Sane(db) && Sourced(db, NOTHING) && id in db.live
    ensures Sourced(Move(db, id, final, skipped, stopped), AllOf(id))
  {
    var d := Move(db, id, final, skipped, stopped);
    TracesMove(db, id, final, skipped, stopped);
    MoveKeeps(db, id, final, skipped, stopped);
    NotHookedBefore(db, id);
    HooksPart(db, NOTHING, AllOf(id));
    HooksSame(db, d, AllOf(id));
    BranchesPart(db, NOTHING, AllOf(id));
    BranchesSame(db, d, AllOf(id));
  }

  lemma NotHookedBefore(db: Db, id: int)
    requires Sane(db) && Hooks(db, NOTHING) && id in db.live
    ensures id !in db.log.hookOf && id !in db.archive
  {
  }

  /** What is owed may be named less, or more, where it makes no difference. */
  lemma HooksPart(db: Db, o: Owed, p: Owed)
    requires Hooks(db, o)
    requires forall q :: q in db.log.hookOf ==> q !in p.hook
    requires forall q :: q in o.hook && q in db.archive && WantsHook(db.archive[q]) ==> q in p.hook
    ensures Hooks(db, p)
  {
  }

  lemma BranchesPart(db: Db, o: Owed, p: Owed)
    requires Branches(db, o) && p.branch == o.branch
    ensures Branches(db, p)
  {
  }

  lemma HookNotOwed(db: Db, o: Owed, q: int)
    requires Hooks(db, o) && q in db.log.hookOf
    ensures q !in o.hook
  {
  }

  lemma SourcedForgive(db: Db, id: int, o: Owed, p: Owed)
    requires Sourced(db, o) && id in db.archive && p.hook <= o.hook <= {id} && p.branch == o.branch
    requires WantsHook(db.archive[id]) ==> p.hook == o.hook
    ensures Sourced(db, p)
  {
  }

  lemma SourcedPart(db: Db, o: Owed, p: Owed)
    requires Sourced(db, o) && p.hook == o.hook && p.branch == o.branch
    ensures Sourced(db, p)
  {
  }

  lemma CancelAllKeeps(db: Db, ids: set<int>)
    requires Sane(db)
    ensures KeepsSpecs(db, CancelAll(db, ids))
  {
  }

  lemma TracesCancelAll(db: Db, ids: set<int>)
    requires Traces(db)
    ensures Traces(CancelAll(db, ids))
  {
  }

  lemma SourcedCancelAll(db: Db, ids: set<int>)
    requires Sane(db) && Sourced(db, NOTHING)
    ensures Sourced(CancelAll(db, ids), NOTHING)
  {
    TracesCancelAll(db, ids);
    CancelAllKeeps(db, ids);
    HooksSame(db, CancelAll(db, ids), NOTHING);
    BranchesSame(db, CancelAll(db, ids), NOTHING);
  }

  /** A bump that fires a gate with a job for its branch leaves that job to be inserted. */
  lemma BranchesBump(db: Db, id: int, gid: int, oc: Gates.Outcome, o: Owed)
    requires Branches(db, o) && o.branch == {} && gid in db.gates && Gates.Settled(db.gates[gid].gate)
    requires db.gates[gid].gate.progress.completed < db.gates[gid].gate.progress.expected
    ensures Branches(BumpGate(db, id, gid, oc),
                     o.(branch := if Gates.Resolves(db.gates[gid].gate, oc) then {gid} else {}))
  {
    var d := BumpGate(db, id, gid, oc);
    var p := o.(branch := if Gates.Resolves(db.gates[gid].gate, oc) then {gid} else {});
    Gates.BumpSettles(db.gates[gid].gate, oc);
    forall g | g in d.log.branchOf
      ensures Branched(d, g, d.log.branchOf[g], p)
    {
      assert Branched(db, g, db.log.branchOf[g], o);
    }
  }

  lemma SourcedBump(db: Db, id: int, gid: int, oc: Gates.Outcome, o: Owed)
    requires Sourced(db, o) && o.branch == {} && gid in db.gates && Gates.Settled(db.gates[gid].gate)
    requires db.gates[gid].gate.progress.completed < db.gates[gid].gate.progress.expected
    ensures Sourced(BumpGate(db, id, gid, oc),
                    o.(branch := if Gates.Resolves(db.gates[gid].gate, oc) then {gid} else {}))
  {
    var d := BumpGate(db, id, gid, oc);
    var p := o.(branch := if Gates.Resolves(db.gates[gid].gate, oc) then {gid} else {});
    TracesSame(db, d);
    SameCausesKeep(db, d);
    HooksSame(db, d, o);
    forall q | q in d.log.hookOf
      ensures q !in p.hook
    {
      HookNotOwed(d, o, q);
    }
    HooksPart(d, o, p);
    BranchesBump(db, id, gid, oc, o);
  }

  lemma InsertKeeps(db: Db, job: Job)
    requires Sane(db)
    ensures KeepsSpecs(db, Insert(db, job))
  {
  }

  /** A cause that has no job yet gets one; nobody else's cause changes. */
  lemma TracesInsert(db: Db, job: Job)
    requires Sane(db) && Traces(db)
    requires match job.past.origin
             case OfDead(p) => p !in db.log.hookOf
             case OfGate(g) => g !in db.log.branchOf
             case _ => true
    ensures Traces(Insert(db, job))
  {
    var d := Insert(db, job);
    forall x | x in d.live
      ensures Traced(d, x, d.live[x].past.origin)
    {
      if x != db.nextId { assert Traced(db, x, db.live[x].past.origin); }
    }
    forall x | x in d.archive
      ensures Traced(d, x, d.archive[x].past.origin)
    {
      assert Traced(db, x, db.archive[x].past.origin);
    }
  }

  lemma NotBranchedYet(db: Db, gid: int, o: Owed)
    requires Branches(db, o) && gid in o.branch
    ensures gid !in db.log.branchOf
  {
  }

  lemma BranchesFire(db: Db, gid: int, job: Job, o: Owed)
    requires Sane(db) && Branches(db, o) && o.branch == {gid} && gid in db.gates && Materializes(db.gates[gid])
    requires job.spec == BranchSpec(db.gates[gid]) && job.past.origin == OfGate(gid)
    ensures Branches(Insert(db, job), o.(branch := {}))
  {
  }

  /** Inserting the branch's job, or having none to insert, settles the gate. */
  lemma SourcedFire(db: Db, gid: int, job: Job, o: Owed)
    requires Sane(db) && Sourced(db, o) && o.branch == {gid} && gid in db.gates && Materializes(db.gates[gid])
    requires job.spec == BranchSpec(db.gates[gid]) && job.past.origin == OfGate(gid)
    ensures Sourced(Insert(db, job), o.(branch := {}))
  {
    var d := Insert(db, job);
    NotBranchedYet(db, gid, o);
    TracesInsert(db, job);
    BranchesFire(db, gid, job, o);
    InsertKeeps(db, job);
    HooksSame(db, d, o);
    forall q | q in d.log.hookOf
      ensures q !in o.hook
    {
      HookNotOwed(d, o, q);
    }
    HooksPart(d, o, o.(branch := {}));
  }

  lemma SourcedNoBranch(db: Db, gid: int, o: Owed)
    requires Sourced(db, o) && o.branch == {gid} && gid in db.gates && !Materializes(db.gates[gid])
    ensures Sourced(db, o.(branch := {}))
  {
  }

  lemma NotHookedYet(db: Db, id: int, o: Owed)
    requires Hooks(db, o) && id in o.hook
    ensures id !in db.log.hookOf
  {
  }

  lemma HooksFire(db: Db, id: int, job: Job, o: Owed)
    requires Sane(db) && Hooks(db, o) && o.hook == {id} && id in db.archive && WantsHook(db.archive[id])
    requires job.spec == HookSpec(db.archive[id].spec.onFailure.value, db.archive[id].spec.tenant)
    requires job.past.origin == OfDead(id)
    ensures Hooks(Insert(db, job), o.(hook := {}))
  {
  }

  lemma SourcedHook(db: Db, id: int, job: Job, now: int, o: Owed)
    requires Sane(db) && Sourced(db, o) && o.hook == {id} && id in db.archive && WantsHook(db.archive[id])
    requires job.spec == db.archive[id].spec
    ensures Sourced(FireHook(db, id, job, now), o.(hook := {}))
  {
    var hook := HookJob(job, id, now);
    var d := Insert(db, hook);
    NotHookedYet(db, id, o);
    TracesInsert(db, hook);
    HooksFire(db, id, hook, o);
    InsertKeeps(db, hook);
    BranchesSame(db, d, o);
    BranchesPart(d, o, o.(hook := {}));
    SourcedSame(d, FireHook(db, id, job, now), o.(hook := {}));
  }
}
