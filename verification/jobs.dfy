/**
 * The job tables and the statements that change them, each as a function from one database to the
 * next. A service transaction (src/symba/services) is a composition of statements and one
 * atomic step of the engine.
 *
 * Fields grouped in `History` and `Log` are not columns: they record what happened, so that
 * properties of whole runs can be stated about a single state.
 */
module Jobs {
  import opened Claims
  import opened Numbers
  import Gates

  // ---------------------------------------------------------------- states (core/states.py)

  datatype State = Submitted | Queued | Running | Waiting | Succeeded | Dead | Cancelled

  /** Ran to an end of its own, rather than being cancelled. */
  predicate Ran(job: Job) { job.state.Succeeded? || job.state.Dead? }

  predicate IsLive(s: State) { s.Submitted? || s.Queued? || s.Running? || s.Waiting? }

  function Transitions(s: State): set<State> {
    match s
    case Submitted => {Queued, Cancelled}
    case Queued => {Running, Cancelled}
    case Running => {Queued, Waiting, Succeeded, Dead, Cancelled}
    case Waiting => {Queued, Cancelled}
    case _ => {}
  }

  // ---------------------------------------------------------------- rows

  /** The failure hook stored on a job; the empty name stands for no next task. */
  datatype Hook = Hook(task: string, onSuccess: string, tail: seq<string>)

  datatype Spec = Spec(task: string, tenant: string, onSuccess: string, tail: seq<string>,
                       onFailure: Option<Hook>, maxAttempts: int)

  const DEFAULT_ATTEMPTS := 5

  datatype Job = Job(spec: Spec, state: State, token: Option<nat>, attempt: nat, runAt: int, beatAt: int, cancelRequested: bool,
                     waitKey: Option<string>, gate: Option<int>, ups: set<int>, declared: nat, remaining: int,
                     past: History)

  /** Who asked for a job: a client, a finished link of its chain, a dead job's hook, or a gate. */
  datatype Origin = OfClient | OfLink(id: int) | OfDead(id: int) | OfGate(gate: int)

  /** `missed`: upstreams that were no longer live at submit; `parks`, `signalled`, `timedOut`: waits begun,
      and ended by a signal or a timeout; `topCap`: the largest retry cap a worker
      reported; `chain`: the first link of the job's chain. */
  datatype History = History(missed: set<int>, parks: nat, signalled: nat, timedOut: nat, topCap: int, chain: int,
                             skipped: bool, stopped: bool, origin: Origin)

  datatype GateRow = GateRow(gate: Gates.Gate, onComplete: Spec, tenant: string,
                             children: set<int>, settled: set<int>, won: set<int>, lost: set<int>)

  datatype Channel = Channel(tenant: string, key: string)

  datatype Signal = Signal(tenant: string, key: string, consumed: bool)

  /** `claimed`: how often each job was claimed; `chains`: the links of each chain; `hookOf` and `branchOf`: the job a death or a gate asked for. */
  datatype Log = Log(claimed: multiset<int>, bumped: multiset<int>, continued: multiset<int>, hooked: multiset<int>,
                     chains: map<int, seq<int>>, hookOf: map<int, int>, branchOf: map<int, int>,
                     sent: multiset<Channel>, delivered: multiset<Channel>, consumed: multiset<Channel>)

  datatype Db = Db(live: map<int, Job>, archive: map<int, Job>, gates: map<int, GateRow>, signals: seq<Signal>,
                   nextId: nat, nextGate: nat, nextToken: nat, log: Log)

  function Fresh(): Db {
    Db(map[], map[], map[], [], 0, 0, 0, Log(multiset{}, multiset{}, multiset{}, multiset{}, map[], map[], map[], multiset{}, multiset{}, multiset{}))
  }

  function NewJob(spec: Spec, state: State, runAt: int, gate: Option<int>, origin: Origin): Job {
    Job(spec, state, None, 0, runAt, runAt, false, None, gate, {}, 0, 0, History({}, 0, 0, 0, 0, 0, false, false, origin))
  }

  // ---------------------------------------------------------------- statements

  /** submit.sql, without a dedup key: a new row starts a chain of its own. */
  function Insert(db: Db, job: Job): Db {
    db.(live := db.live[db.nextId := job.(past := job.past.(chain := db.nextId))],
        nextId := db.nextId + 1,
        log := Noted(db.log, job.past.origin, db.nextId).(chains := db.log.chains[db.nextId := [db.nextId]]))
  }

  function Noted(log: Log, origin: Origin, id: int): Log {
    match origin
    case OfDead(p) => log.(hookOf := log.hookOf[p := id])
    case OfGate(g) => log.(branchOf := log.branchOf[g := id])
    case _ => log
  }

  /** complete_continuation.sql: the next link of a chain. */
  function Follow(db: Db, job: Job, chain: int): Db {
    db.(live := db.live[db.nextId := job.(past := job.past.(chain := chain))],
        nextId := db.nextId + 1,
        log := db.log.(chains := db.log.chains[chain := Links(db, chain) + [db.nextId]]))
  }

  function Links(db: Db, chain: int): seq<int> {
    if chain in db.log.chains then db.log.chains[chain] else []
  }

  /** An UPDATE of one live row. */
  function Put(db: Db, id: int, job: Job): Db {
    db.(live := db.live[id := job])
  }

  /** DELETE from the live table and INSERT into the archive, as one statement. */
  function Move(db: Db, id: int, final: State, skipped: bool, stopped: bool): Db
    requires id in db.live
  {
    var job := db.live[id];
    db.(live := db.live - {id},
        archive := db.archive[id := job.(state := final, past := job.past.(skipped := skipped, stopped := stopped))])
  }

  /** decrement_deps.sql, for one dependent. */
  function Decremented(job: Job, up: int, now: int): Job {
    if up !in job.ups then job
    else job.(remaining := job.remaining - 1,
              state := if job.remaining - 1 == 0 && job.state.Submitted? && job.runAt <= now then Queued else job.state)
  }

  function DecrementDeps(db: Db, up: int, now: int): Db {
    db.(live := map x | x in db.live :: Decremented(db.live[x], up, now))
  }

  /** Live jobs that depend on the root or on a job of `seen`, and are not in `seen` yet. */
  function Next(live: map<int, Job>, root: int, seen: set<int>): set<int> {
    set x | x in live && x !in seen && (root in live[x].ups || live[x].ups * seen != {})
  }

  /** The recursive part of cascade_cancel.sql: the live dependents of the root, and theirs. */
  function Cone(live: map<int, Job>, root: int, seen: set<int>): set<int>
    decreases |live.Keys - seen|
  {
    var more := Next(live, root, seen);
    if more == {} then seen
    else
      Shrinks(live.Keys, seen, more);
      Cone(live, root, seen + more)
  }

  lemma Shrinks(keys: set<int>, seen: set<int>, more: set<int>)
    requires more <= keys && more * seen == {} && more != {}
    ensures |keys - (seen + more)| < |keys - seen|
  {
    assert keys - seen == (keys - (seen + more)) + more;
  }

  function CancelAll(db: Db, ids: set<int>): Db {
    db.(live := db.live - ids,
        archive := db.archive + (map x | x in db.live && x in ids :: db.live[x].(state := Cancelled)))
  }

  function Cascade(db: Db, root: int): Db {
    CancelAll(db, Cone(db.live, root, {}))
  }

  // ---------------------------------------------------------------- job_service.py

  predicate Holds(db: Db, id: int, token: nat) {
    id in db.live && db.live[id].state.Running? && db.live[id].token == Some(token)
  }

  function HookSpec(h: Hook, tenant: string): Spec {
    Spec(h.task, tenant, h.onSuccess, h.tail, None, DEFAULT_ATTEMPTS)
  }

  /** core/chain.py `advance`: the next link's specification. */
  function Advance(spec: Spec): Spec {
    Spec(spec.onSuccess, spec.tenant, if spec.tail == [] then "" else spec.tail[0],
         if spec.tail == [] then [] else spec.tail[1..], spec.onFailure, DEFAULT_ATTEMPTS)
  }

  function NextJob(job: Job, id: int, now: int): Job {
    NewJob(Advance(job.spec), Queued, now, None, OfLink(id))
  }

  function Continue(db: Db, id: int, job: Job, now: int): Db {
    if job.spec.onSuccess == "" then db
    else
      var d := Follow(db, NextJob(job, id, now), job.past.chain);
      d.(log := d.log.(continued := d.log.continued + multiset{id}))
  }

  function Counted(row: GateRow, child: int, o: Gates.Outcome): GateRow {
    row.(gate := Gates.Bump(row.gate, o), settled := row.settled + {child},
         won := if o.Won? then row.won + {child} else row.won,
         lost := if o.Lost? then row.lost + {child} else row.lost)
  }

  /** The count of `_settle_gate`: the child is counted into its gate's row. */
  function BumpGate(db: Db, child: int, gid: int, o: Gates.Outcome): Db
    requires gid in db.gates
  {
    db.(gates := db.gates[gid := Counted(db.gates[gid], child, o)],
        log := db.log.(bumped := db.log.bumped + multiset{child}))
  }

  /** The job a resolved gate materializes, if any. */
  function Branch(row: GateRow, satisfied: bool): Option<Spec> {
    if satisfied then Some(row.onComplete.(tenant := row.tenant))
    else if row.onComplete.onFailure.Some? then Some(HookSpec(row.onComplete.onFailure.value, row.tenant))
    else None
  }

  function BranchJob(spec: Spec, gid: int, now: int): Job {
    NewJob(spec, Queued, now, None, OfGate(gid))
  }

  function SettleGate(db: Db, child: int, gate: Option<int>, o: Gates.Outcome, now: int): Db {
    if gate.None? || gate.value !in db.gates then db
    else
      var row := db.gates[gate.value];
      var d := BumpGate(db, child, gate.value, o);
      if Gates.Resolves(row.gate, o) then
        match Branch(row, Gates.Bump(row.gate, o).branch)
        case Some(spec) => Insert(d, BranchJob(spec, gate.value, now))
        case None => d
      else d
  }

  function Complete(db: Db, id: int, token: nat, stop: bool, skipped: bool, now: int): Db {
    if !Holds(db, id, token) then db
    else
      var job := db.live[id];
      var d1 := Move(db, id, Succeeded, skipped, stop);
      var d2 := if stop then d1 else Continue(d1, id, job, now);
      var d3 := DecrementDeps(d2, id, now);
      SettleGate(d3, id, job.gate, if skipped then Gates.Skipped else Gates.Won, now)
  }

  function HookJob(job: Job, id: int, now: int): Job
    requires job.spec.onFailure.Some?
  {
    NewJob(HookSpec(job.spec.onFailure.value, job.spec.tenant), Queued, now, None, OfDead(id))
  }

  function FireHook(db: Db, id: int, job: Job, now: int): Db {
    if job.spec.onFailure.None? then db
    else
      var d := Insert(db, HookJob(job, id, now));
      d.(log := d.log.(hooked := d.log.hooked + multiset{id}))
  }

  /** The retry limit in force: a worker's own, unless it reports none (zero). */
  function RetryCap(job: Job, workerCap: int): int {
    if workerCap != 0 then workerCap else job.spec.maxAttempts
  }

  /** core/retry.py `should_retry`. */
  predicate ShouldRetry(attempt: int, cap: int, retryable: bool) { retryable && attempt < cap }

  function Die(db: Db, id: int, now: int): Db
    requires id in db.live
  {
    var job := db.live[id];
    var d1 := Move(db, id, Dead, false, false);
    var d2 := SettleGate(d1, id, job.gate, Gates.Lost, now);
    var d3 := FireHook(d2, id, job, now);
    Cascade(d3, id)
  }

  function Retried(job: Job, workerCap: int, runAt: int): Job {
    job.(state := Queued, token := None, runAt := runAt,
         past := job.past.(topCap := Max(job.past.topCap, RetryCap(job, workerCap))))
  }

  function Fail(db: Db, id: int, token: nat, retryable: bool, workerCap: int, runAt: int, now: int): Db {
    if !Holds(db, id, token) then db
    else
      var job := db.live[id];
      if ShouldRetry(job.attempt, RetryCap(job, workerCap), retryable) then Put(db, id, Retried(job, workerCap, runAt))
      else Die(db, id, now)
  }

  // ---------------------------------------------------------------- submit_service.py, fanout_service.py

  /** Ids are handed out by the database, so a name nobody has yet is the name of no job. Such names
      are kept apart from each other on the negative side. */
  function Named(u: int, nextId: nat): int {
    if 0 <= u < nextId then u else if u < 0 then 2 * u else -2 * u - 1
  }

  function Upstreams(ups: seq<int>, nextId: nat): set<int> { set u | u in ups :: Named(u, nextId) }

  /** `_initial_state`. */
  function InitialState(deps: nat, runAt: Option<int>, now: int): State {
    if deps > 0 || (runAt.Some? && runAt.value > now) then Submitted else Queued
  }

  function ChainLength(spec: Spec): nat { (if spec.onSuccess != "" then 1 else 0) + |spec.tail| }

  function Prepared(db: Db, spec: Spec, ups: seq<int>, runAt: Option<int>, now: int): Job {
    var named := Upstreams(ups, db.nextId);
    var job := NewJob(spec, InitialState(|ups|, runAt, now), if runAt.Some? then runAt.value else now, None, OfClient);
    job.(ups := named, declared := |ups|, remaining := |ups|,
         past := job.past.(missed := set u | u in named && u !in db.live))
  }

  /** One specification of a batch; a chain over the cap is refused. */
  function Submit(db: Db, maxChain: nat, spec: Spec, ups: seq<int>, runAt: Option<int>, now: int): Db {
    if ChainLength(spec) > maxChain then db else Insert(db, Prepared(db, spec, ups, runAt, now))
  }

  function ChildJob(spec: Spec, tenant: string, gid: int, now: int): Job {
    NewJob(spec.(tenant := tenant), Queued, now, Some(gid), OfClient)
  }

  function InsertChildren(db: Db, specs: seq<Spec>, tenant: string, gid: int, now: int): Db
    decreases |specs|
  {
    if specs == [] then db
    else
      var d := Insert(db, ChildJob(specs[0], tenant, gid, now));
      InsertChildren(d, specs[1..], tenant, gid, now)
  }

  function IdRange(from: int, n: nat): set<int>
    decreases n
  {
    if n == 0 then {} else {from} + IdRange(from + 1, n - 1)
  }

  function OpenGate(db: Db, onComplete: Spec, tenant: string, policy: Gates.Policy, n: nat): Db {
    db.(gates := db.gates[db.nextGate :=
                   GateRow(Gates.Open(policy, n), onComplete, tenant, IdRange(db.nextId, n), {}, {}, {})],
        nextGate := db.nextGate + 1)
  }

  function FanOut(db: Db, specs: seq<Spec>, onComplete: Spec, tenant: string, policy: Gates.Policy, now: int): Db {
    if specs == [] then db
    else InsertChildren(OpenGate(db, onComplete, tenant, policy, |specs|), specs, tenant, db.nextGate, now)
  }

  // ---------------------------------------------------------------- claim, sweeps, cancel

  function Claimed(job: Job, token: nat, now: int): Job {
    job.(state := Running, token := Some(token), attempt := job.attempt + 1, beatAt := now)
  }

  /** claim.sql, for one of the rows it picks. */
  function Claim(db: Db, id: int, now: int): Db {
    if id in db.live && db.live[id].state.Queued? && db.live[id].runAt <= now then
      Put(db, id, Claimed(db.live[id], db.nextToken, now))
      .(nextToken := db.nextToken + 1, log := db.log.(claimed := db.log.claimed + multiset{id}))
    else db
  }

  /** heartbeat.sql: the current lease is extended. */
  function Heartbeat(db: Db, id: int, token: nat, now: int): Db {
    if Holds(db, id, token) then Put(db, id, db.live[id].(beatAt := now)) else db
  }

  /** sweep_leases.sql, for one expired lease: a requested cancel wins, a job with attempts left goes
      back to the queue, an exhausted one is left to `Fail`. */
  function SweepLease(db: Db, id: int): Db {
    if id !in db.live || !db.live[id].state.Running? then db
    else if db.live[id].cancelRequested then Move(db, id, Cancelled, false, false)
    else if db.live[id].attempt < db.live[id].spec.maxAttempts then
      Put(db, id, db.live[id].(state := Queued, token := None))
    else db
  }

  /** list_exhausted_leases.sql, and what the sweeper does with each row: a fatal failure under the
      lease's own token. */
  predicate Exhausted(db: Db, id: int) {
    id in db.live && db.live[id].state.Running? && db.live[id].token.Some?
    && !db.live[id].cancelRequested && db.live[id].attempt >= db.live[id].spec.maxAttempts
  }

  function SweepExhausted(db: Db, id: int, now: int): Db {
    if Exhausted(db, id) then Fail(db, id, db.live[id].token.value, false, 0, now, now) else db
  }

  /** cancel_service.py. */
  function Cancel(db: Db, id: int, cascade: bool): Db {
    if id !in db.live then db
    else
      var d := if db.live[id].state.Running? then Put(db, id, db.live[id].(cancelRequested := true))
               else Move(db, id, Cancelled, false, false);
      if cascade then Cascade(d, id) else d
  }

  // ---------------------------------------------------------------- signal_service.py

  predicate WaitsFor(job: Job, tenant: string, key: string) {
    job.state.Waiting? && job.spec.tenant == tenant && job.waitKey == Some(key)
  }

  /** signal.sql picks the oldest waiter: the least id from `i` on. */
  function OldestWaiter(live: map<int, Job>, tenant: string, key: string, i: nat, bound: nat): (r: Option<int>)
    ensures r.Some? ==> r.value in live && WaitsFor(live[r.value], tenant, key)
    decreases bound - i
  {
    if i >= bound then None
    else if i in live && WaitsFor(live[i], tenant, key) then Some(i)
    else OldestWaiter(live, tenant, key, i + 1, bound)
  }

  function Resumed(job: Job, now: int): Job {
    job.(state := Queued, waitKey := None, runAt := now)
  }

  function Woken(job: Job, now: int): Job {
    Resumed(job, now).(past := job.past.(signalled := job.past.signalled + 1))
  }

  function TimedOut(job: Job, now: int): Job {
    Resumed(job, now).(past := job.past.(timedOut := job.past.timedOut + 1))
  }

  function Send(db: Db, tenant: string, key: string, now: int): Db {
    var ch := Channel(tenant, key);
    match OldestWaiter(db.live, tenant, key, 0, db.nextId)
    case Some(id) =>
      Put(db, id, Woken(db.live[id], now))
      .(log := db.log.(sent := db.log.sent + multiset{ch}, delivered := db.log.delivered + multiset{ch}))
    case None =>
      db.(signals := db.signals + [Signal(tenant, key, false)], log := db.log.(sent := db.log.sent + multiset{ch}))
  }

  /** wait_consume.sql: the oldest unconsumed signal of a key. */
  function Pending(signals: seq<Signal>, tenant: string, key: string, i: nat): (r: Option<nat>)
    requires i <= |signals|
    ensures r.Some? ==> r.value < |signals| && signals[r.value] == Signal(tenant, key, false)
    decreases |signals| - i
  {
    if i == |signals| then None
    else if signals[i] == Signal(tenant, key, false) then Some(i)
    else Pending(signals, tenant, key, i + 1)
  }

  function Parked(job: Job, key: string): Job {
    job.(state := Waiting, waitKey := Some(key), token := None, past := job.past.(parks := job.past.parks + 1))
  }

  /** `wait`: a pending signal is consumed before the lease is looked at. */
  function Wait(db: Db, id: int, token: nat, tenant: string, key: string): Db {
    match Pending(db.signals, tenant, key, 0)
    case Some(i) =>
      db.(signals := db.signals[i := Signal(tenant, key, true)], 
          log := db.log.(consumed := db.log.consumed + multiset{Channel(tenant, key)}))
    case None => if Holds(db, id, token) then Put(db, id, Parked(db.live[id], key)) else db
  }

  /** sweep_waits.sql, for one expired wait. */
  function SweepWait(db: Db, id: int, now: int): Db {
    if id in db.live && db.live[id].state.Waiting? then Put(db, id, TimedOut(db.live[id], now)) else db
  }

  // ---------------------------------------------------------------- runs

  datatype Event =
    | OnSubmit(spec: Spec, ups: seq<int>, runAt: Option<int>, now: int)
    | OnFanOut(specs: seq<Spec>, onComplete: Spec, tenant: string, policy: Gates.Policy, now: int)
    | OnClaim(id: int, now: int)
    | OnComplete(id: int, token: nat, stop: bool, skipped: bool, now: int)
    | OnFail(id: int, token: nat, retryable: bool, workerCap: int, retryAt: int, now: int)
    | OnHeartbeat(id: int, token: nat, now: int)
    | OnSweepLease(id: int)
    | OnSweepExhausted(id: int, now: int)
    | OnWait(id: int, token: nat, tenant: string, key: string)
    | OnSignal(tenant: string, key: string, now: int)
    | OnSweepWait(id: int, now: int)
    | OnCancel(id: int, cascade: bool)

  function Step(db: Db, maxChain: nat, ev: Event): Db {
    match ev
    case OnSubmit(spec, ups, runAt, now) => Submit(db, maxChain, spec, ups, runAt, now)
    case OnFanOut(specs, onComplete, tenant, policy, now) => FanOut(db, specs, onComplete, tenant, policy, now)
    case OnClaim(id, now) => Claim(db, id, now)
    case OnComplete(id, token, stop, skipped, now) => Complete(db, id, token, stop, skipped, now)
    case OnFail(id, token, retryable, workerCap, runAt, now) => Fail(db, id, token, retryable, workerCap, runAt, now)
    case OnHeartbeat(id, token, now) => Heartbeat(db, id, token, now)
    case OnSweepLease(id) => SweepLease(db, id)
    case OnSweepExhausted(id, now) => SweepExhausted(db, id, now)
    case OnWait(id, token, tenant, key) => Wait(db, id, token, tenant, key)
    case OnSignal(tenant, key, now) => Send(db, tenant, key, now)
    case OnSweepWait(id, now) => SweepWait(db, id, now)
    case OnCancel(id, cascade) => Cancel(db, id, cascade)
  }

  /** Any interleaving of the engine's transactions. */
  function Run(db: Db, maxChain: nat, evs: seq<Event>): Db
    decreases |evs|
  {
    if evs == [] then db else Run(Step(db, maxChain, evs[0]), maxChain, evs[1..])
  }

  lemma RunCons(db: Db, maxChain: nat, ev: Event, rest: seq<Event>)
    ensures Run(db, maxChain, [ev] + rest) == Run(Step(db, maxChain, ev), maxChain, rest)
  {
  }

  /** A run can be cut anywhere. */
  lemma {:induction false} RunConcat(db: Db, maxChain: nat, a: seq<Event>, b: seq<Event>)
    ensures Run(db, maxChain, a + b) == Run(Run(db, maxChain, a), maxChain, b)
    decreases |a|
  {
    if a == [] {
      assert a + b == b;
    } else {
      assert a + b == [a[0]] + (a[1..] + b);
      RunCons(db, maxChain, a[0], a[1..] + b);
      RunConcat(Step(db, maxChain, a[0]), maxChain, a[1..], b);
    }
  }

  /** A first job, claimed under the first lease. */
  lemma FirstClaim(spec: Spec)
    requires ChainLength(spec) == 0
    ensures var d := Step(Step(Fresh(), 0, OnSubmit(spec, [], None, 0)), 0, OnClaim(0, 0));
            && d.live.Keys == {0} && Holds(d, 0, 0) && d.live[0].spec == spec && d.signals == [] && !d.live[0].cancelRequested && d.live[0].attempt == 1
  {
    var d := Step(Fresh(), 0, OnSubmit(spec, [], None, 0));
    assert d.live.Keys == {0} && d.live[0].state.Queued? && d.live[0].runAt == 0;
  }
}
