/**
 * Why a stale slot frame cannot over-assign a worker: src/symba/services/matcher.py:59-165 run against
 * src/symba/services/registry.py:78-146 and src/symba/db/queries/running_counts_by_worker.sql. One engine
 * and any number of workers; frames, reconnects, goodbyes and finishing jobs fall between any two steps of
 * a pass. `S` identifies a stream.
 */
module SlotSafety {
  import opened Claims
  import opened Numbers
  import opened Fleets
  import opened TextOrder
  import Matching
  import WorkerRing

  /** How far the pass in flight has come with a tag group. `group` is the group's streams in ring order,
      `ids` the workers they belong to; a stream of the group may have been superseded meanwhile. */
  datatype Phase<S> =
    | Idle
    | Counted(ids: seq<string>, group: seq<S>, counts: map<string, nat>)
    | Promised(ids: seq<string>, group: seq<S>, capacity: map<string, int>)
    | Handed(load: map<string, nat>)

  /** running: rows stamped with the worker's id.  lost: jobs the worker has whose stamp failed. */
  datatype State<S> = State(fleet: Fleet<S>, running: map<string, nat>, lost: map<string, nat>, phase: Phase<S>)

  datatype Step<S> =
    | Register(stream: S, id: string, free: int, slots: int)
    | Frame(id: string, free: int, expected: Option<S>)
    | Unregister(id: string, expected: Option<S>)
    | JobLeaves(id: string)
    | LostJobLeaves(id: string)
    | CountRunning(group: seq<S>)
    | ComputeCapacity
    | HandOut(jobs: nat, cursor: string)
    | Stamp(stamped: map<string, nat>)
    | StampFails(unstamped: map<string, nat>)
    | GiveUp

  function Of(m: map<string, nat>, id: string): nat {
    if id in m then m[id] else 0
  }

  function Added(m: map<string, nat>, more: map<string, nat>): map<string, nat> {
    map id | id in m.Keys + more.Keys :: Of(m, id) + Of(more, id)
  }

  ghost predicate Within(part: map<string, nat>, whole: map<string, nat>) {
    forall id :: Of(part, id) <= Of(whole, id)
  }

  function IndexOf(ids: seq<string>, id: string): (i: nat)
    requires id in ids
    ensures i < |ids| && ids[i] == id
  {
    if ids[0] == id then 0 else 1 + IndexOf(ids[1..], id)
  }

  /** The workers a group of streams belongs to. */
  ghost function WorkersOf<S>(f: Fleet<S>, group: seq<S>): (ids: seq<string>)
    requires forall s :: s in group ==> s in f.streams
    ensures |ids| == |group| && forall i :: 0 <= i < |ids| ==> ids[i] == f.streams[group[i]].id
  {
    if group == [] then [] else [f.streams[group[0]].id] + WorkersOf(f, group[1..])
  }

  /** What the pass promises itself each worker can take, from the streams as they are now and the rows
      as they were counted. */
  ghost function Capacities<S>(f: Fleet<S>, ids: seq<string>, group: seq<S>, counts: map<string, nat>): map<string, int>
    requires |group| == |ids| && forall s :: s in group ==> s in f.streams
  {
    map id | id in ids ::
      var slots := f.streams[group[IndexOf(ids, id)]];
      Capacity(slots.free, slots.total, Of(counts, id))
  }

  /** How many of a batch each worker gets. */
  ghost function Loads(ids: seq<string>, targets: seq<nat>): map<string, nat> {
    map id | id in ids :: WorkerRing.Count(targets, IndexOf(ids, id))
  }

  /** Handing out jobs takes free slots from the streams they go to. */
  ghost function Drained<S>(f: Fleet<S>, group: seq<S>, load: map<string, nat>): Fleet<S> {
    f.(streams := map s | s in f.streams ::
         if s in group then f.streams[s].(free := Matching.Drained(f.streams[s].free, Of(load, f.streams[s].id)))
         else f.streams[s])
  }

  ghost predicate Ready<S>(f: Fleet<S>, ids: seq<string>, group: seq<S>) {
    && ids != [] && Ascending(ids) && |group| == |ids|
    && (forall i :: 0 <= i < |group| ==> group[i] in f.streams && f.streams[group[i]].id == ids[i])
  }

  ghost predicate Enabled<S>(s: State<S>, step: Step<S>) {
    match step
    case Register(stream, id, _, _) => stream in s.fleet.streams ==> s.fleet.streams[stream].id == id
    case Frame(_, _, _) => true
    case Unregister(_, _) => true
    case JobLeaves(id) => Of(s.running, id) > 0
    case LostJobLeaves(id) => Of(s.lost, id) > 0
    case CountRunning(group) =>
      && s.phase.Idle?
      && (forall x :: x in group ==> x in s.fleet.streams)
      && Ready(s.fleet, WorkersOf(s.fleet, group), group)
    case ComputeCapacity => s.phase.Counted? && Ready(s.fleet, s.phase.ids, s.phase.group)
    case HandOut(_, _) => s.phase.Promised? && Ready(s.fleet, s.phase.ids, s.phase.group)
    case Stamp(stamped) => s.phase.Handed? && Within(stamped, s.phase.load)
    case StampFails(unstamped) => s.phase.Handed? && Within(unstamped, s.phase.load)
    case GiveUp => s.phase.Counted? || s.phase.Promised?
  }

  ghost function Next<S>(s: State<S>, step: Step<S>): State<S>
    requires Enabled(s, step)
  {
    match step
    case Register(stream, id, free, slots) => s.(fleet := Registered(s.fleet, stream, id, free, slots))
    case Frame(id, free, expected) => s.(fleet := Framed(s.fleet, id, free, expected))
    case Unregister(id, expected) => s.(fleet := Unregistered(s.fleet, id, expected))
    case JobLeaves(id) => s.(running := s.running[id := s.running[id] - 1])
    case LostJobLeaves(id) => s.(lost := s.lost[id := s.lost[id] - 1])
    case CountRunning(group) => s.(phase := Counted(WorkersOf(s.fleet, group), group, s.running))
    case ComputeCapacity =>
      s.(phase := Promised(s.phase.ids, s.phase.group,
                           Capacities(s.fleet, s.phase.ids, s.phase.group, s.phase.counts)))
    case HandOut(jobs, cursor) =>
      var load := Loads(s.phase.ids, Matching.Plan(jobs, s.phase.ids, s.phase.capacity, cursor));
      s.(fleet := Drained(s.fleet, s.phase.group, load), phase := Handed(load))
    case Stamp(stamped) => s.(running := Added(s.running, stamped), phase := Idle)
    case StampFails(unstamped) => s.(lost := Added(s.lost, unstamped), phase := Idle)
    case GiveUp => s.(phase := Idle)
  }

  ghost predicate Possible<S>(s: State<S>, steps: seq<Step<S>>)
    decreases steps
  {
    steps == [] || (Enabled(s, steps[0]) && Possible(Next(s, steps[0]), steps[1..]))
  }

  ghost function Run<S>(s: State<S>, steps: seq<Step<S>>): State<S>
    requires Possible(s, steps)
    decreases steps
  {
    if steps == [] then s else Run(Next(s, steps[0]), steps[1..])
  }

  // ---------------------------------------------------------------- what every step keeps

  /** Jobs the pass in flight has promised a worker, or handed it and not stamped yet. */
  ghost function InFlight<S>(p: Phase<S>, id: string): nat {
    match p
    case Promised(_, _, capacity) => if id in capacity then WorkerRing.Pos(capacity[id]) else 0
    case Handed(load) => Of(load, id)
    case _ => 0
  }

  /** What a worker may have: its slots, or the rows it had when this engine took it on. */
  ghost function Bound<S>(f: Fleet<S>, legacy: map<string, nat>, id: string): int {
    Max(HighWater(f, id), Of(legacy, id))
  }

  ghost predicate Safe<S>(s: State<S>, legacy: map<string, nat>) {
    && Consistent(s.fleet)
    && (s.phase.Counted? || s.phase.Promised? ==> Ready(s.fleet, s.phase.ids, s.phase.group))
    && forall id :: SafeAt(s, legacy, id)
  }

  ghost predicate SafeAt<S>(s: State<S>, legacy: map<string, nat>, id: string) {
    && Of(s.running, id) + InFlight(s.phase, id) <= Bound(s.fleet, legacy, id)
    && (s.phase.Counted? ==> Of(s.running, id) <= Of(s.phase.counts, id) <= Bound(s.fleet, legacy, id))
  }

  /** Growing the fleet's totals keeps everyone within bounds. */
  lemma FleetGrows<S>(s: State<S>, legacy: map<string, nat>, f: Fleet<S>)
    requires Safe(s, legacy) && Consistent(f)
    requires forall id :: HighWater(f, id) >= HighWater(s.fleet, id)
    requires forall x :: x in s.fleet.streams ==> x in f.streams && f.streams[x].id == s.fleet.streams[x].id
    ensures Safe(s.(fleet := f), legacy)
  {
    forall id
      ensures SafeAt(s.(fleet := f), legacy, id)
    {
      assert SafeAt(s, legacy, id);
    }
  }

  lemma JobLeavesSafe<S>(s: State<S>, legacy: map<string, nat>, id: string)
    requires Safe(s, legacy) && Of(s.running, id) > 0
    ensures Safe(Next(s, JobLeaves(id)), legacy)
  {
    forall i
      ensures SafeAt(Next(s, JobLeaves(id)), legacy, i)
    {
      assert SafeAt(s, legacy, i);
    }
  }

  lemma PhaseSafe<S>(s: State<S>, legacy: map<string, nat>, step: Step<S>)
    requires Safe(s, legacy) && Enabled(s, step)
    requires step.CountRunning? || step.GiveUp? || step.LostJobLeaves? || step.StampFails?
    ensures Safe(Next(s, step), legacy)
  {
    forall i
      ensures SafeAt(Next(s, step), legacy, i)
    {
      assert SafeAt(s, legacy, i);
    }
  }

  /** A capacity promised from the rows counted earlier fits: rows have only left since. */
  lemma PromiseFits<S>(f: Fleet<S>, ids: seq<string>, group: seq<S>, counts: map<string, nat>, id: string, bound: int)
    requires Consistent(f) && Ready(f, ids, group) && Of(counts, id) <= bound && HighWater(f, id) <= bound
    ensures Of(counts, id) + InFlight(Promised(ids, group, Capacities(f, ids, group, counts)), id) <= bound
  {
    if id in ids {
      var slots := f.streams[group[IndexOf(ids, id)]];
      assert Covered(f, slots);
    }
  }

  lemma PromiseSafe<S>(s: State<S>, legacy: map<string, nat>)
    requires Safe(s, legacy) && Enabled(s, ComputeCapacity)
    ensures Safe(Next(s, ComputeCapacity), legacy)
  {
    forall id
      ensures SafeAt(Next(s, ComputeCapacity), legacy, id)
    {
      assert SafeAt(s, legacy, id);
      PromiseFits(s.fleet, s.phase.ids, s.phase.group, s.phase.counts, id, Bound(s.fleet, legacy, id));
    }
  }

  /** No worker is handed more than it was promised: that is what the round robin guarantees. */
  lemma LoadWithinPromise(ids: seq<string>, capacity: map<string, int>, jobs: nat, cursor: string, id: string)
    requires ids != [] && Ascending(ids)
    ensures var load := Loads(ids, Matching.Plan(jobs, ids, capacity, cursor));
            Of(load, id) <= if id in capacity then WorkerRing.Pos(capacity[id]) else 0
  {
    if id in ids {
      var i := IndexOf(ids, id);
      Matching.PlanFair(jobs, ids, capacity, cursor, i, i);
      Matching.CapsAt(ids, capacity, i);
    }
  }

  lemma DrainedConsistent<S>(f: Fleet<S>, group: seq<S>, load: map<string, nat>)
    requires Consistent(f)
    ensures Consistent(Drained(f, group, load))
  {
    var g := Drained(f, group, load);
    forall x | x in g.streams
      ensures Covered(g, g.streams[x])
    {
      assert Covered(f, f.streams[x]);
    }
  }

  lemma HandOutSafe<S>(s: State<S>, legacy: map<string, nat>, jobs: nat, cursor: string)
    requires Safe(s, legacy) && Enabled(s, HandOut(jobs, cursor))
    ensures Safe(Next(s, HandOut(jobs, cursor)), legacy)
  {
    var ids, capacity, t := s.phase.ids, s.phase.capacity, Next(s, HandOut(jobs, cursor));
    DrainedConsistent(s.fleet, s.phase.group, Loads(ids, Matching.Plan(jobs, ids, capacity, cursor)));
    forall id
      ensures SafeAt(t, legacy, id)
    {
      assert SafeAt(s, legacy, id);
      LoadWithinPromise(ids, capacity, jobs, cursor, id);
    }
  }

  lemma StampSafe<S>(s: State<S>, legacy: map<string, nat>, stamped: map<string, nat>)
    requires Safe(s, legacy) && Enabled(s, Stamp(stamped))
    ensures Safe(Next(s, Stamp(stamped)), legacy)
  {
    forall id
      ensures SafeAt(Next(s, Stamp(stamped)), legacy, id)
    {
      assert SafeAt(s, legacy, id) && Of(stamped, id) <= Of(s.phase.load, id);
      assert Of(Added(s.running, stamped), id) == Of(s.running, id) + Of(stamped, id);
    }
  }

  lemma StepSafe<S>(s: State<S>, legacy: map<string, nat>, step: Step<S>)
    requires Safe(s, legacy) && Enabled(s, step)
    ensures Safe(Next(s, step), legacy)
    ensures forall id :: HighWater(Next(s, step).fleet, id) >= HighWater(s.fleet, id)
  {
    match step
    case Register(stream, id, free, slots) =>
      RegisteredConsistent(s.fleet, stream, id, free, slots);
      FleetGrows(s, legacy, Registered(s.fleet, stream, id, free, slots));
    case Frame(id, free, expected) =>
      FramedConsistent(s.fleet, id, free, expected);
      FleetGrows(s, legacy, Framed(s.fleet, id, free, expected));
    case Unregister(id, expected) =>
      UnregisteredConsistent(s.fleet, id, expected);
      FleetGrows(s, legacy, Unregistered(s.fleet, id, expected));
    case JobLeaves(id) => JobLeavesSafe(s, legacy, id);
    case ComputeCapacity => PromiseSafe(s, legacy);
    case HandOut(jobs, cursor) => HandOutSafe(s, legacy, jobs, cursor);
    case Stamp(stamped) => StampSafe(s, legacy, stamped);
    case _ => PhaseSafe(s, legacy, step);
  }

  // ---------------------------------------------------------------- over whole runs

  /** An engine that has just started: no stream, and any rows left from before. */
  ghost function Fresh<S>(legacy: map<string, nat>): State<S> {
    State(Fleet(map[], map[], map[]), legacy, map[], Idle)
  }

  lemma FreshSafe<S>(legacy: map<string, nat>)
    ensures Safe<S>(Fresh(legacy), legacy)
  {
    var s: State<S> := Fresh(legacy);
    assert forall id :: SafeAt(s, legacy, id);
  }

  lemma {:induction false} RunSafe<S>(s: State<S>, steps: seq<Step<S>>, legacy: map<string, nat>)
    requires Possible(s, steps) && Safe(s, legacy)
    ensures Safe(Run(s, steps), legacy)
    ensures forall id :: HighWater(Run(s, steps).fleet, id) >= HighWater(s.fleet, id)
    decreases steps
  {
    if steps != [] {
      StepSafe(s, legacy, steps[0]);
      RunSafe(Next(s, steps[0]), steps[1..], legacy);
    }
  }

  /** Whatever the frames say, whichever stream they are from and whenever they arrive: for every worker,
      the rows stamped with its id and the jobs a pass has promised or handed it together never exceed the
      slots it has shown, or the rows it already had when this engine started. */
  lemma NeverOverAssigned<S>(legacy: map<string, nat>, steps: seq<Step<S>>, id: string)
    requires Possible(Fresh(legacy), steps)
    ensures var r := Run(Fresh(legacy), steps);
            Of(r.running, id) + InFlight(r.phase, id) <= Max(HighWater(r.fleet, id), Of(legacy, id))
  {
    FreshSafe<S>(legacy);
    RunSafe(Fresh(legacy), steps, legacy);
    assert SafeAt(Run(Fresh(legacy), steps), legacy, id);
  }

  /** No worker's total ever falls, whatever it is reset to by a reconnect or a frame. */
  lemma TotalsNeverFall<S>(legacy: map<string, nat>, before: seq<Step<S>>, after: seq<Step<S>>, id: string)
    requires Possible(Fresh(legacy), before) && Possible(Run(Fresh(legacy), before), after)
    ensures HighWater(Run(Run(Fresh(legacy), before), after).fleet, id) >= HighWater(Run(Fresh(legacy), before).fleet, id)
  {
    FreshSafe<S>(legacy);
    RunSafe(Fresh(legacy), before, legacy);
    RunSafe(Run(Fresh(legacy), before), after, legacy);
  }

  /** Jobs stamped for a worker or left with it unstamped, less jobs of it that finished. */
  function Gained<S>(steps: seq<Step<S>>, id: string): int {
    if steps == [] then 0
    else
      (match steps[0]
       case Stamp(stamped) => Of(stamped, id)
       case StampFails(unstamped) => Of(unstamped, id)
       case JobLeaves(i) => if i == id then -1 else 0
       case LostJobLeaves(i) => if i == id then -1 else 0
       case _ => 0)
      + Gained(steps[1..], id)
  }

  /** In every run a worker's rows and lost jobs are accounted for one by one. */
  lemma {:induction false} RowsAccountedFor<S>(s: State<S>, steps: seq<Step<S>>, id: string)
    requires Possible(s, steps)
    ensures var r := Run(s, steps);
            Of(r.running, id) + Of(r.lost, id) == Of(s.running, id) + Of(s.lost, id) + Gained(steps, id)
    decreases steps
  {
    if steps != [] { RowsAccountedFor(Next(s, steps[0]), steps[1..], id); }
  }

  function FailedStamps<S>(steps: seq<Step<S>>, id: string): nat {
    if steps == [] then 0
    else (if steps[0].StampFails? then Of(steps[0].unstamped, id) else 0) + FailedStamps(steps[1..], id)
  }

  lemma {:induction false} LostAtMost<S>(s: State<S>, steps: seq<Step<S>>, id: string)
    requires Possible(s, steps)
    ensures Of(Run(s, steps).lost, id) <= Of(s.lost, id) + FailedStamps(steps, id)
    decreases steps
  {
    if steps != [] { LostAtMost(Next(s, steps[0]), steps[1..], id); }
  }

  /** Counting jobs whose stamp failed as well, a worker's excess is at most its failed stamps. */
  lemma ExcessIsFailedStamps<S>(legacy: map<string, nat>, steps: seq<Step<S>>, id: string)
    requires Possible(Fresh(legacy), steps)
    ensures var r := Run(Fresh(legacy), steps);
            Of(r.running, id) + InFlight(r.phase, id) + Of(r.lost, id)
            <= Max(HighWater(r.fleet, id), Of(legacy, id)) + FailedStamps(steps, id)
  {
    NeverOverAssigned(legacy, steps, id);
    LostAtMost(Fresh(legacy), steps, id);
  }

  // ---------------------------------------------------------------- a failed stamp

  lemma {:induction false} RunConcat<S>(s: State<S>, a: seq<Step<S>>, b: seq<Step<S>>)
    requires Possible(s, a) && Possible(Run(s, a), b)
    ensures Possible(s, a + b) && Run(s, a + b) == Run(Run(s, a), b)
    decreases a
  {
    if a == [] {
      assert a + b == b;
    } else {
      assert (a + b)[0] == a[0] && (a + b)[1..] == a[1..] + b;
      RunConcat(Next(s, a[0]), a[1..], b);
    }
  }

  lemma OneMore<S>(s: State<S>, steps: seq<Step<S>>, step: Step<S>)
    requires Possible(s, steps) && Enabled(Run(s, steps), step)
    ensures Possible(s, steps + [step]) && Run(s, steps + [step]) == Next(Run(s, steps), step)
  {
    assert [step][1..] == [] && Possible(Next(Run(s, steps), step), []);
    RunConcat(s, steps, [step]);
  }

  lemma OneJobPlan(id: string, capacity: map<string, int>, cursor: string)
    requires id in capacity && capacity[id] == 1
    ensures Ascending([id]) && Loads([id], Matching.Plan(1, [id], capacity, cursor)) == map[id := 1]
  {
    Matching.PlanTotal(1, [id], capacity, cursor);
    Matching.CapsAt([id], capacity, 0);
    assert Matching.Plan(1, [id], capacity, cursor) == [0];
    assert [0][1..] == [];
  }

  /** The state in which worker `id` is on `stream` with one slot in all, and says that it is free. */
  ghost predicate OneFree<S>(s: State<S>, stream: S, id: string) {
    && s.phase.Idle? && Of(s.running, id) == 0
    && id in s.fleet.current && s.fleet.current[id] == stream
    && stream in s.fleet.streams && s.fleet.streams[stream] == Slots(id, 1, 1)
    && HighWater(s.fleet, id) == 1
  }

  lemma OneSlotPromise<S>(f: Fleet<S>, stream: S, id: string, counts: map<string, nat>)
    requires stream in f.streams && f.streams[stream] == Slots(id, 1, 1) && Of(counts, id) == 0
    ensures WorkersOf(f, [stream]) == [id] && Ready(f, [id], [stream])
    ensures Capacities(f, [id], [stream], counts) == map[id := 1]
  {
    assert WorkersOf(f, [stream])[0] == id;
  }

  lemma OneSlotDrained<S>(f: Fleet<S>, stream: S, id: string)
    requires stream in f.streams && f.streams[stream] == Slots(id, 1, 1)
    ensures stream in Drained(f, [stream], map[id := 1]).streams
    ensures Drained(f, [stream], map[id := 1]).streams[stream] == Slots(id, 0, 1)
  {
  }

  /** Such a worker is handed one job. */
  lemma OneSlotPass<S>(s: State<S>, stream: S, id: string)
    requires OneFree(s, stream, id)
    ensures Possible(s, [CountRunning([stream]), ComputeCapacity, HandOut(1, "")])
    ensures var r := Run(s, [CountRunning([stream]), ComputeCapacity, HandOut(1, "")]);
            && r.running == s.running && r.lost == s.lost && r.phase == Handed(map[id := 1])
            && r.fleet.current == s.fleet.current && r.fleet.known == s.fleet.known
            && stream in r.fleet.streams && r.fleet.streams[stream] == Slots(id, 0, 1)
  {
    OneSlotPromise(s.fleet, stream, id, s.running);
    OneSlotDrained(s.fleet, stream, id);
    OneJobPlan(id, map[id := 1], "");
    OneMore(s, [], CountRunning([stream]));
    OneMore(s, [CountRunning([stream])], ComputeCapacity);
    OneMore(s, [CountRunning([stream]), ComputeCapacity], HandOut(1, ""));
  }

  lemma {:induction false} FailedConcat<S>(a: seq<Step<S>>, b: seq<Step<S>>, id: string)
    ensures FailedStamps(a + b, id) == FailedStamps(a, id) + FailedStamps(b, id)
    decreases a
  {
    if a == [] {
      assert a + b == b;
    } else {
      assert (a + b)[0] == a[0] && (a + b)[1..] == a[1..] + b;
      FailedConcat(a[1..], b, id);
    }
  }

  lemma {:induction false} NoneFailed<S>(steps: seq<Step<S>>, id: string)
    requires forall i :: 0 <= i < |steps| ==> !steps[i].StampFails?
    ensures FailedStamps(steps, id) == 0
    decreases steps
  {
    if steps != [] { NoneFailed(steps[1..], id); }
  }

  /** A worker with one free slot, served once with the stamp failing, says again that it is free. */
  lemma FreeAgain<S>(s: State<S>, stream: S, id: string) returns (steps: seq<Step<S>>)
    requires OneFree(s, stream, id)
    ensures Possible(s, steps) && OneFree(Run(s, steps), stream, id)
    ensures Of(Run(s, steps).lost, id) == Of(s.lost, id) + 1 && FailedStamps(steps, id) == 1
  {
    var pass: seq<Step<S>> := [CountRunning([stream]), ComputeCapacity, HandOut(1, "")];
    OneSlotPass(s, stream, id);
    OneMore(s, pass, StampFails(map[id := 1]));
    OneMore(s, pass + [StampFails(map[id := 1])], Frame(id, 1, Some(stream)));
    steps := pass + [StampFails(map[id := 1])] + [Frame(id, 1, Some(stream))];
    FailedConcat(pass + [StampFails(map[id := 1])], [Frame(id, 1, Some(stream))], id);
    FailedConcat(pass, [StampFails(map[id := 1])], id);
    NoneFailed(pass, id);
  }

  /** And that as often as one likes. */
  lemma {:induction false} FreeAgainAndAgain<S>(s: State<S>, stream: S, id: string, k: nat) returns (steps: seq<Step<S>>)
    requires OneFree(s, stream, id)
    ensures Possible(s, steps) && OneFree(Run(s, steps), stream, id)
    ensures Of(Run(s, steps).lost, id) == Of(s.lost, id) + k && FailedStamps(steps, id) == k
    decreases k
  {
    if k == 0 {
      steps := [];
    } else {
      var once := FreeAgain(s, stream, id);
      var more := FreeAgainAndAgain(Run(s, once), stream, id, k - 1);
      RunConcat(s, once, more);
      FailedConcat(once, more, id);
      steps := once + more;
    }
  }

  /** Failed stamps do let a worker be over-assigned, whoever it is and by as many: with one slot and k lost
      stamps, the next pass still believes a frame that says the slot is free. */
  lemma FailedStampsOverAssign<S>(stream: S, id: string, k: nat) returns (steps: seq<Step<S>>)
    ensures Possible(Fresh<S>(map[]), steps) && FailedStamps(steps, id) == k
    ensures var r := Run(Fresh<S>(map[]), steps);
            Of(r.running, id) + InFlight(r.phase, id) + Of(r.lost, id) == HighWater(r.fleet, id) + k
  {
    var s0: State<S> := Fresh(map[]);
    var register := [Register(stream, id, 1, 1)];
    OneMore(s0, [], register[0]);
    var s1 := Run(s0, register);
    assert OneFree(s1, stream, id) && Of(s1.lost, id) == 0;
    var failed := FreeAgainAndAgain(s1, stream, id, k);
    RunConcat(s0, register, failed);
    FailedConcat(register, failed, id);
    NoneFailed(register, id);
    var pass: seq<Step<S>> := [CountRunning([stream]), ComputeCapacity, HandOut(1, "")];
    OneSlotPass(Run(s0, register + failed), stream, id);
    RunConcat(s0, register + failed, pass);
    FailedConcat(register + failed, pass, id);
    NoneFailed(pass, id);
    steps := register + failed + pass;
  }
}
