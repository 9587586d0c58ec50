/** The registry as a value: every stream there ever was, which one each worker is on, and the most slots
    each worker was ever known to have. `S` identifies a stream. */
module Fleets {
  import opened Claims
  import opened Numbers

  datatype Slots = Slots(id: string, free: int, total: int)

  datatype Fleet<S> = Fleet(streams: map<S, Slots>, current: map<string, S>, known: map<string, int>)

  /** The most slots a worker was ever known to have. */
  ghost function HighWater<S>(f: Fleet<S>, id: string): int {
    if id in f.known then f.known[id] else 0
  }

  /** No stream claims more than its worker's high-water mark, and the stream a worker is on claims
      exactly that. */
  ghost predicate Consistent<S>(f: Fleet<S>) {
    && (forall id :: id in f.known ==> f.known[id] >= 0)
    && (forall s :: s in f.streams ==> Covered(f, f.streams[s]))
    && (forall id :: id in f.current ==>
          && f.current[id] in f.streams
          && f.streams[f.current[id]].id == id
          && id in f.known && f.streams[f.current[id]].total == f.known[id])
  }

  ghost predicate Covered<S>(f: Fleet<S>, slots: Slots) {
    0 <= slots.total <= HighWater(f, slots.id) && slots.free <= slots.total
  }

  /** A frame or a goodbye counts when it names no stream, or the one its worker is on. */
  ghost predicate Accepted<S>(f: Fleet<S>, id: string, expected: Option<S>) {
    id in f.current && (expected.None? || f.current[id] == expected.value)
  }

  ghost function Registered<S>(f: Fleet<S>, s: S, id: string, free: int, slots: int): Fleet<S> {
    var total := Max(Max(slots, free), HighWater(f, id));
    Fleet(f.streams[s := Slots(id, free, total)], f.current[id := s], f.known[id := total])
  }

  ghost function Framed<S>(f: Fleet<S>, id: string, free: int, expected: Option<S>): Fleet<S> {
    if !Accepted(f, id, expected) then f
    else
      var total := Max(HighWater(f, id), free);
      f.(streams := f.streams[f.current[id] := Slots(id, free, total)], known := f.known[id := total])
  }

  ghost function Unregistered<S>(f: Fleet<S>, id: string, expected: Option<S>): Fleet<S> {
    if Accepted(f, id, expected) then f.(current := f.current - {id}) else f
  }

  /** min(free_slots, max(0, slots_total - running)) */
  function Capacity(free: int, total: int, running: int): int {
    Min(free, Max(0, total - running))
  }

  /** That is the most that is free and fits beside the running jobs. */
  lemma CapacityIsLargest(free: int, total: int, running: int, n: int)
    ensures n <= Capacity(free, total, running) <==> n <= free && (n <= 0 || n + running <= total)
  {
  }

  predicate IsLargest(n: int, a: int, b: int, c: int) {
    n >= a && n >= b && n >= c && (n == a || n == b || n == c)
  }

  /** A registered stream has the largest of its declared total, its free count and its worker's mark, and
      is the one its worker is on; no other stream or worker changes. */
  lemma RegisteredExactly<S>(f: Fleet<S>, s: S, id: string, free: int, slots: int)
    ensures var g := Registered(f, s, id, free, slots);
            && s in g.streams && g.streams[s].id == id && g.streams[s].free == free
            && IsLargest(g.streams[s].total, slots, free, HighWater(f, id)) && HighWater(g, id) == g.streams[s].total
            && id in g.current && g.current[id] == s
            && g.streams - {s} == f.streams - {s} && g.current - {id} == f.current - {id} && g.known - {id} == f.known - {id}
  {
  }

  /** An accepted frame sets the stream's free count and raises its total to it if need be; no other stream
      or worker changes. */
  lemma FramedExactly<S>(f: Fleet<S>, id: string, free: int, expected: Option<S>)
    requires Consistent(f)
    ensures var g := Framed(f, id, free, expected);
            if !Accepted(f, id, expected) then g == f
            else
              var s := f.current[id];
              && s in g.streams && g.streams[s].id == id && g.streams[s].free == free
              && g.streams[s].total >= free && g.streams[s].total >= f.streams[s].total
              && (g.streams[s].total == free || g.streams[s].total == f.streams[s].total)
              && HighWater(g, id) == g.streams[s].total
              && g.streams - {s} == f.streams - {s} && g.current == f.current && g.known - {id} == f.known - {id}
  {
  }

  /** An accepted goodbye takes the worker off its stream, and changes nothing else. */
  lemma UnregisteredExactly<S>(f: Fleet<S>, id: string, expected: Option<S>)
    ensures var g := Unregistered(f, id, expected);
            if Accepted(f, id, expected)
            then id !in g.current && g.current == f.current - {id} && g.streams == f.streams && g.known == f.known
            else g == f
  {
  }

  /** Across reconnects, frames from any stream and goodbyes from any stream, the totals stay what
      they should be and no worker's high-water mark falls. */
  lemma RegisteredConsistent<S>(f: Fleet<S>, s: S, id: string, free: int, slots: int)
    requires Consistent(f) && (s in f.streams ==> f.streams[s].id == id)
    ensures Consistent(Registered(f, s, id, free, slots))
    ensures forall i :: HighWater(Registered(f, s, id, free, slots), i) >= HighWater(f, i)
  {
    var g := Registered(f, s, id, free, slots);
    forall x | x in g.streams
      ensures Covered(g, g.streams[x])
    {
      if x != s { assert Covered(f, f.streams[x]); }
    }
  }

  lemma FramedConsistent<S>(f: Fleet<S>, id: string, free: int, expected: Option<S>)
    requires Consistent(f)
    ensures Consistent(Framed(f, id, free, expected))
    ensures forall i :: HighWater(Framed(f, id, free, expected), i) >= HighWater(f, i)
  {
    var g := Framed(f, id, free, expected);
    forall x | x in g.streams
      ensures Covered(g, g.streams[x])
    {
      assert Covered(f, f.streams[x]);
    }
  }

  lemma UnregisteredConsistent<S>(f: Fleet<S>, id: string, expected: Option<S>)
    requires Consistent(f)
    ensures Consistent(Unregistered(f, id, expected))
  {
    var g := Unregistered(f, id, expected);
    forall x | x in g.streams
      ensures Covered(g, g.streams[x])
    {
      assert Covered(f, f.streams[x]);
    }
  }
}

/** src/symba/services/registry.py: the workers connected to this engine. */
module Workers {
  import opened Claims
  import opened Numbers
  import opened Fleets

  /** One Claim stream. A reconnect makes a new object for the same worker id. */
  class WorkerConn {
    const workerId: string
    var tags: set<string>
    var freeSlots: int
    var slotsTotal: int
    var registeredTasks: set<string>
    var queue: seq<ClaimedJob>

    constructor (workerId: string, tags: set<string>, freeSlots: int, slotsTotal: int, registeredTasks: set<string>)
      ensures this.workerId == workerId && this.tags == tags && this.freeSlots == freeSlots
      ensures this.slotsTotal == slotsTotal && this.registeredTasks == registeredTasks && queue == []
    {
      this.workerId, this.tags, this.freeSlots := workerId, tags, freeSlots;
      this.slotsTotal, this.registeredTasks, queue := slotsTotal, registeredTasks, [];
    }

    /** The fields after a slot frame: total is the high-water mark, the rest is as reported. */
    twostate predicate Reports(free: int, newTags: Option<set<string>>, newTasks: Option<set<string>>)
      reads this
    {
      && freeSlots == free
      && slotsTotal == Max(old(slotsTotal), free)
      && tags == (if newTags.Some? then newTags.value else old(tags))
      && registeredTasks == (if newTasks.Some? then newTasks.value else old(registeredTasks))
      && queue == old(queue)
    }

    method TakeReport(free: int, newTags: Option<set<string>>, newTasks: Option<set<string>>)
      modifies this
      ensures Reports(free, newTags, newTasks)
    {
      freeSlots := free;
      if free > slotsTotal {
        slotsTotal := free;
      }
      if newTags.Some? {
        tags := newTags.value;
      }
      if newTasks.Some? {
        registeredTasks := newTasks.value;
      }
    }
  }

  ghost function Streams(conns: set<WorkerConn>): map<WorkerConn, Slots>
    reads conns
  {
    map w | w in conns :: Slots(w.workerId, w.freeSlots, w.slotsTotal)
  }

  class WorkerRegistry {
    var workers: map<string, WorkerConn>
    var knownSlotsTotal: map<string, int>
    var wake: bool
    /** Every connection that was ever registered, superseded ones included. */
    ghost var conns: set<WorkerConn>

    ghost function View(): Fleet<WorkerConn>
      reads this, conns
    {
      Fleet(Streams(conns), workers, knownSlotsTotal)
    }

    ghost predicate Valid()
      reads this, conns
    {
      Consistent(View())
    }

    constructor ()
      ensures Valid() && View() == Fleet(map[], map[], map[])
    {
      workers, knownSlotsTotal, wake, conns := map[], map[], false, {};
    }

    method File(conn: WorkerConn)
      modifies this, conn`slotsTotal
      ensures wake
      ensures View() == Registered(old(View()), conn, conn.workerId, conn.freeSlots, old(conn.slotsTotal))
    {
      var known := if conn.workerId in knownSlotsTotal then knownSlotsTotal[conn.workerId] else 0;
      conn.slotsTotal := Max(Max(conn.slotsTotal, conn.freeSlots), known);
      knownSlotsTotal := knownSlotsTotal[conn.workerId := conn.slotsTotal];
      workers := workers[conn.workerId := conn];
      conns := conns + {conn};
      wake := true;
    }

    method Register(conn: WorkerConn)
      requires Valid()
      modifies this, conn`slotsTotal
      ensures Valid() && wake
      ensures View() == Registered(old(View()), conn, conn.workerId, conn.freeSlots, old(conn.slotsTotal))
      ensures conn.slotsTotal >= old(conn.slotsTotal) && conn.slotsTotal >= old(HighWater(View(), conn.workerId))
      ensures workers == old(workers)[conn.workerId := conn]
    {
      RegisteredExactly(View(), conn, conn.workerId, conn.freeSlots, conn.slotsTotal);
      RegisteredConsistent(View(), conn, conn.workerId, conn.freeSlots, conn.slotsTotal);
      File(conn);
    }

    /** A stream that has been superseded removes nothing. */
    method Unregister(workerId: string, expected: Option<WorkerConn>) returns (removed: bool)
      requires Valid()
      modifies this`workers
      ensures Valid()
      ensures removed <==> old(Accepted(View(), workerId, expected))
      ensures View() == Unregistered(old(View()), workerId, expected)
    {
      UnregisteredConsistent(View(), workerId, expected);
      if workerId !in workers || (expected.Some? && workers[workerId] != expected.value) {
        return false;
      }
      workers := workers - {workerId};
      return true;
    }

    /** The effect of a frame on the stream it is from. */
    method Note(conn: WorkerConn, freeSlots: int, tags: Option<set<string>>, registeredTasks: Option<set<string>>)
      requires conn in conns && conn.slotsTotal == HighWater(View(), conn.workerId)
      modifies this`knownSlotsTotal, this`wake, conn
      ensures View().current == old(View().current)
      ensures View().streams == old(View().streams)[conn := Slots(conn.workerId, freeSlots, conn.slotsTotal)]
      ensures View().known == old(View().known)[conn.workerId := conn.slotsTotal]
      ensures conn.Reports(freeSlots, tags, registeredTasks)
      ensures wake == (old(wake) || (old(conn.freeSlots) == 0 && freeSlots > 0))
    {
      var wasIdle := conn.freeSlots == 0;
      conn.TakeReport(freeSlots, tags, registeredTasks);
      knownSlotsTotal := knownSlotsTotal[conn.workerId := conn.slotsTotal];
      if wasIdle && freeSlots > 0 {
        wake := true;
      }
    }

    /** A slot frame. From a superseded stream it changes nothing; otherwise the free count is
        taken as reported and the total only ever rises. */
    method UpdateSlots(workerId: string, freeSlots: int, tags: Option<set<string>>,
                       registeredTasks: Option<set<string>>, expected: Option<WorkerConn>)
      returns (accepted: bool)
      requires Valid()
      modifies this`knownSlotsTotal, this`wake, if workerId in workers then {workers[workerId]} else {}
      ensures Valid()
      ensures accepted <==> old(Accepted(View(), workerId, expected))
      ensures View() == Framed(old(View()), workerId, freeSlots, expected)
      ensures !accepted ==> wake == old(wake) && (workerId in workers ==> unchanged(workers[workerId]))
      ensures accepted ==>
                && workers[workerId].Reports(freeSlots, tags, registeredTasks)
                && wake == (old(wake) || (old(workers[workerId].freeSlots) == 0 && freeSlots > 0))
    {
      FramedConsistent(View(), workerId, freeSlots, expected);
      if workerId !in workers || (expected.Some? && workers[workerId] != expected.value) {
        return false;
      }
      Note(workers[workerId], freeSlots, tags, registeredTasks);
      return true;
    }

    /** Exactly the connections with something free, each once. */
    method SnapshotAvailable() returns (available: seq<WorkerConn>)
      requires Valid()
      ensures forall w :: w in available <==> w in workers.Values && w.freeSlots > 0
      ensures forall i, j :: 0 <= i < j < |available| ==> available[i].workerId != available[j].workerId
    {
      available := [];
      var rest := workers.Keys;
      while rest != {}
        invariant rest <= workers.Keys
        invariant forall w :: w in available ==> w in workers.Values && w.workerId !in rest && w.freeSlots > 0
        invariant forall id :: id in workers.Keys - rest && workers[id].freeSlots > 0 ==> workers[id] in available
        invariant forall i, j :: 0 <= i < j < |available| ==> available[i].workerId != available[j].workerId
        decreases rest
      {
        var id :| id in rest;
        if workers[id].freeSlots > 0 {
          available := available + [workers[id]];
        }
        rest := rest - {id};
      }
    }
  }
}
