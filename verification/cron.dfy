/**
 * Cron schedules, src/symba/services/loops.py: any number of engines with arbitrary clocks look at a
 * schedule, submit its job and advance its window with a compare-and-set.
 *
 * The cron expression is a function from a time to the first occurrence strictly after it.
 */
module Cron {
  import opened Claims

  /** What the expression promises: the occurrence is later, and it is the first one. */
  ghost predicate CronLike(after: int -> int) {
    && (forall t :: after(t) > t)
    && (forall t, s :: t <= s < after(t) ==> after(s) == after(t))
  }

  /** One schedule: its window, the windows with a live job under their dedup key, and how many jobs
      each window got, lost to the archive, and was advanced from. */
  datatype Schedule = Schedule(next: Option<int>, last: Option<int>, live: set<int>,
                               made: multiset<int>, finished: multiset<int>, won: multiset<int>)

  /** cron_advance.sql. */
  function Advance(s: Schedule, expected: Option<int>, next: int, firedAt: Option<int>): Schedule {
    if s.next != expected then s
    else s.(next := Some(next), last := firedAt,
            won := if expected.Some? then s.won + multiset{expected.value} else s.won)
  }

  /** Submitting under the window's key is a no-op while a job of that key is live. */
  function SubmitFor(s: Schedule, f: int): Schedule {
    if f in s.live then s else s.(live := s.live + {f}, made := s.made + multiset{f})
  }

  /** The window after `f`, never left in the past. */
  function Following(after: int -> int, f: int, now: int): int {
    if after(f) < now then now else after(f)
  }

  // ---------------------------------------------------------------- engines side by side

  /** Where an engine is in `_fire`: it has read the row, or it has submitted and not advanced yet. */
  datatype Phase = Idle | Saw(next: Option<int>, last: Option<int>) | Fired(f: int, now: int)

  datatype Fleet = Fleet(s: Schedule, phases: seq<Phase>)

  datatype Event =
    | Look(e: nat)
    | Fire(e: nat, now: int)
    | Win(e: nat)
    | Stop(e: nat)
    | Finish(f: int)

  function PhaseOf(c: Fleet, e: nat): Phase { if e < |c.phases| then c.phases[e] else Idle }

  function Enter(c: Fleet, s: Schedule, e: nat, p: Phase): Fleet {
    if e < |c.phases| then Fleet(s, c.phases[e := p]) else c
  }

  function Step(after: int -> int, c: Fleet, ev: Event): Fleet {
    match ev
    case Look(e) => Enter(c, c.s, e, Saw(c.s.next, c.s.last))
    case Fire(e, now) =>
      (match PhaseOf(c, e)
       case Saw(None, last) => Enter(c, Advance(c.s, None, after(now), last), e, Idle)
       case Saw(Some(f), _) =>
         if f > now then Enter(c, c.s, e, Idle) else Enter(c, SubmitFor(c.s, f), e, Fired(f, now))
       case _ => c)
    case Win(e) =>
      (match PhaseOf(c, e)
       case Fired(f, now) => Enter(c, Advance(c.s, Some(f), Following(after, f, now), Some(f)), e, Idle)
       case _ => c)
    case Stop(e) => Enter(c, c.s, e, Idle)
    case Finish(f) =>
      if f !in c.s.live then c
      else c.(s := c.s.(live := c.s.live - {f}, finished := c.s.finished + multiset{f}))
  }

  function Run(after: int -> int, c: Fleet, evs: seq<Event>): Fleet
    decreases |evs|
  {
    if evs == [] then c else Run(after, Step(after, c, evs[0]), evs[1..])
  }

  function Begin(engines: nat): Fleet {
    Fleet(Schedule(None, None, {}, multiset{}, multiset{}, multiset{}), seq(engines, _ => Idle))
  }

  /** `b` is `a`, or a later window. */
  predicate NotEarlier(a: Option<int>, b: Option<int>) {
    a == b || (b.Some? && (a.None? || a.value < b.value))
  }

  /** Every winning compare-and-set moves the window strictly forward, whatever the clocks say. */
  lemma StepAdvances(after: int -> int, c: Fleet, ev: Event)
    requires CronLike(after)
    ensures NotEarlier(c.s.next, Step(after, c, ev).s.next)
    ensures c.s.won != Step(after, c, ev).s.won ==> c.s.next != Step(after, c, ev).s.next
  {
  }

  lemma {:induction false} RunAdvances(after: int -> int, c: Fleet, evs: seq<Event>)
    requires CronLike(after)
    ensures NotEarlier(c.s.next, Run(after, c, evs).s.next)
    decreases |evs|
  {
    if evs != [] {
      StepAdvances(after, c, evs[0]);
      RunAdvances(after, Step(after, c, evs[0]), evs[1..]);
    }
  }

  /** A window that was advanced from is past, and was advanced from once. */
  predicate WonOk(s: Schedule, f: int) {
    s.won[f] <= 1 && (s.won[f] == 1 ==> s.next.Some? && f < s.next.value)
  }

  ghost predicate WonPast(s: Schedule) {
    forall f :: WonOk(s, f)
  }

  lemma StepWins(after: int -> int, c: Fleet, ev: Event)
    requires CronLike(after) && WonPast(c.s)
    ensures WonPast(Step(after, c, ev).s)
  {
    StepAdvances(after, c, ev);
    var d := Step(after, c, ev);
    forall f
      ensures WonOk(d.s, f)
    {
      assert WonOk(c.s, f);
      if ev.Win? && ev.e < |c.phases| && c.phases[ev.e].Fired? { assert after(c.phases[ev.e].f) > c.phases[ev.e].f; }
    }
  }

  /** In every run of any engines each window is won by at most one of them, once. */
  lemma {:induction false} EachWindowWonOnce(after: int -> int, c: Fleet, evs: seq<Event>)
    requires CronLike(after) && WonPast(c.s)
    ensures WonPast(Run(after, c, evs).s)
    decreases |evs|
  {
    if evs != [] {
      StepWins(after, c, evs[0]);
      EachWindowWonOnce(after, Step(after, c, evs[0]), evs[1..]);
    }
  }

  // ---------------------------------------------------------------- jobs per window

  predicate JobsOk(s: Schedule, f: int) {
    s.made[f] == s.finished[f] + (if f in s.live then 1 else 0)
  }

  ghost predicate JobsCounted(s: Schedule) {
    forall f :: JobsOk(s, f)
  }

  lemma StepCounts(after: int -> int, c: Fleet, ev: Event)
    requires JobsCounted(c.s)
    ensures JobsCounted(Step(after, c, ev).s)
  {
    var d := Step(after, c, ev);
    forall f
      ensures JobsOk(d.s, f)
    {
      assert JobsOk(c.s, f);
    }
  }

  /** In every run a window got one job for each of its jobs that finished, and the live one if any:
      the dedup key allows one at a time, not one in all. */
  lemma {:induction false} RunCounts(after: int -> int, c: Fleet, evs: seq<Event>)
    requires JobsCounted(c.s)
    ensures JobsCounted(Run(after, c, evs).s)
    decreases |evs|
  {
    if evs != [] {
      StepCounts(after, c, evs[0]);
      RunCounts(after, Step(after, c, evs[0]), evs[1..]);
    }
  }

  /** An engine about to submit for a window whose job is already finished. */
  predicate Late(c: Fleet, ev: Event) {
    && ev.Fire? && ev.e < |c.phases| && c.phases[ev.e].Saw? && c.phases[ev.e].next.Some?
    && c.phases[ev.e].next.value <= ev.now && c.s.finished[c.phases[ev.e].next.value] > 0
    && c.phases[ev.e].next.value !in c.s.live
  }

  ghost predicate OneEach(s: Schedule) {
    forall f :: s.made[f] <= 1
  }

  /** Every window keeps to one job exactly when no engine submits late. */
  lemma StepKeepsOneIff(after: int -> int, c: Fleet, ev: Event)
    requires JobsCounted(c.s) && OneEach(c.s)
    ensures OneEach(Step(after, c, ev).s) <==> !Late(c, ev)
  {
    var d := Step(after, c, ev);
    if Late(c, ev) {
      var f := c.phases[ev.e].next.value;
      assert JobsOk(c.s, f);
      assert d.s.made[f] == 2;
    } else {
      forall f
        ensures d.s.made[f] <= 1
      {
        assert JobsOk(c.s, f) && c.s.made[f] <= 1;
      }
    }
  }

  predicate NeverLate(after: int -> int, c: Fleet, evs: seq<Event>)
    decreases |evs|
  {
    evs == [] || (!Late(c, evs[0]) && NeverLate(after, Step(after, c, evs[0]), evs[1..]))
  }

  /** Once a window has two jobs it keeps them. */
  lemma {:induction false} MadeGrows(after: int -> int, c: Fleet, evs: seq<Event>, f: int)
    ensures Run(after, c, evs).s.made[f] >= c.s.made[f]
    decreases |evs|
  {
    if evs != [] {
      MadeGrows(after, Step(after, c, evs[0]), evs[1..], f);
    }
  }

  /** In every run: each window gets at most one job if and only if no engine, in the whole run,
      submits for a window whose job has already finished. */
  lemma {:induction false} OneJobPerWindowIff(after: int -> int, c: Fleet, evs: seq<Event>)
    requires JobsCounted(c.s) && OneEach(c.s)
    ensures OneEach(Run(after, c, evs).s) <==> NeverLate(after, c, evs)
    decreases |evs|
  {
    if evs != [] {
      var d := Step(after, c, evs[0]);
      StepCounts(after, c, evs[0]);
      StepKeepsOneIff(after, c, evs[0]);
      if Late(c, evs[0]) {
        var f :| d.s.made[f] > 1;
        MadeGrows(after, d, evs[1..], f);
      } else {
        OneJobPerWindowIff(after, d, evs[1..]);
      }
    }
  }

  /** It does happen: two engines read the same window, the first one's job is finished before the
      second one submits. */
  lemma TwoEnginesTwoJobs(after: int -> int, c: Fleet, f: int, now: int)
    requires |c.phases| == 2 && c.s.next == Some(f) && f <= now && f !in c.s.live
    ensures var evs := [Look(0), Look(1), Fire(0, now), Finish(f), Fire(1, now)];
            Run(after, c, evs).s.made[f] == c.s.made[f] + 2
  {
    var e1, e2, e3, e4, e5 := Look(0), Look(1), Fire(0, now), Finish(f), Fire(1, now);
    var c1 := Step(after, c, e1);
    var c2 := Step(after, c1, e2);
    var c3 := Step(after, c2, e3);
    var c4 := Step(after, c3, e4);
    assert [e1, e2, e3, e4, e5] == [e1] + ([e2] + ([e3] + ([e4] + ([e5] + []))));
    RunCons(after, c, e1, [e2] + ([e3] + ([e4] + ([e5] + []))));
    RunCons(after, c1, e2, [e3] + ([e4] + ([e5] + [])));
    RunCons(after, c2, e3, [e4] + ([e5] + []));
    RunCons(after, c3, e4, [e5] + []);
    RunCons(after, c4, e5, []);
    assert c3.s.made[f] == c.s.made[f] + 1 && c4.s.made == c3.s.made && f !in c4.s.live;
  }

  lemma RunCons(after: int -> int, c: Fleet, ev: Event, rest: seq<Event>)
    ensures Run(after, c, [ev] + rest) == Run(after, Step(after, c, ev), rest)
  {
    assert ([ev] + rest)[0] == ev && ([ev] + rest)[1..] == rest;
  }

  // ---------------------------------------------------------------- recovery after an outage

  /** One pass of a single engine at `now` over a schedule with window `f`. */
  function Pass(after: int -> int, f: int, now: int): int {
    if f > now then f else Following(after, f, now)
  }

  /** How many of the passes fire. */
  function Fires(after: int -> int, f: int, nows: seq<int>): nat
    decreases |nows|
  {
    if nows == [] then 0 else (if f <= nows[0] then 1 else 0) + Fires(after, Pass(after, f, nows[0]), nows[1..])
  }

  /** The window after the passes. */
  function Window(after: int -> int, f: int, nows: seq<int>): int
    decreases |nows|
  {
    if nows == [] then f else Window(after, Pass(after, f, nows[0]), nows[1..])
  }

  /** The clock of one engine does not go back. */
  predicate InOrder(nows: seq<int>) {
    forall i, j :: 0 <= i < j < |nows| ==> nows[i] <= nows[j]
  }

  /** The fires of a recovery: from a window that is due until a pass leaves one that is not. */
  function Recovery(after: int -> int, f: int, nows: seq<int>): nat
    decreases |nows|
  {
    if nows == [] || f > nows[0] then 0
    else
      var next := Pass(after, f, nows[0]);
      1 + (if next > nows[0] then 0 else Recovery(after, next, nows[1..]))
  }

  /** The passes after the first, up to and including the one that no occurrence precedes: each of the
      earlier ones finds that an occurrence went by since the pass before it. */
  function Crossed(after: int -> int, nows: seq<int>): nat
    decreases |nows|
  {
    if |nows| < 2 then 0
    else if after(nows[0]) > nows[1] then 1
    else 1 + Crossed(after, nows[1..])
  }

  /** A window that was set to the time of a pass fires again at the next one. */
  lemma {:induction false} ClampedFires(after: int -> int, nows: seq<int>)
    requires InOrder(nows) && nows != []
    ensures Recovery(after, nows[0], nows[1..]) == Crossed(after, nows)
    decreases |nows|
  {
    if |nows| > 1 {
      var rest := nows[1..];
      assert rest[0] == nows[1] && nows[0] <= nows[1];
      if after(nows[0]) <= rest[0] {
        assert Pass(after, nows[0], rest[0]) == rest[0];
        ClampedFires(after, rest);
      }
    }
  }

  /** After an outage of any length, at whatever times the passes come: the schedule fires once when no
      occurrence was missed; otherwise it fires at every pass up to and including the first later one with
      no occurrence since the pass before it. */
  lemma RecoveryCount(after: int -> int, f: int, nows: seq<int>)
    requires InOrder(nows) && nows != [] && f <= nows[0]
    ensures Recovery(after, f, nows) == if after(f) > nows[0] then 1 else 1 + Crossed(after, nows)
  {
    if after(f) <= nows[0] {
      assert Pass(after, f, nows[0]) == nows[0];
      ClampedFires(after, nows);
    }
  }

  /** So the promised single fire comes exactly when nothing was missed or no pass followed, and at most
      two exactly when, besides, no occurrence falls between the recovery and the next pass. */
  lemma RecoveryBounds(after: int -> int, f: int, nows: seq<int>)
    requires InOrder(nows) && nows != [] && f <= nows[0]
    ensures Recovery(after, f, nows) == 1 <==> after(f) > nows[0] || |nows| == 1
    ensures Recovery(after, f, nows) <= 2 <==> after(f) > nows[0] || |nows| <= 2 || after(nows[0]) > nows[1]
  {
    RecoveryCount(after, f, nows);
    if |nows| > 2 { assert nows[1..] != [] && |nows[1..]| >= 2; }
  }

  /** A recovery is the first fires of the run: one at each of its passes, and it ends with a window in
      the future or with the run. */
  lemma {:induction false} RecoveryIsFirst(after: int -> int, f: int, nows: seq<int>)
    requires InOrder(nows) && (nows != [] ==> f <= nows[0])
    ensures var r := Recovery(after, f, nows);
            && r <= |nows| && Fires(after, f, nows[..r]) == r
            && Fires(after, f, nows) == r + Fires(after, Window(after, f, nows[..r]), nows[r..])
            && (r < |nows| ==> 0 < r && Window(after, f, nows[..r]) > nows[r - 1])
    decreases |nows|
  {
    if nows != [] {
      var next, rest := Pass(after, f, nows[0]), nows[1..];
      if next > nows[0] {
        OnePass(after, f, nows, 1);
        assert rest[..0] == [] && nows[1..][..0] == [];
      } else {
        assert rest != [] ==> rest[0] == nows[1];
        RecoveryIsFirst(after, next, rest);
        OnePass(after, f, nows, 1 + Recovery(after, next, rest));
      }
    }
  }

  lemma OnePass(after: int -> int, f: int, nows: seq<int>, r: nat)
    requires 0 < r <= |nows| && f <= nows[0]
    ensures var next, rest := Pass(after, f, nows[0]), nows[1..];
            && Fires(after, f, nows[..r]) == 1 + Fires(after, next, rest[..r - 1])
            && Window(after, f, nows[..r]) == Window(after, next, rest[..r - 1])
            && nows[r..] == rest[r - 1..]
  {
    assert nows[..r][1..] == nows[1..][..r - 1];
  }

  /** Passes at an occurrence each. */
  function Occurrences(after: int -> int, now: int, k: nat): seq<int>
    decreases k
  {
    if k == 0 then [] else [now] + Occurrences(after, after(now), k - 1)
  }

  lemma {:induction false} OccurrencesCross(after: int -> int, now: int, k: nat)
    requires CronLike(after) && k > 0
    ensures var o := Occurrences(after, now, k);
            && |o| == k && o[0] == now && InOrder(o) && Crossed(after, o) == k - 1
    decreases k
  {
    if k == 1 {
      assert Occurrences(after, after(now), 0) == [];
    } else {
      var rest := Occurrences(after, after(now), k - 1);
      OccurrencesCross(after, after(now), k - 1);
      var o := Occurrences(after, now, k);
      assert o == [now] + rest && o[1..] == rest;
      assert after(now) > now;
      forall i, j | 0 <= i < j < |o|
        ensures o[i] <= o[j]
      {
        assert o[j] == rest[j - 1] && rest[0] <= rest[j - 1];
        if i > 0 { assert o[i] == rest[i - 1]; }
      }
    }
  }

  /** No number bounds the fires of a recovery: every schedule with a missed occurrence and passes that are
      slow enough fires as often as there are passes. */
  lemma RecoveryUnbounded(after: int -> int, f: int, now: int, k: nat)
    requires CronLike(after) && after(f) <= now && k > 0
    ensures var nows := Occurrences(after, now, k);
            |nows| == k && InOrder(nows) && nows[0] == now && Recovery(after, f, nows) == k
  {
    OccurrencesCross(after, now, k);
    assert after(f) > f;
    RecoveryCount(after, f, Occurrences(after, now, k));
  }

  /** Every full minute. */
  function Minutely(t: int): int { (t / 60 + 1) * 60 }

  /** Passes a second or two apart are not fast enough either: a recovery just before the minute fires
      three times. */
  lemma ThreeFires()
    ensures CronLike(Minutely)
    ensures Recovery(Minutely, 0, [119, 121, 122]) == 3 && Fires(Minutely, 0, [119, 121, 122]) == 3
  {
    var nows := [119, 121, 122];
    assert Minutely(0) == 60 && Minutely(119) == 120 && Minutely(121) == 180;
    assert nows[1..] == [121, 122] && [121, 122][1..] == [122] && [122][1..] == [];
    assert Fires(Minutely, 121, [122]) == 1;
    assert Recovery(Minutely, 121, [122]) == 1;
  }

  /** Passes come in order, more often than the schedule's period, and all before the first regular
      occurrence after the recovery. */
  ghost predicate Brisk(after: int -> int, nows: seq<int>) {
    forall i :: 0 <= i < |nows| ==> nows[0] <= nows[i] < after(nows[0]) && (i > 0 ==> nows[0] < nows[i])
  }

  lemma {:induction false} NoFireBefore(after: int -> int, f: int, nows: seq<int>)
    requires forall i :: 0 <= i < |nows| ==> nows[i] < f
    ensures Fires(after, f, nows) == 0
    decreases |nows|
  {
    if nows != [] { NoFireBefore(after, f, nows[1..]); }
  }

  /** When all passes come before the next regular occurrence, that is once if no occurrence was missed
      and twice if one was, over all of them: the window is set to the time of the recovery, and that
      window fires too. */
  lemma RecoveryFires(after: int -> int, f: int, nows: seq<int>)
    requires CronLike(after) && Brisk(after, nows) && |nows| >= 2 && f <= nows[0]
    ensures Fires(after, f, nows) == if after(f) > nows[0] then 1 else 2
  {
    var now, rest := nows[0], nows[1..];
    var g := Pass(after, f, now);
    assert rest[0] == nows[1];
    if after(f) > now {
      assert after(now) == after(f);
      forall i | 0 <= i < |rest|
        ensures rest[i] < g
      {
        assert rest[i] == nows[i + 1];
      }
      NoFireBefore(after, g, rest);
    } else {
      assert g == now;
      var h := Pass(after, g, rest[0]);
      assert h == after(now);
      forall i | 0 <= i < |rest[1..]|
        ensures rest[1..][i] < h
      {
        assert rest[1..][i] == nows[i + 2];
      }
      NoFireBefore(after, h, rest[1..]);
    }
  }

  // ---------------------------------------------------------------- the service

  class CronService {
    var s: Schedule

    constructor ()
      ensures s == Begin(0).s
    {
      s := Begin(0).s;
    }

    /** cron_advance: true iff this engine won. */
    method CompareAndAdvance(expected: Option<int>, next: int, firedAt: Option<int>) returns (won: bool)
      modifies this
      ensures won <==> old(s).next == expected
      ensures s == Advance(old(s), expected, next, firedAt)
    {
      won := s.next == expected;
      if won {
        s := s.(next := Some(next), last := firedAt,
                won := if expected.Some? then s.won + multiset{expected.value} else s.won);
      }
    }

    /** `_fire` without interference, from reading the row to advancing it; true iff a job was made. */
    method FireOnce(after: int -> int, now: int) returns (submitted: bool)
      modifies this
      ensures var c := Fleet(old(s), [Idle]);
              s == Step(after, Step(after, Step(after, c, Look(0)), Fire(0, now)), Win(0)).s
      ensures submitted <==> old(s).next.Some? && old(s).next.value <= now && old(s).next.value !in old(s).live
      ensures old(s).next.Some? ==> s.next == Some(Pass(after, old(s).next.value, now))
      ensures old(s).next.None? ==> s.next == Some(after(now)) && s.last == old(s).last && s.made == old(s).made
      ensures old(s).next.Some? && old(s).next.value <= now ==>
                var f := old(s).next.value;
                && s.last == Some(f) && f in s.live && s.made[f] == old(s).made[f] + (if submitted then 1 else 0)
      ensures old(s).next.Some? && old(s).next.value > now ==> s == old(s)
    {
      var seen, last := s.next, s.last;
      if seen.None? {
        var _ := CompareAndAdvance(None, after(now), last);
        return false;
      }
      var f := seen.value;
      if f > now {
        return false;
      }
      submitted := f !in s.live;
      s := SubmitFor(s, f);
      var next := after(f);
      if next < now {
        next := now;
      }
      var _ := CompareAndAdvance(Some(f), next, Some(f));
    }
  }
}
