/**
 * Fan-out gates: the policies of src/symba/core/gates.py and the counting statement
 * src/symba/db/queries/bump_gate.sql that decides a gate.
 */
module Gates {
  import opened Numbers

  /** The policy as `fan_out` accepts it; `Quorum` carries any integer, also zero or a negative one. */
  datatype Policy = AllSuccess | AllTerminal | Quorum(n: int)

  datatype Progress = Progress(expected: int, completed: int, succeeded: int, failed: int)

  /** The checks of `GateProgress.__post_init__`. */
  predicate Consistent(p: Progress) {
    p.expected > 0 && 0 <= p.succeeded <= p.completed <= p.expected && 0 <= p.failed <= p.completed - p.succeeded
  }

  datatype Verdict = Decided(satisfied: bool) | BadQuorum

  /** `is_satisfied` of the core module. */
  function IsSatisfied(policy: Policy, p: Progress): Verdict {
    match policy
    case AllSuccess => Decided(p.completed == p.expected && p.failed == 0)
    case AllTerminal => Decided(p.completed == p.expected)
    case Quorum(n) => if n <= 0 then BadQuorum else Decided(p.succeeded >= Min(n, p.expected))
  }

  /** The same question as the statement asks it. */
  predicate Satisfied(policy: Policy, p: Progress) {
    match policy
    case AllSuccess => p.completed >= p.expected && p.failed == 0
    case AllTerminal => p.completed >= p.expected
    case Quorum(n) => p.succeeded >= Min(n, p.expected)
  }

  /** The statement decides as the core module does, wherever that gives a verdict. */
  lemma StatementAgrees(policy: Policy, p: Progress)
    requires Consistent(p)
    ensures IsSatisfied(policy, p) == Decided(Satisfied(policy, p)) <==> !(policy.Quorum? && policy.n <= 0)
  {
  }

  datatype Outcome = Won | Skipped | Lost

  function Count(p: Progress, o: Outcome): Progress {
    p.(completed := p.completed + 1,
       succeeded := p.succeeded + (if o.Won? then 1 else 0),
       failed := p.failed + (if o.Lost? then 1 else 0))
  }

  /** One gate row: counts, and the branch it took once it fired. */
  datatype Gate = Gate(policy: Policy, progress: Progress, fired: bool, branch: bool)

  /** bump_gate.sql: count the child, and resolve when satisfied or when all children are in. */
  function Bump(g: Gate, o: Outcome): Gate {
    var p := Count(g.progress, o);
    if Resolves(g, o) then g.(progress := p, fired := true, branch := Satisfied(g.policy, p))
    else g.(progress := p)
  }

  predicate Resolves(g: Gate, o: Outcome) {
    var p := Count(g.progress, o);
    !g.fired && (Satisfied(g.policy, p) || p.completed >= p.expected)
  }

  /** What every gate keeps: a fired gate's branch is its policy on the counts as they are now, and
      a gate that has not fired is neither satisfied nor complete. */
  predicate Settled(g: Gate) {
    && Consistent(g.progress)
    && (if g.fired then g.branch == Satisfied(g.policy, g.progress)
                        && (g.branch || g.progress.completed == g.progress.expected) && g.progress.completed > 0
        else g.progress.completed < g.progress.expected
             && (g.progress.completed > 0 ==> !Satisfied(g.policy, g.progress)))
  }

  lemma BumpSettles(g: Gate, o: Outcome)
    requires Settled(g) && g.progress.completed < g.progress.expected
    ensures Settled(Bump(g, o))
    ensures g.fired ==> Bump(g, o).fired && Bump(g, o).branch == g.branch
  {
  }

  // ---------------------------------------------------------------- every order of the children

  function Open(policy: Policy, expected: nat): Gate {
    Gate(policy, Progress(expected, 0, 0, 0), false, false)
  }

  function BumpAll(g: Gate, os: seq<Outcome>): Gate
    decreases |os|
  {
    if os == [] then g else BumpAll(Bump(g, os[0]), os[1..])
  }

  /** How many of the bumps resolve the gate. */
  function Resolutions(g: Gate, os: seq<Outcome>): nat
    decreases |os|
  {
    if os == [] then 0 else (if Resolves(g, os[0]) then 1 else 0) + Resolutions(Bump(g, os[0]), os[1..])
  }

  function Tally(os: seq<Outcome>, o: Outcome): nat { multiset(os)[o] }

  lemma {:induction false} BumpAllCounts(g: Gate, os: seq<Outcome>)
    ensures BumpAll(g, os).policy == g.policy && BumpAll(g, os).progress
         == Progress(g.progress.expected, g.progress.completed + |os|, g.progress.succeeded + Tally(os, Won),
                     g.progress.failed + Tally(os, Lost))
    decreases |os|
  {
    if os != [] {
      BumpAllCounts(Bump(g, os[0]), os[1..]);
      assert os == [os[0]] + os[1..];
    }
  }

  lemma {:induction false} BumpAllSettles(g: Gate, os: seq<Outcome>)
    requires Settled(g) && g.progress.completed + |os| <= g.progress.expected
    ensures Settled(BumpAll(g, os))
    ensures Resolutions(g, os) + (if g.fired then 1 else 0) == (if BumpAll(g, os).fired then 1 else 0)
    decreases |os|
  {
    if os != [] {
      BumpSettles(g, os[0]);
      BumpAllSettles(Bump(g, os[0]), os[1..]);
    }
  }

  /** For every order of the expected children's outcomes exactly one bump resolves the gate, and the
      branch it takes is the policy on the final counts. */
  lemma ResolvesExactlyOnce(policy: Policy, os: seq<Outcome>)
    requires os != []
    ensures var g, final := BumpAll(Open(policy, |os|), os), Progress(|os|, |os|, Tally(os, Won), Tally(os, Lost));
            && Resolutions(Open(policy, |os|), os) == 1 && g.fired
            && g.branch == Satisfied(policy, final)
            && Consistent(final)
  {
    BumpAllCounts(Open(policy, |os|), os);
    BumpAllSettles(Open(policy, |os|), os);
  }

  /** So the branch does not depend on the order in which the children finish. */
  lemma OrderDoesNotMatter(policy: Policy, os: seq<Outcome>, other: seq<Outcome>)
    requires os != [] && multiset(os) == multiset(other)
    ensures |os| == |other|
    ensures BumpAll(Open(policy, |os|), os).branch == BumpAll(Open(policy, |other|), other).branch
  {
    assert |multiset(os)| == |multiset(other)|;
    ResolvesExactlyOnce(policy, os);
    ResolvesExactlyOnce(policy, other);
  }

  /** A quorum of zero, which `fan_out` lets through, is satisfied by a single dead child. */
  lemma ZeroQuorumFiresOnDeath(n: int, expected: nat)
    requires n <= 0 && expected > 0
    ensures Resolves(Open(Quorum(n), expected), Lost) && Bump(Open(Quorum(n), expected), Lost).branch
    ensures IsSatisfied(Quorum(n), Count(Open(Quorum(n), expected).progress, Lost)) == BadQuorum
  {
  }
}
