/**
 * Dispatch passes of many tag sets over one bounded cursor map: src/symba/services/matcher.py:222-251.
 */
module TagRuns {
  import opened TextOrder
  import opened CursorMap
  import opened RingRuns
  import WorkerRing

  /** One batch, and the tag set it is for. */
  datatype Pass<K> = Pass(key: K, batch: Batch)

  /** Every tag set has its ring of workers, and each batch fits its tag set's ring. */
  ghost predicate Fits<K(!new)>(rings: map<K, seq<string>>, passes: seq<Pass<K>>) {
    && (forall k :: k in rings ==> rings[k] != [] && Ascending(rings[k]))
    && (forall i :: 0 <= i < |passes| ==> passes[i].key in rings && |passes[i].batch.caps| == |rings[passes[i].key]|)
  }

  /** Where the jobs of one batch go, when the cursor map is what `uses` made of it. */
  function Targets<K(==,!new)>(ids: seq<string>, uses: seq<Use<K>>, p: Pass<K>): seq<nat>
    requires ids != [] && Ascending(ids) && |p.batch.caps| == |ids|
  {
    WorkerRing.Assign(p.batch.caps, Start(ids, Get(Replay(uses), p.key)), p.batch.jobs).targets
  }

  /** A batch that placed something leaves its last worker as the tag set's cursor. */
  function Recorded<K(==,!new)>(ids: seq<string>, uses: seq<Use<K>>, p: Pass<K>): seq<Use<K>>
    requires ids != [] && Ascending(ids) && |p.batch.caps| == |ids|
  {
    var t := Targets(ids, uses, p);
    if t == [] then uses else uses + [Use(p.key, ids[t[|t| - 1]])]
  }

  /** The placements of one tag set in a run of all of them. */
  ghost function Placements<K(!new)>(rings: map<K, seq<string>>, uses: seq<Use<K>>, passes: seq<Pass<K>>, k: K): seq<nat>
    requires Fits(rings, passes)
    decreases |passes|
  {
    if passes == [] then []
    else
      var p := passes[0];
      (if p.key == k then Targets(rings[k], uses, p) else [])
      + Placements(rings, Recorded(rings[p.key], uses, p), passes[1..], k)
  }

  function BatchesOf<K(==)>(passes: seq<Pass<K>>, k: K): seq<Batch> {
    if passes == [] then []
    else (if passes[0].key == k then [passes[0].batch] else []) + BatchesOf(passes[1..], k)
  }

  /** Never served, or served more recently than all but 1023 other tag sets. */
  predicate Recent<K(==,!new)>(uses: seq<Use<K>>, k: K) {
    k in Recency(uses) ==> k in LastOf(Recency(uses), MAX_WORKER_CURSORS)
  }

  /** So it is whenever the tag set's turn comes. */
  ghost predicate StaysRecent<K(!new)>(rings: map<K, seq<string>>, uses: seq<Use<K>>, passes: seq<Pass<K>>, k: K)
    requires Fits(rings, passes)
    decreases |passes|
  {
    passes == []
    || (var p := passes[0];
        && (p.key == k ==> Recent(uses, k))
        && StaysRecent(rings, Recorded(rings[p.key], uses, p), passes[1..], k))
  }

  lemma {:induction false} NeverServed<K(!new)>(uses: seq<Use<K>>, k: K)
    requires k !in Recency(uses)
    ensures LastWorker(uses, k) == ""
    decreases |uses|
  {
    if uses != [] { NeverServed(uses[..|uses| - 1], k); }
  }

  /** The cursor is the worker the tag set was really served by last. */
  lemma RecentIsRemembered<K(!new)>(uses: seq<Use<K>>, k: K)
    requires Recent(uses, k)
    ensures Get(Replay(uses), k) == LastWorker(uses, k)
  {
    KeepsMostRecent(uses);
    RemembersWorker(uses, k);
    if k !in Recency(uses) { NeverServed(uses, k); }
  }

  /** A key is held exactly while it is among the 1024 most recently served. */
  lemma HeldIffRecent<K(!new)>(uses: seq<Use<K>>, k: K)
    ensures k in Replay(uses).last <==> k in LastOf(Recency(uses), 1024)
  {
    KeepsMostRecent(uses);
  }

  lemma {:induction false} BatchesFit<K(!new)>(rings: map<K, seq<string>>, passes: seq<Pass<K>>, k: K)
    requires Fits(rings, passes) && k in rings
    ensures forall i :: 0 <= i < |BatchesOf(passes, k)| ==> |BatchesOf(passes, k)[i].caps| == |rings[k]|
    decreases |passes|
  {
    if passes != [] {
      var rest := BatchesOf(passes[1..], k);
      BatchesFit(rings, passes[1..], k);
      forall i | 0 <= i < |BatchesOf(passes, k)|
        ensures |BatchesOf(passes, k)[i].caps| == |rings[k]|
      {
        if passes[0].key != k {
          assert BatchesOf(passes, k)[i] == rest[i];
        } else if i > 0 {
          assert BatchesOf(passes, k)[i] == rest[i - 1];
        }
      }
    }
  }

  lemma OneOfOthers<K(!new)>(rings: map<K, seq<string>>, uses: seq<Use<K>>, p: Pass<K>, rest: seq<Pass<K>>, k: K)
    requires Fits(rings, [p] + rest) && Fits(rings, rest) && p.key != k
    requires p.key in rings && |p.batch.caps| == |rings[p.key]|
    ensures BatchesOf([p] + rest, k) == BatchesOf(rest, k)
    ensures Placements(rings, uses, [p] + rest, k) == Placements(rings, Recorded(rings[p.key], uses, p), rest, k)
    ensures LastWorker(Recorded(rings[p.key], uses, p), k) == LastWorker(uses, k)
  {
    assert ([p] + rest)[0] == p && ([p] + rest)[1..] == rest;
    var t := Targets(rings[p.key], uses, p);
    if t != [] {
      assert (uses + [Use(p.key, rings[p.key][t[|t| - 1]])])[..|uses|] == uses;
    }
  }

  lemma OneOfItsOwn<K(!new)>(rings: map<K, seq<string>>, uses: seq<Use<K>>, p: Pass<K>, rest: seq<Pass<K>>)
    requires Fits(rings, [p] + rest) && Fits(rings, rest) && Recent(uses, p.key)
    requires p.key in rings && |p.batch.caps| == |rings[p.key]|
    requires forall i :: 0 <= i < |BatchesOf(rest, p.key)| ==> |BatchesOf(rest, p.key)[i].caps| == |rings[p.key]|
    ensures BatchesOf([p] + rest, p.key) == [p.batch] + BatchesOf(rest, p.key)
    ensures Placements(rings, uses, [p] + rest, p.key)
         == Targets(rings[p.key], uses, p) + Placements(rings, Recorded(rings[p.key], uses, p), rest, p.key)
    ensures Run(rings[p.key], LastWorker(uses, p.key), [p.batch] + BatchesOf(rest, p.key))
         == Targets(rings[p.key], uses, p)
            + Run(rings[p.key], LastWorker(Recorded(rings[p.key], uses, p), p.key), BatchesOf(rest, p.key))
  {
    assert ([p] + rest)[0] == p && ([p] + rest)[1..] == rest;
    RecentIsRemembered(uses, p.key);
    RunCons(rings[p.key], LastWorker(uses, p.key), p.batch, BatchesOf(rest, p.key), Targets(rings[p.key], uses, p));
  }

  /** While it stays recent, a tag set's placements are those of its own batches alone: what the other
      tag sets do in between makes no difference. */
  lemma {:induction false} OthersDoNotMatter<K(!new)>(rings: map<K, seq<string>>, uses: seq<Use<K>>, passes: seq<Pass<K>>, k: K)
    requires Fits(rings, passes) && k in rings && StaysRecent(rings, uses, passes, k)
    ensures forall i :: 0 <= i < |BatchesOf(passes, k)| ==> |BatchesOf(passes, k)[i].caps| == |rings[k]|
    ensures Placements(rings, uses, passes, k) == Run(rings[k], LastWorker(uses, k), BatchesOf(passes, k))
    decreases |passes|
  {
    BatchesFit(rings, passes, k);
    if passes != [] {
      var p, rest := passes[0], passes[1..];
      assert passes == [p] + rest;
      OthersDoNotMatter(rings, Recorded(rings[p.key], uses, p), rest, k);
      if p.key == k {
        OneOfItsOwn(rings, uses, p, rest);
      } else {
        OneOfOthers(rings, uses, p, rest, k);
      }
    }
  }

  lemma {:induction false} BatchesEven<K(!new)>(n: nat, passes: seq<Pass<K>>, k: K)
    requires forall i :: 0 <= i < |passes| && passes[i].key == k ==> passes[i].batch.Even(n)
    ensures forall i :: 0 <= i < |BatchesOf(passes, k)| ==> BatchesOf(passes, k)[i].Even(n)
    decreases |passes|
  {
    if passes != [] { BatchesEven(n, passes[1..], k); }
  }

  /** Interleaved batches of any number of tag sets, after any history: a tag set that stays among the
      1024 most recently served, with room for even shares, walks its ring without a gap over the whole
      run from where it was last served, and no worker of it gets two jobs more than another. */
  lemma RecentTagSetWalks<K(!new)>(rings: map<K, seq<string>>, uses: seq<Use<K>>, passes: seq<Pass<K>>, k: K, a: nat, b: nat)
    requires Fits(rings, passes) && k in rings && a < |rings[k]| && b < |rings[k]|
    requires StaysRecent(rings, uses, passes, k)
    requires forall i :: 0 <= i < |passes| && passes[i].key == k ==> passes[i].batch.Even(|rings[k]|)
    ensures var t := Placements(rings, uses, passes, k);
            && t == WorkerRing.Walk(Start(rings[k], LastWorker(uses, k)), Jobs(BatchesOf(passes, k)), |rings[k]|)
            && WorkerRing.Count(t, a) <= WorkerRing.Count(t, b) + 1
  {
    OthersDoNotMatter(rings, uses, passes, k);
    BatchesEven(|rings[k]|, passes, k);
    RunWalks(rings[k], LastWorker(uses, k), BatchesOf(passes, k));
    RunFair(rings[k], LastWorker(uses, k), BatchesOf(passes, k), a, b);
  }

  /** And one that has been forgotten starts over, as if it had never been served. */
  lemma ForgottenStartsOver<K(!new)>(ids: seq<string>, uses: seq<Use<K>>, p: Pass<K>)
    requires ids != [] && Ascending(ids) && |p.batch.caps| == |ids|
    requires !Recent(uses, p.key)
    ensures Targets(ids, uses, p) == Targets(ids, [], p)
  {
    HeldIffRecent(uses, p.key);
  }
}
