/** frontend/src/views/PipelineView.tsx, `layout`: longest-path layering of a pipeline's jobs. */
module PipelineLayout {

  type Id = string

  datatype Edge = Edge(upstream: Id, downstream: Id)

  datatype Position = Position(x: int, y: int)

  const LEVEL_WIDTH := 240
  const ROW_HEIGHT := 90

  // ---------------------------------------------------------------- walks

  /** A nonempty sequence of nodes in which every step is an edge. */
  ghost predicate IsWalk(edges: seq<Edge>, p: seq<Id>) {
    |p| > 0 && forall i :: 0 <= i < |p| - 1 ==> Edge(p[i], p[i + 1]) in edges
  }

  ghost predicate WalkTo(edges: seq<Edge>, p: seq<Id>, v: Id) {
    IsWalk(edges, p) && p[|p| - 1] == v
  }

  ghost predicate Acyclic(edges: seq<Edge>) {
    forall p :: IsWalk(edges, p) && |p| > 1 ==> p[0] != p[|p| - 1]
  }

  ghost predicate Listed(edges: seq<Edge>, jobIds: seq<Id>) {
    forall e :: e in edges ==> e.upstream in jobIds && e.downstream in jobIds
  }

  /** `d` is the number of edges on a longest walk ending at `v`. */
  ghost predicate IsLongest(edges: seq<Edge>, v: Id, d: int) {
    && (exists p :: WalkTo(edges, p, v) && |p| - 1 == d)
    && (forall p :: WalkTo(edges, p, v) ==> |p| - 1 <= d)
  }

  lemma SubWalk(edges: seq<Edge>, p: seq<Id>, i: nat, j: nat)
    requires IsWalk(edges, p) && i < j <= |p|
    ensures IsWalk(edges, p[i..j])
  {
  }

  /** Without cycles a walk meets no node twice, so it is no longer than the list of jobs. */
  lemma WalkIsShort(edges: seq<Edge>, jobIds: seq<Id>, p: seq<Id>)
    requires Acyclic(edges) && Listed(edges, jobIds) && IsWalk(edges, p)
    requires |p| > 1
    ensures |p| <= |jobIds|
  {
    forall i, j | 0 <= i < j < |p|
      ensures p[i] != p[j]
    {
      SubWalk(edges, p, i, j + 1);
      assert p[i..j + 1][0] == p[i] && p[i..j + 1][|p[i..j + 1]| - 1] == p[j];
    }
    forall i | 0 <= i < |p|
      ensures p[i] in jobIds
    {
      if i > 0 { assert Edge(p[i - 1], p[i]) in edges; } else { assert Edge(p[0], p[1]) in edges; }
    }
    DistinctIsShort(p, jobIds);
  }

  lemma {:induction false} DistinctIsShort(p: seq<Id>, ids: seq<Id>)
    requires forall i, j :: 0 <= i < j < |p| ==> p[i] != p[j]
    requires forall i :: 0 <= i < |p| ==> p[i] in ids
    ensures |p| <= |ids|
    decreases |p|
  {
    if p != [] {
      var last := p[|p| - 1];
      var k :| 0 <= k < |ids| && ids[k] == last;
      var rest := ids[..k] + ids[k + 1..];
      var shorter := p[..|p| - 1];
      forall i | 0 <= i < |shorter|
        ensures shorter[i] in rest
      {
        var m :| 0 <= m < |ids| && ids[m] == shorter[i];
        assert m != k;
        assert rest[if m < k then m else m - 1] == shorter[i];
      }
      DistinctIsShort(shorter, rest);
    }
  }

  // ---------------------------------------------------------------- the depths

  /** `d ?? 0` of a map lookup. */
  function At(depth: map<Id, int>, v: Id): int {
    if v in depth then depth[v] else 0
  }

  /** Every depth is the length of some walk. */
  ghost predicate Realised(edges: seq<Edge>, depth: map<Id, int>) {
    forall v :: v in depth ==> exists p :: WalkTo(edges, p, v) && |p| - 1 == depth[v]
  }

  /** Every walk of at most `k` edges is covered by the depth of its end. */
  ghost predicate Covered(edges: seq<Edge>, depth: map<Id, int>, k: int) {
    forall p :: IsWalk(edges, p) && |p| - 1 <= k ==> |p| - 1 <= At(depth, p[|p| - 1])
  }

  ghost predicate EndsWithin(p: seq<Id>, k: int, last: seq<Edge>) {
    1 < |p| <= k + 2 && Edge(p[|p| - 2], p[|p| - 1]) in last
  }

  /** The same for walks of at most `k + 1` edges whose last edge is among the first `n`. */
  ghost predicate CoveredBy(edges: seq<Edge>, depth: map<Id, int>, k: int, n: nat)
    requires n <= |edges|
  {
    forall p | IsWalk(edges, p) && EndsWithin(p, k, edges[..n]) :: |p| - 1 <= At(depth, p[|p| - 1])
  }

  /** Even a cycle cannot push a depth past one step per relaxation. */
  predicate Capped(depth: map<Id, int>, cap: int) {
    cap >= 0 && forall v :: v in depth ==> 0 <= depth[v] <= cap
  }

  /** One edge relaxed. */
  function Relax(depth: map<Id, int>, e: Edge): (r: map<Id, int>)
    ensures r.Keys == depth.Keys || r.Keys == depth.Keys + {e.downstream}
    ensures forall v :: At(depth, v) <= At(r, v)
    ensures At(depth, e.upstream) + 1 <= At(r, e.downstream)
  {
    var d := At(depth, e.upstream) + 1;
    if d > At(depth, e.downstream) then depth[e.downstream := d] else depth
  }

  lemma RelaxRealised(edges: seq<Edge>, depth: map<Id, int>, e: Edge)
    requires e in edges && Realised(edges, depth)
    ensures Realised(edges, Relax(depth, e))
  {
    var u, v := e.upstream, e.downstream;
    var p: seq<Id>;
    if u in depth {
      p :| WalkTo(edges, p, u) && |p| - 1 == depth[u];
    } else {
      p := [u];
    }
    assert IsWalk(edges, p) && p[|p| - 1] == u && |p| - 1 == At(depth, u);
    var q := p + [v];
    assert WalkTo(edges, q, v);
    assert |q| - 1 == At(depth, u) + 1;
  }

  lemma RelaxCovers(edges: seq<Edge>, depth: map<Id, int>, k: int, n: nat)
    requires n < |edges| && k >= 0
    requires Covered(edges, depth, k) && CoveredBy(edges, depth, k, n)
    ensures Covered(edges, Relax(depth, edges[n]), k)
    ensures CoveredBy(edges, Relax(depth, edges[n]), k, n + 1)
  {
    var r := Relax(depth, edges[n]);
    forall p | IsWalk(edges, p) && EndsWithin(p, k, edges[..n + 1])
      ensures |p| - 1 <= At(r, p[|p| - 1])
    {
      RelaxCoversWalk(edges, depth, k, n, p);
    }
  }

  lemma RelaxCoversWalk(edges: seq<Edge>, depth: map<Id, int>, k: int, n: nat, p: seq<Id>)
    requires n < |edges| && k >= 0
    requires Covered(edges, depth, k) && CoveredBy(edges, depth, k, n)
    requires IsWalk(edges, p) && EndsWithin(p, k, edges[..n + 1])
    ensures |p| - 1 <= At(Relax(depth, edges[n]), p[|p| - 1])
  {
    var last := Edge(p[|p| - 2], p[|p| - 1]);
    if last in edges[..n] {
      assert EndsWithin(p, k, edges[..n]);
    } else {
      assert edges[..n + 1] == edges[..n] + [edges[n]];
      assert last == edges[n];
      var q := p[..|p| - 1];
      assert IsWalk(edges, q);
      assert |q| - 1 <= At(depth, q[|q| - 1]);
    }
  }

  lemma PassCovers(edges: seq<Edge>, depth: map<Id, int>, k: int)
    requires k >= 0 && Covered(edges, depth, k) && CoveredBy(edges, depth, k, |edges|)
    ensures Covered(edges, depth, k + 1)
  {
  }

  lemma StartCovers(edges: seq<Edge>, depth: map<Id, int>)
    requires forall v :: v in depth ==> depth[v] == 0
    ensures Covered(edges, depth, 0) && Realised(edges, depth)
  {
    forall v | v in depth
      ensures exists p :: WalkTo(edges, p, v) && |p| - 1 == depth[v]
    {
      assert WalkTo(edges, [v], v);
    }
  }

  // ---------------------------------------------------------------- the rows

  /** How many of the first `n` jobs lie on level `lvl`. */
  function Row(jobIds: seq<Id>, depth: map<Id, int>, lvl: int, n: nat): (c: nat)
    requires n <= |jobIds|
  {
    if n == 0 then 0
    else Row(jobIds, depth, lvl, n - 1) + (if At(depth, jobIds[n - 1]) == lvl then 1 else 0)
  }

  lemma RowsDiffer(jobIds: seq<Id>, depth: map<Id, int>, lvl: int, m: nat, n: nat)
    requires m < n <= |jobIds|
    requires At(depth, jobIds[m]) == lvl
    ensures Row(jobIds, depth, lvl, m) < Row(jobIds, depth, lvl, n)
  {
  }

  // ---------------------------------------------------------------- the layout

  ghost predicate LastIndex(jobIds: seq<Id>, v: Id, i: int) {
    0 <= i < |jobIds| && jobIds[i] == v && v !in jobIds[i + 1..]
  }

  /** The inner loop: one pass over the edges. */
  method RelaxAll(jobIds: seq<Id>, edges: seq<Edge>, start: map<Id, int>, i: nat) returns (depth: map<Id, int>)
    requires Realised(edges, start) && Covered(edges, start, i) && Capped(start, i * |edges|)
    requires forall v :: v in jobIds ==> v in start
    ensures Realised(edges, depth) && Covered(edges, depth, i + 1) && Capped(depth, (i + 1) * |edges|)
    ensures forall v :: v in jobIds ==> v in depth
  {
    depth := start;
    for n := 0 to |edges|
      invariant Realised(edges, depth)
      invariant Covered(edges, depth, i) && CoveredBy(edges, depth, i, n)
      invariant forall v :: v in jobIds ==> v in depth
      invariant Capped(depth, i * |edges| + n)
    {
      RelaxRealised(edges, depth, edges[n]);
      RelaxCovers(edges, depth, i, n);
      ghost var r := Relax(depth, edges[n]);
      var d := At(depth, edges[n].upstream) + 1;
      if d > At(depth, edges[n].downstream) {
        depth := depth[edges[n].downstream := d];
      }
      assert depth == r;
    }
    PassCovers(edges, depth, i);
    assert i * |edges| + |edges| == (i + 1) * |edges|;
  }

  /** The depth map the relaxation ends with: sound and complete for walks of up to |V| edges. */
  method Depths(jobIds: seq<Id>, edges: seq<Edge>) returns (depth: map<Id, int>)
    ensures Realised(edges, depth)
    ensures Covered(edges, depth, |jobIds|)
    ensures forall v :: v in jobIds ==> v in depth
    ensures Capped(depth, |jobIds| * |edges|)
  {
    depth := map[];
    for k := 0 to |jobIds|
      invariant forall v :: v in depth ==> depth[v] == 0
      invariant forall j :: 0 <= j < k ==> jobIds[j] in depth
    {
      depth := depth[jobIds[k] := 0];
    }
    StartCovers(edges, depth);
    for i := 0 to |jobIds|
      invariant Realised(edges, depth)
      invariant Covered(edges, depth, i)
      invariant forall v :: v in jobIds ==> v in depth
      invariant Capped(depth, i * |edges|)
    {
      depth := RelaxAll(jobIds, edges, depth, i);
    }
  }

  function Spot(jobIds: seq<Id>, depth: map<Id, int>, i: nat): Position
    requires i < |jobIds|
  {
    var lvl := At(depth, jobIds[i]);
    Position(lvl * LEVEL_WIDTH, Row(jobIds, depth, lvl, i) * ROW_HEIGHT)
  }

  /** Every job among the first `n` is drawn at its level, in the row its last mention gives it. */
  ghost predicate Drawn(jobIds: seq<Id>, depth: map<Id, int>, pos: map<Id, Position>, n: nat)
    requires n <= |jobIds|
  {
    && (forall v :: v in pos <==> v in jobIds[..n])
    && (forall v, i :: LastIndex(jobIds[..n], v, i) ==> v in pos && pos[v] == Spot(jobIds, depth, i))
  }

  lemma DrawnStep(jobIds: seq<Id>, depth: map<Id, int>, pos: map<Id, Position>, n: nat, pos': map<Id, Position>)
    requires n < |jobIds| && Drawn(jobIds, depth, pos, n)
    requires pos' == pos[jobIds[n] := Spot(jobIds, depth, n)]
    ensures Drawn(jobIds, depth, pos', n + 1)
  {
    assert jobIds[..n + 1] == jobIds[..n] + [jobIds[n]];
    forall v, i | LastIndex(jobIds[..n + 1], v, i)
      ensures v in pos' && pos'[v] == Spot(jobIds, depth, i)
    {
      LastIndexStep(jobIds, n, v, i);
    }
  }

  method Layout(jobIds: seq<Id>, edges: seq<Edge>) returns (pos: map<Id, Position>, ghost depth: map<Id, int>)
    ensures Realised(edges, depth) && Covered(edges, depth, |jobIds|)
    ensures forall v :: v in jobIds ==> v in depth
    ensures Drawn(jobIds, depth, pos, |jobIds|)
    ensures forall v, w :: v in jobIds && w in jobIds && v != w ==> v in pos && w in pos && pos[v] != pos[w]
    ensures Listed(edges, jobIds) ==> (PointsRight(edges, pos) <==> Acyclic(edges))
  {
    var d := Depths(jobIds, edges);
    depth := d;
    var perLevel: map<int, int> := map[];
    pos := map[];
    for n := 0 to |jobIds|
      invariant forall lvl :: (if lvl in perLevel then perLevel[lvl] else 0) == Row(jobIds, d, lvl, n)
      invariant Drawn(jobIds, d, pos, n)
    {
      var lvl := At(d, jobIds[n]);
      var col := if lvl in perLevel then perLevel[lvl] else 0;
      perLevel := perLevel[lvl := col + 1];
      ghost var before := pos;
      pos := pos[jobIds[n] := Position(lvl * LEVEL_WIDTH, col * ROW_HEIGHT)];
      DrawnStep(jobIds, d, before, n, pos);
    }
    PositionsDiffer(jobIds, d, pos);
    if Listed(edges, jobIds) { PointsRightIffAcyclic(jobIds, edges, d, pos); }
  }

  lemma LastIndexStep(jobIds: seq<Id>, n: nat, v: Id, i: int)
    requires n < |jobIds| && LastIndex(jobIds[..n + 1], v, i)
    ensures v == jobIds[n] ==> i == n
    ensures v != jobIds[n] ==> LastIndex(jobIds[..n], v, i)
  {
  }

  lemma HasLastIndex(jobIds: seq<Id>, v: Id) returns (i: int)
    requires v in jobIds
    ensures LastIndex(jobIds, v, i)
  {
    i := |jobIds| - 1;
    while jobIds[i] != v
      invariant 0 <= i < |jobIds|
      invariant v !in jobIds[i + 1..]
      decreases i
    {
      assert jobIds[i..] == [jobIds[i]] + jobIds[i + 1..];
      assert jobIds == jobIds[..i] + jobIds[i..];
      i := i - 1;
    }
  }

  // ---------------------------------------------------------------- what the picture shows

  /** On an acyclic edge set over the listed jobs every depth is a longest path. */
  lemma DepthIsLongest(jobIds: seq<Id>, edges: seq<Edge>, depth: map<Id, int>, v: Id)
    requires Realised(edges, depth) && Covered(edges, depth, |jobIds|)
    requires Acyclic(edges) && Listed(edges, jobIds) && v in depth
    ensures IsLongest(edges, v, depth[v])
  {
    forall p | WalkTo(edges, p, v)
      ensures |p| - 1 <= depth[v]
    {
      if |p| > 1 { WalkIsShort(edges, jobIds, p); }
    }
  }

  /** All edges point to a strictly deeper level exactly when the edges have no cycle. */
  lemma DeeperIffAcyclic(jobIds: seq<Id>, edges: seq<Edge>, depth: map<Id, int>)
    requires Realised(edges, depth) && Covered(edges, depth, |jobIds|)
    requires Listed(edges, jobIds) && forall v :: v in jobIds ==> v in depth
    ensures (forall e :: e in edges ==> depth[e.upstream] < depth[e.downstream]) <==> Acyclic(edges)
  {
    if Acyclic(edges) {
      forall e | e in edges
        ensures depth[e.upstream] < depth[e.downstream]
      {
        var p :| WalkTo(edges, p, e.upstream) && |p| - 1 == depth[e.upstream];
        var q := p + [e.downstream];
        assert WalkTo(edges, q, e.downstream);
        DepthIsLongest(jobIds, edges, depth, e.downstream);
      }
    }
    if forall e :: e in edges ==> depth[e.upstream] < depth[e.downstream] {
      forall p | IsWalk(edges, p) && |p| > 1
        ensures p[0] != p[|p| - 1]
      {
        WalkDeepens(edges, depth, p);
      }
    }
  }

  lemma {:induction false} WalkDeepens(edges: seq<Edge>, depth: map<Id, int>, p: seq<Id>)
    requires IsWalk(edges, p) && |p| > 1
    requires forall e :: e in edges ==> e.upstream in depth && e.downstream in depth
                                        && depth[e.upstream] < depth[e.downstream]
    ensures p[0] in depth && p[|p| - 1] in depth && depth[p[0]] < depth[p[|p| - 1]]
    decreases |p|
  {
    assert Edge(p[|p| - 2], p[|p| - 1]) in edges;
    if |p| > 2 {
      var q := p[..|p| - 1];
      assert IsWalk(edges, q) && q[0] == p[0] && q[|q| - 1] == p[|p| - 2];
      WalkDeepens(edges, depth, q);
    }
  }

  /** Every edge is drawn from left to right. */
  ghost predicate PointsRight(edges: seq<Edge>, pos: map<Id, Position>) {
    forall e :: e in edges ==> e.upstream in pos && e.downstream in pos && pos[e.upstream].x < pos[e.downstream].x
  }

  lemma DrawnX(jobIds: seq<Id>, depth: map<Id, int>, pos: map<Id, Position>, v: Id)
    requires Drawn(jobIds, depth, pos, |jobIds|) && v in jobIds
    ensures v in pos && pos[v].x == At(depth, v) * LEVEL_WIDTH
  {
    assert jobIds[..|jobIds|] == jobIds;
    var i := HasLastIndex(jobIds, v);
    assert pos[v] == Spot(jobIds, depth, i);
  }

  lemma PointsRightIffAcyclic(jobIds: seq<Id>, edges: seq<Edge>, depth: map<Id, int>, pos: map<Id, Position>)
    requires Realised(edges, depth) && Covered(edges, depth, |jobIds|)
    requires Listed(edges, jobIds) && forall v :: v in jobIds ==> v in depth
    requires Drawn(jobIds, depth, pos, |jobIds|)
    ensures PointsRight(edges, pos) <==> Acyclic(edges)
  {
    DeeperIffAcyclic(jobIds, edges, depth);
    forall v | v in jobIds
      ensures v in pos && pos[v].x == depth[v] * LEVEL_WIDTH
    {
      DrawnX(jobIds, depth, pos, v);
    }
  }

  /** No two jobs are drawn in the same place, whatever the edges. */
  lemma PositionsDiffer(jobIds: seq<Id>, depth: map<Id, int>, pos: map<Id, Position>)
    requires Drawn(jobIds, depth, pos, |jobIds|)
    ensures forall v, w :: v in jobIds && w in jobIds && v != w ==> v in pos && w in pos && pos[v] != pos[w]
  {
    assert jobIds[..|jobIds|] == jobIds;
    forall v, w | v in jobIds && w in jobIds && v != w
      ensures v in pos && w in pos && pos[v] != pos[w]
    {
      var i := HasLastIndex(jobIds, v);
      var j := HasLastIndex(jobIds, w);
      assert pos[v] == Spot(jobIds, depth, i) && pos[w] == Spot(jobIds, depth, j);
      if At(depth, v) == At(depth, w) {
        RowsDiffer(jobIds, depth, At(depth, v), if i < j then i else j, if i < j then j else i);
      }
    }
  }
}
