/** Walks through an adjacency map, their weights, and the facts about
    relaxed cost maps that the shortest-path searches rely on. */
module Paths {
  import opened Grid

  /** adj[u], or no neighbour when u has no entry. */
  function Succ(adj: map<Pos, seq<Pos>>, u: Pos): seq<Pos> {
    if u in adj then adj[u] else []
  }

  /** Every listed neighbour is a board cell. */
  ghost predicate AdjInGrid(adj: map<Pos, seq<Pos>>) {
    forall u | u in adj :: forall v | v in adj[u] :: InGrid(v)
  }

  /** A graph of the whole board: an entry for every cell, every listed
      neighbour a board cell. */
  ghost predicate BoardGraphOk(adj: map<Pos, seq<Pos>>) {
    AdjInGrid(adj) && forall i | 0 <= i < Dim :: PosOf(i) in adj
  }

  lemma BoardGraphCovers(adj: map<Pos, seq<Pos>>)
    requires BoardGraphOk(adj)
    ensures forall p | InGrid(p) :: p in adj
  {
    forall p | InGrid(p) ensures p in adj {
      IndexRoundTrip(p);
    }
  }

  /** Step i of W follows adj into an allowed cell. */
  ghost predicate StepAt(adj: map<Pos, seq<Pos>>, allowed: Pos -> bool, W: seq<Pos>, i: int) {
    0 <= i < |W| - 1 && W[i + 1] in Succ(adj, W[i]) && allowed(W[i + 1])
  }

  /** W follows adj, and every cell it steps into is allowed. */
  ghost predicate IsWalk(adj: map<Pos, seq<Pos>>, allowed: Pos -> bool, W: seq<Pos>) {
    |W| >= 1 && forall i | 0 <= i < |W| - 1 :: StepAt(adj, allowed, W, i)
  }

  ghost predicate WalkFromTo(adj: map<Pos, seq<Pos>>, allowed: Pos -> bool, W: seq<Pos>, s: Pos, t: Pos) {
    IsWalk(adj, allowed, W) && W[0] == s && W[|W| - 1] == t
  }

  /** Every cell may be entered. */
  function AnyCell(p: Pos): bool {
    true
  }

  ghost predicate Positive(w: Pos -> int) {
    forall p :: w(p) >= 1
  }

  /** The weight of a walk: the weight of every cell it steps into. */
  function Weight(w: Pos -> int, W: seq<Pos>): int
    decreases |W|
  {
    if |W| <= 1 then 0 else w(W[1]) + Weight(w, W[1..])
  }

  lemma {:induction false} WeightSnoc(w: Pos -> int, W: seq<Pos>, v: Pos)
    requires |W| >= 1
    ensures Weight(w, W + [v]) == Weight(w, W) + w(v)
    decreases |W|
  {
    if |W| > 1 {
      assert (W + [v])[1..] == W[1..] + [v];
      WeightSnoc(w, W[1..], v);
    }
  }

  lemma {:induction false} WeightNonNegative(w: Pos -> int, W: seq<Pos>)
    requires Positive(w)
    ensures Weight(w, W) >= |W| - 1
    decreases |W|
  {
    if |W| > 1 {
      WeightNonNegative(w, W[1..]);
    }
  }

  /** A prefix of a walk weighs no more than the walk. */
  lemma {:induction false} WeightPrefix(w: Pos -> int, W: seq<Pos>, k: int)
    requires Positive(w)
    requires 1 <= k <= |W|
    ensures Weight(w, W[..k]) <= Weight(w, W)
    decreases |W|
  {
    if k == 1 {
      assert Weight(w, W[..k]) == 0;
      WeightNonNegative(w, W);
    } else if k < |W| {
      assert W[..k][1..] == W[1..][..k - 1];
      WeightPrefix(w, W[1..], k - 1);
      assert Weight(w, W[..k]) == w(W[1]) + Weight(w, W[1..][..k - 1]);
    } else {
      assert W[..k] == W;
    }
  }

  /** Each step of a walk is again a walk, as is every prefix. */
  lemma WalkPrefix(adj: map<Pos, seq<Pos>>, allowed: Pos -> bool, W: seq<Pos>, k: int)
    requires IsWalk(adj, allowed, W)
    requires 1 <= k <= |W|
    ensures IsWalk(adj, allowed, W[..k])
  {
    forall i | 0 <= i < k - 1
      ensures StepAt(adj, allowed, W[..k], i)
    {
      assert StepAt(adj, allowed, W, i);
    }
  }

  /** An allowed successor of its last cell extends a walk by one step. */
  lemma WalkSnoc(adj: map<Pos, seq<Pos>>, allowed: Pos -> bool, W: seq<Pos>, v: Pos)
    requires IsWalk(adj, allowed, W)
    requires v in Succ(adj, W[|W| - 1]) && allowed(v)
    ensures IsWalk(adj, allowed, W + [v])
  {
    var V := W + [v];
    forall i | 0 <= i < |V| - 1
      ensures StepAt(adj, allowed, V, i)
    {
      if i < |W| - 1 {
        assert StepAt(adj, allowed, W, i);
      }
    }
  }

  /** Putting an allowed predecessor in front of a walk extends it by one step. */
  lemma WalkCons(adj: map<Pos, seq<Pos>>, allowed: Pos -> bool, w: Pos -> int, u: Pos, W: seq<Pos>)
    requires IsWalk(adj, allowed, W)
    requires W[0] in Succ(adj, u) && allowed(W[0])
    ensures IsWalk(adj, allowed, [u] + W)
    ensures Weight(w, [u] + W) == w(W[0]) + Weight(w, W)
  {
    var V := [u] + W;
    assert V[1..] == W;
    forall i | 0 <= i < |V| - 1
      ensures StepAt(adj, allowed, V, i)
    {
      if i > 0 {
        assert StepAt(adj, allowed, W, i - 1);
      }
    }
  }

  /** u's allowed neighbours all carry a cost no larger than cost[u] plus the
      weight of entering them (u has been expanded with its current cost). */
  ghost predicate Relaxed(adj: map<Pos, seq<Pos>>, allowed: Pos -> bool, w: Pos -> int, cost: map<Pos, int>, u: Pos) {
    u in cost && forall v | v in Succ(adj, u) && allowed(v) :: v in cost && cost[v] <= cost[u] + w(v)
  }

  /** Along a walk whose first k cells are relaxed, the cost of cell k is at
      most the start cost plus the weight of the prefix. */
  lemma {:induction false} RelaxedPrefixBound(adj: map<Pos, seq<Pos>>, allowed: Pos -> bool, w: Pos -> int,
                                           cost: map<Pos, int>, W: seq<Pos>, k: int)
    requires IsWalk(adj, allowed, W)
    requires 0 <= k < |W| && W[0] in cost
    requires forall j | 0 <= j < k :: Relaxed(adj, allowed, w, cost, W[j])
    ensures W[k] in cost && cost[W[k]] <= cost[W[0]] + Weight(w, W[..k + 1])
  {
    if k > 0 {
      RelaxedPrefixBound(adj, allowed, w, cost, W, k - 1);
      assert Relaxed(adj, allowed, w, cost, W[k - 1]);
      assert StepAt(adj, allowed, W, k - 1);
      assert W[..k + 1] == W[..k] + [W[k]];
      WeightSnoc(w, W[..k], W[k]);
    }
  }

  /** When every key is relaxed, each walk from `source` ends at a key whose
      cost is at most the start cost plus the weight of the walk. */
  lemma AllRelaxedBound(adj: map<Pos, seq<Pos>>, allowed: Pos -> bool, w: Pos -> int,
                        cost: map<Pos, int>, source: Pos, W: seq<Pos>)
    requires forall v | v in cost :: Relaxed(adj, allowed, w, cost, v)
    requires IsWalk(adj, allowed, W) && W[0] == source && source in cost
    ensures W[|W| - 1] in cost && cost[W[|W| - 1]] <= cost[source] + Weight(w, W)
  {
    ClosedContainsWalk(adj, allowed, cost.Keys, W);
    forall j | 0 <= j < |W| - 1
      ensures Relaxed(adj, allowed, w, cost, W[j])
    {
      assert W[j] in cost.Keys;
    }
    RelaxedPrefixBound(adj, allowed, w, cost, W, |W| - 1);
    assert W[..|W|] == W;
  }

  /** came_from records, for every reached cell but the source, a reached
      predecessor that is adjacent and strictly cheaper by the step weight. */
  ghost predicate ParentsOk(adj: map<Pos, seq<Pos>>, allowed: Pos -> bool, w: Pos -> int,
                            source: Pos, cost: map<Pos, int>, cameFrom: map<Pos, Pos>) {
    source in cost && cameFrom.Keys == cost.Keys && cameFrom[source] == source &&
    forall v | v in cost && v != source ::
      cameFrom[v] in cost && v in Succ(adj, cameFrom[v]) && allowed(v) && cost[cameFrom[v]] + w(v) <= cost[v]
  }

  /** Following came_from back from a reached cell yields a walk from the
      source that weighs no more than the cost difference. */
  lemma {:induction false} ParentChainWalk(adj: map<Pos, seq<Pos>>, allowed: Pos -> bool, w: Pos -> int,
                                           source: Pos, cost: map<Pos, int>, cameFrom: map<Pos, Pos>, v: Pos)
    returns (W: seq<Pos>)
    requires ParentsOk(adj, allowed, w, source, cost, cameFrom)
    requires Positive(w) && forall u | u in cost :: cost[u] >= 0
    requires v in cost
    ensures WalkFromTo(adj, allowed, W, source, v)
    ensures cost[source] + Weight(w, W) <= cost[v]
    decreases cost[v]
  {
    if v == source {
      W := [source];
    } else {
      var u := cameFrom[v];
      var U := ParentChainWalk(adj, allowed, w, source, cost, cameFrom, u);
      W := U + [v];
      WeightSnoc(w, U, v);
      WalkSnoc(adj, allowed, U, v);
    }
  }

  /** Lowering the cost of v (or reaching it) along the edge from u keeps the
      parent record sound when v takes u as its parent. */
  lemma ParentsOkUpdate(adj: map<Pos, seq<Pos>>, allowed: Pos -> bool, w: Pos -> int,
                        source: Pos, cost: map<Pos, int>, cameFrom: map<Pos, Pos>, u: Pos, v: Pos, c: int)
    requires ParentsOk(adj, allowed, w, source, cost, cameFrom)
    requires u in cost && v in Succ(adj, u) && allowed(v) && v != source && v != u
    requires c == cost[u] + w(v)
    requires v in cost ==> c < cost[v]
    ensures ParentsOk(adj, allowed, w, source, cost[v := c], cameFrom[v := u])
  {
    var cost', cameFrom' := cost[v := c], cameFrom[v := u];
    forall x | x in cost' && x != source
      ensures cameFrom'[x] in cost' && x in Succ(adj, cameFrom'[x]) && allowed(x) && cost'[cameFrom'[x]] + w(x) <= cost'[x]
    {
      if x != v {
        assert cameFrom'[x] == cameFrom[x];
      }
    }
  }

  /** A relaxed cell stays relaxed when some other cell's cost is lowered or
      first set. */
  lemma RelaxedAfterUpdate(adj: map<Pos, seq<Pos>>, allowed: Pos -> bool, w: Pos -> int,
                           cost: map<Pos, int>, u: Pos, v: Pos, c: int)
    requires Relaxed(adj, allowed, w, cost, u)
    requires u != v && (v in cost ==> c < cost[v])
    ensures Relaxed(adj, allowed, w, cost[v := c], u)
  {
  }

  /** Every cell but `forbidden` may be entered. */
  function Avoiding(forbidden: Pos): Pos -> bool {
    p => p != forbidden
  }

  /** t can be reached from s by a walk entering only allowed cells. */
  ghost predicate Reachable(adj: map<Pos, seq<Pos>>, allowed: Pos -> bool, s: Pos, t: Pos) {
    exists W :: WalkFromTo(adj, allowed, W, s, t)
  }

  lemma ReachableSelf(adj: map<Pos, seq<Pos>>, allowed: Pos -> bool, s: Pos)
    ensures Reachable(adj, allowed, s, s)
  {
    assert WalkFromTo(adj, allowed, [s], s, s);
  }

  /** One more allowed step extends reachability. */
  lemma ReachableStep(adj: map<Pos, seq<Pos>>, allowed: Pos -> bool, s: Pos, u: Pos, v: Pos)
    requires Reachable(adj, allowed, s, u)
    requires v in Succ(adj, u) && allowed(v)
    ensures Reachable(adj, allowed, s, v)
  {
    var W :| WalkFromTo(adj, allowed, W, s, u);
    WalkSnoc(adj, allowed, W, v);
    assert WalkFromTo(adj, allowed, W + [v], s, v);
  }

  /** S contains every allowed neighbour of each of its cells. */
  ghost predicate Closed(adj: map<Pos, seq<Pos>>, allowed: Pos -> bool, S: set<Pos>) {
    forall u | u in S :: forall v | v in Succ(adj, u) && allowed(v) :: v in S
  }

  /** A walk that starts in a closed set never leaves it. */
  lemma {:induction false} ClosedContainsWalk(adj: map<Pos, seq<Pos>>, allowed: Pos -> bool, S: set<Pos>, W: seq<Pos>)
    requires Closed(adj, allowed, S)
    requires IsWalk(adj, allowed, W) && W[0] in S
    ensures forall i | 0 <= i < |W| :: W[i] in S
    decreases |W|
  {
    if |W| > 1 {
      WalkPrefix(adj, allowed, W, |W| - 1);
      ClosedContainsWalk(adj, allowed, S, W[..|W| - 1]);
      assert W[|W| - 2] in S;
      assert StepAt(adj, allowed, W, |W| - 2);
    }
  }

  /** A closed set that holds s but not t cuts t off from s. */
  lemma ClosedSeparates(adj: map<Pos, seq<Pos>>, allowed: Pos -> bool, S: set<Pos>, s: Pos, t: Pos)
    requires Closed(adj, allowed, S) && s in S && t !in S
    ensures !Reachable(adj, allowed, s, t)
  {
    if Reachable(adj, allowed, s, t) {
      var W :| WalkFromTo(adj, allowed, W, s, t);
      ClosedContainsWalk(adj, allowed, S, W);
    }
  }

  /** Reachability composes. */
  lemma ReachableTrans(adj: map<Pos, seq<Pos>>, allowed: Pos -> bool, a: Pos, b: Pos, c: Pos)
    requires Reachable(adj, allowed, a, b) && Reachable(adj, allowed, b, c)
    ensures Reachable(adj, allowed, a, c)
  {
    var W1 :| WalkFromTo(adj, allowed, W1, a, b);
    var W2 :| WalkFromTo(adj, allowed, W2, b, c);
    var V := W1 + W2[1..];
    assert IsWalk(adj, allowed, V) by {
      forall i | 0 <= i < |V| - 1
        ensures StepAt(adj, allowed, V, i)
      {
        if i < |W1| - 1 {
          assert StepAt(adj, allowed, W1, i);
        } else {
          assert StepAt(adj, allowed, W2, i - |W1| + 1);
        }
      }
    }
    assert WalkFromTo(adj, allowed, V, a, c);
  }

  /** Allowing more cells keeps every walk a walk. */
  lemma ReachableMono(adj: map<Pos, seq<Pos>>, allowed: Pos -> bool, wider: Pos -> bool, a: Pos, b: Pos)
    requires Reachable(adj, allowed, a, b)
    requires forall p :: allowed(p) ==> wider(p)
    ensures Reachable(adj, wider, a, b)
  {
    var W :| WalkFromTo(adj, allowed, W, a, b);
    assert IsWalk(adj, wider, W) by {
      forall i | 0 <= i < |W| - 1
        ensures StepAt(adj, wider, W, i)
      {
        assert StepAt(adj, allowed, W, i);
      }
    }
    assert WalkFromTo(adj, wider, W, a, b);
  }

  /** Every listed edge is listed in both directions. */
  ghost predicate Symmetric(adj: map<Pos, seq<Pos>>) {
    forall u | u in adj :: forall v | v in adj[u] :: v in adj && u in adj[v]
  }

  /** In an undirected graph a walk can be run backwards, as long as the
      cell it started from may be entered. */
  lemma ReachableReverse(adj: map<Pos, seq<Pos>>, allowed: Pos -> bool, a: Pos, b: Pos)
    requires Symmetric(adj)
    requires Reachable(adj, allowed, a, b) && allowed(a)
    ensures Reachable(adj, allowed, b, a)
  {
    var W :| WalkFromTo(adj, allowed, W, a, b);
    var n := |W|;
    var R := seq(n, i requires 0 <= i < n => W[n - 1 - i]);
    assert IsWalk(adj, allowed, R) by {
      forall i | 0 <= i < n - 1
        ensures StepAt(adj, allowed, R, i)
      {
        var j := n - 2 - i;
        assert StepAt(adj, allowed, W, j);
        assert R[i] == W[j + 1] && R[i + 1] == W[j];
        assert W[j] in adj;
        if j == 0 {
          assert allowed(W[j]);
        } else {
          assert StepAt(adj, allowed, W, j - 1);
        }
      }
    }
    assert WalkFromTo(adj, allowed, R, b, a);
  }
}
