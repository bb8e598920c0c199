/** The lazy Dijkstra searches of the bot: the router that moves a unit
    towards its objective (dijkstra, reconstruct_path) and the two
    chain-kill searches that price a line of freshly trained units from the
    enemy HQ (dijkstra_chainkill_all_costs, dijkstra_chainkill_path).
    All three run over an adjacency map with a per-cell entry weight; the
    chain-kill ones also refuse to step into cells the agent already owns. */
module Search {
  import opened Grid
  import opened Wrappers
  import opened Paths
  import opened PriorityQueues

  /** The weight of a cost map: the sum of the costs of its grid keys. It
      shrinks whenever a cost is lowered, which is what makes the lazy
      searches terminate. */
  function CostAt(cost: map<Pos, int>, p: Pos): int {
    if p in cost then cost[p] else 0
  }

  function CostSumUpTo(cost: map<Pos, int>, n: nat): int
    decreases n
  {
    if n == 0 then 0 else CostSumUpTo(cost, n - 1) + CostAt(cost, PosOf(n - 1))
  }

  function CostSum(cost: map<Pos, int>): int {
    CostSumUpTo(cost, Dim)
  }

  lemma {:induction false} CostSumNonNegative(cost: map<Pos, int>, n: nat)
    requires forall v | v in cost :: cost[v] >= 0
    ensures CostSumUpTo(cost, n) >= 0
  {
    if n > 0 {
      CostSumNonNegative(cost, n - 1);
    }
  }

  /** Lowering the cost of a grid key lowers the sum over every range that
      covers the key, and leaves the others alone. */
  lemma {:induction false} CostSumDecrease(cost: map<Pos, int>, q: Pos, c: int, n: nat)
    requires q in cost && c < cost[q] && InGrid(q)
    ensures n <= Index(q) ==> CostSumUpTo(cost[q := c], n) == CostSumUpTo(cost, n)
    ensures n > Index(q) ==> CostSumUpTo(cost[q := c], n) < CostSumUpTo(cost, n)
  {
    if n > 0 {
      CostSumDecrease(cost, q, c, n - 1);
      if n - 1 == Index(q) {
        IndexRoundTrip(q);
      } else if n - 1 < Dim {
        PosOfRoundTrip(n - 1);
        assert PosOf(n - 1) != q;
      } else {
        assert PosOf(n - 1) != q by {
          IndexRoundTrip(q);
          assert PosOf(n - 1).y >= Height;
        }
      }
    }
  }

  lemma CostSumLowered(cost: map<Pos, int>, q: Pos, c: int)
    requires q in cost && c < cost[q] && InGrid(q)
    ensures CostSum(cost[q := c]) < CostSum(cost)
  {
    IndexRoundTrip(q);
    CostSumDecrease(cost, q, c, Dim);
  }

  /** An entry other than the popped one is still in the frontier. */
  lemma StillQueued(F: seq<(int, Pos)>, F': seq<(int, Pos)>, popped: (int, Pos), e: (int, Pos))
    requires multiset(F') == multiset(F) - multiset{popped}
    requires e in F && e != popped
    ensures e in F'
  {
    assert e in multiset(F);
    assert multiset(F')[e] == multiset(F)[e];
  }

  /** Some frontier entry still holds v. */
  ghost predicate Pending(F: seq<(int, Pos)>, v: Pos) {
    exists e | e in F :: e.1 == v
  }

  lemma PendingAfterPop(F: seq<(int, Pos)>, F': seq<(int, Pos)>, popped: (int, Pos), v: Pos)
    requires multiset(F') == multiset(F) - multiset{popped}
    requires Pending(F, v) && v != popped.1
    ensures Pending(F', v)
  {
    var e :| e in F && e.1 == v;
    StillQueued(F, F', popped, e);
  }

  lemma PendingAfterPut(F: seq<(int, Pos)>, x: (int, Pos), v: Pos)
    requires Pending(F, v) || x.1 == v
    ensures Pending(F + [x], v)
  {
    if x.1 != v {
      var e :| e in F && e.1 == v;
      assert e in F + [x];
    } else {
      assert x in F + [x];
    }
  }

  /** The router's loop invariant: every queued entry is no cheaper than its
      cell's recorded cost, and every reached cell is either queued with its
      current cost or already expanded with it. */
  ghost predicate RouterInv(adj: map<Pos, seq<Pos>>, w: Pos -> int, source: Pos, target: Pos,
                            cost: map<Pos, int>, cameFrom: map<Pos, Pos>, F: seq<(int, Pos)>) {
    source in cost && cost[source] == 0 &&
    (forall v | v in cost :: cost[v] >= 0 && InGrid(v)) &&
    ParentsOk(adj, AnyCell, w, source, cost, cameFrom) &&
    (forall e | e in F :: e.1 in cost && cost[e.1] <= e.0) &&
    (forall v | v in cost :: (cost[v], v) in F || Relaxed(adj, AnyCell, w, cost, v)) &&
    (target in cost ==> Pending(F, target))
  }

  /** When the router pops the target with the least queued priority, the
      target's cost bounds the weight of every walk from the source to it. */
  lemma {:induction false} RouterScan(adj: map<Pos, seq<Pos>>, w: Pos -> int, source: Pos, target: Pos,
                                      cost: map<Pos, int>, F: seq<(int, Pos)>,
                                      p: int, W: seq<Pos>, k: int)
    requires Positive(w)
    requires source in cost && cost[source] == 0
    requires forall e | e in F :: e.1 in cost && cost[e.1] <= e.0
    requires forall v | v in cost :: (cost[v], v) in F || Relaxed(adj, AnyCell, w, cost, v)
    requires (p, target) in F && forall e | e in F :: p <= e.0
    requires WalkFromTo(adj, AnyCell, W, source, target)
    requires 0 <= k < |W| && forall j | 0 <= j < k :: Relaxed(adj, AnyCell, w, cost, W[j])
    ensures cost[target] <= Weight(w, W)
    decreases |W| - k
  {
    RelaxedPrefixBound(adj, AnyCell, w, cost, W, k);
    WeightPrefix(w, W, k + 1);
    if !Relaxed(adj, AnyCell, w, cost, W[k]) {
      assert (cost[W[k]], W[k]) in F;
    } else if k == |W| - 1 {
      assert W[..k + 1] == W;
    } else {
      assert forall j | 0 <= j < k + 1 :: Relaxed(adj, AnyCell, w, cost, W[j]) by {
        forall j | 0 <= j < k + 1
          ensures Relaxed(adj, AnyCell, w, cost, W[j])
        {
          if j < k {
          }
        }
      }
      RouterScan(adj, w, source, target, cost, F, p, W, k + 1);
    }
  }

  /** The router's invariant while it expands `current`, whose cost is c0:
      the first k neighbours already carry a cost no larger than c0 plus
      their weight. */
  ghost predicate ExpandInv(adj: map<Pos, seq<Pos>>, w: Pos -> int, source: Pos, target: Pos,
                            current: Pos, c0: int, k: int,
                            cost: map<Pos, int>, cameFrom: map<Pos, Pos>, F: seq<(int, Pos)>) {
    current in adj && 0 <= k <= |adj[current]| &&
    current in cost && cost[current] == c0 &&
    source in cost && cost[source] == 0 &&
    (forall v | v in cost :: cost[v] >= 0 && InGrid(v)) &&
    ParentsOk(adj, AnyCell, w, source, cost, cameFrom) &&
    (forall e | e in F :: e.1 in cost && cost[e.1] <= e.0) &&
    (forall v | v in cost && v != current :: (cost[v], v) in F || Relaxed(adj, AnyCell, w, cost, v)) &&
    (target in cost ==> Pending(F, target)) &&
    (forall j | 0 <= j < k :: adj[current][j] in cost && cost[adj[current][j]] <= c0 + w(adj[current][j]))
  }

  /** Popping `current` with the least priority starts its expansion. */
  lemma RouterPop(adj: map<Pos, seq<Pos>>, w: Pos -> int, source: Pos, target: Pos,
                  cost: map<Pos, int>, cameFrom: map<Pos, Pos>, F0: seq<(int, Pos)>, F: seq<(int, Pos)>,
                  p: int, current: Pos)
    requires RouterInv(adj, w, source, target, cost, cameFrom, F0)
    requires (p, current) in F0 && current != target && current in adj
    requires multiset(F) == multiset(F0) - multiset{(p, current)}
    ensures ExpandInv(adj, w, source, target, current, cost[current], 0, cost, cameFrom, F)
  {
    forall e | e in F
      ensures e in F0
    {
      assert multiset(F)[e] <= multiset(F0)[e];
    }
    forall v | v in cost && v != current && (cost[v], v) in F0
      ensures (cost[v], v) in F
    {
      StillQueued(F0, F, (p, current), (cost[v], v));
    }
    if target in cost {
      PendingAfterPop(F0, F, (p, current), target);
    }
  }

  /** Relaxing the edge to the k-th neighbour `next` of `current` when it
      improves on next's recorded cost. */
  lemma RouterRelaxImproves(adj: map<Pos, seq<Pos>>, w: Pos -> int, source: Pos, target: Pos,
                            current: Pos, c0: int, k: int,
                            cost: map<Pos, int>, cameFrom: map<Pos, Pos>, F: seq<(int, Pos)>,
                            next: Pos, newCost: int)
    requires Positive(w) && AdjInGrid(adj)
    requires ExpandInv(adj, w, source, target, current, c0, k, cost, cameFrom, F) && k < |adj[current]|
    requires next == adj[current][k] && newCost == c0 + w(next)
    requires next !in cost || newCost < cost[next]
    ensures next != current && next != source
    ensures ExpandInv(adj, w, source, target, current, c0, k + 1,
                      cost[next := newCost], cameFrom[next := current], F + [(newCost, next)])
  {
    assert next in Succ(adj, current);
    ParentsOkUpdate(adj, AnyCell, w, source, cost, cameFrom, current, next, newCost);
    QueuedAfterImprove(adj, w, current, cost, F, next, newCost);
    DoneAfterImprove(adj[current], w, c0, k, cost, next, newCost);
    if target in cost[next := newCost] {
      PendingAfterPut(F, (newCost, next), target);
    }
  }

  /** After the improvement of the k-th neighbour, the first k + 1
      neighbours carry a cost within c0 plus their weight. */
  lemma DoneAfterImprove(nbrs: seq<Pos>, w: Pos -> int, c0: int, k: int,
                         cost: map<Pos, int>, next: Pos, newCost: int)
    requires 0 <= k < |nbrs| && next == nbrs[k] && newCost == c0 + w(next)
    requires forall j | 0 <= j < k :: nbrs[j] in cost && cost[nbrs[j]] <= c0 + w(nbrs[j])
    requires next in cost ==> newCost < cost[next]
    ensures forall j | 0 <= j < k + 1 :: nbrs[j] in cost[next := newCost] && cost[next := newCost][nbrs[j]] <= c0 + w(nbrs[j])
  {
  }

  /** After the improvement of next, the queue entries and the
      queued-or-expanded property hold again, `current` aside. */
  lemma QueuedAfterImprove(adj: map<Pos, seq<Pos>>, w: Pos -> int, current: Pos,
                           cost: map<Pos, int>, F: seq<(int, Pos)>, next: Pos, newCost: int)
    requires forall e | e in F :: e.1 in cost && cost[e.1] <= e.0
    requires forall v | v in cost && v != current :: (cost[v], v) in F || Relaxed(adj, AnyCell, w, cost, v)
    requires next in cost ==> newCost < cost[next]
    ensures var cost', F' := cost[next := newCost], F + [(newCost, next)];
            (forall e | e in F' :: e.1 in cost' && cost'[e.1] <= e.0) &&
            (forall v | v in cost' && v != current :: (cost'[v], v) in F' || Relaxed(adj, AnyCell, w, cost', v))
  {
    var cost', F' := cost[next := newCost], F + [(newCost, next)];
    forall v | v in cost' && v != current
      ensures (cost'[v], v) in F' || Relaxed(adj, AnyCell, w, cost', v)
    {
      if v != next {
        if (cost[v], v) in F {
          assert (cost[v], v) in F';
        } else {
          RelaxedAfterUpdate(adj, AnyCell, w, cost, v, next, newCost);
        }
      } else {
        assert (newCost, next) in F';
      }
    }
    forall e | e in F'
      ensures e.1 in cost' && cost'[e.1] <= e.0
    {
      if e in F {
        assert e.1 in cost && cost[e.1] <= e.0;
      }
    }
  }

  /** Skipping a neighbour whose recorded cost is already as low. */
  lemma RouterRelaxKeeps(adj: map<Pos, seq<Pos>>, w: Pos -> int, source: Pos, target: Pos,
                         current: Pos, c0: int, k: int,
                         cost: map<Pos, int>, cameFrom: map<Pos, Pos>, F: seq<(int, Pos)>,
                         next: Pos, newCost: int)
    requires ExpandInv(adj, w, source, target, current, c0, k, cost, cameFrom, F) && k < |adj[current]|
    requires next == adj[current][k] && newCost == c0 + w(next)
    requires !(next !in cost || newCost < cost[next])
    ensures ExpandInv(adj, w, source, target, current, c0, k + 1, cost, cameFrom, F)
  {
  }

  /** Once every neighbour is relaxed, `current` counts as expanded. */
  lemma RouterExpanded(adj: map<Pos, seq<Pos>>, w: Pos -> int, source: Pos, target: Pos,
                       current: Pos, c0: int,
                       cost: map<Pos, int>, cameFrom: map<Pos, Pos>, F: seq<(int, Pos)>)
    requires current in adj
    requires ExpandInv(adj, w, source, target, current, c0, |adj[current]|, cost, cameFrom, F)
    ensures RouterInv(adj, w, source, target, cost, cameFrom, F)
  {
    assert Relaxed(adj, AnyCell, w, cost, current) by {
      forall v | v in Succ(adj, current) && AnyCell(v)
        ensures v in cost && cost[v] <= cost[current] + w(v)
      {
        var j :| 0 <= j < |adj[current]| && adj[current][j] == v;
      }
    }
  }

  /** The measure (unreached cells, cost sum) strictly dropped from cost to
      cost'. */
  ghost predicate Improves(cost: map<Pos, int>, cost': map<Pos, int>) {
    var a, a' := |AllPositions - cost.Keys|, |AllPositions - cost'.Keys|;
    a' < a || (a' == a && CostSum(cost') < CostSum(cost))
  }

  /** Taking a cheaper route to a grid cell improves the measure. */
  lemma UpdateImproves(cost: map<Pos, int>, next: Pos, newCost: int)
    requires InGrid(next) && (next in cost ==> newCost < cost[next])
    ensures Improves(cost, cost[next := newCost])
  {
    if next in cost {
      CostSumLowered(cost, next, newCost);
      assert cost[next := newCost].Keys == cost.Keys;
    } else {
      Unreached(cost.Keys, next);
      assert cost[next := newCost].Keys == cost.Keys + {next};
    }
  }

  /** One pass of the inner loop of dijkstra: relaxes the edge from
      `current` to its k-th neighbour. */
  method RouterRelaxEdge(adj: map<Pos, seq<Pos>>, w: Pos -> int, source: Pos, ghost target: Pos,
                         current: Pos, ghost c0: int, k: int,
                         frontier: MinPriorityQueue<Pos>, cost: map<Pos, int>, cameFrom: map<Pos, Pos>)
    returns (cost': map<Pos, int>, cameFrom': map<Pos, Pos>)
    requires Positive(w) && AdjInGrid(adj)
    requires ExpandInv(adj, w, source, target, current, c0, k, cost, cameFrom, frontier.elements)
    requires k < |adj[current]|
    modifies frontier
    ensures ExpandInv(adj, w, source, target, current, c0, k + 1, cost', cameFrom', frontier.elements)
    ensures Improves(cost, cost') || (cost' == cost && frontier.elements == old(frontier.elements))
  {
    var next := adj[current][k];
    var newCost := cost[current] + w(next);
    if next !in cost || newCost < cost[next] {
      RouterRelaxImproves(adj, w, source, target, current, c0, k, cost, cameFrom, frontier.elements, next, newCost);
      UpdateImproves(cost, next, newCost);
      cost', cameFrom' := cost[next := newCost], cameFrom[next := current];
      frontier.Put(next, newCost);
    } else {
      RouterRelaxKeeps(adj, w, source, target, current, c0, k, cost, cameFrom, frontier.elements, next, newCost);
      cost', cameFrom' := cost, cameFrom;
    }
  }

  /** The inner loop of dijkstra: relaxes every neighbour of `current`. */
  method RouterExpand(adj: map<Pos, seq<Pos>>, w: Pos -> int, source: Pos, ghost target: Pos,
                      current: Pos, frontier: MinPriorityQueue<Pos>, cost: map<Pos, int>, cameFrom: map<Pos, Pos>)
    returns (cost': map<Pos, int>, cameFrom': map<Pos, Pos>)
    requires Positive(w) && AdjInGrid(adj)
    requires current in cost && ExpandInv(adj, w, source, target, current, cost[current], 0, cost, cameFrom, frontier.elements)
    modifies frontier
    ensures RouterInv(adj, w, source, target, cost', cameFrom', frontier.elements)
    ensures Improves(cost, cost') || (cost' == cost && |frontier.elements| == |old(frontier.elements)|)
  {
    ghost var c0 := cost[current];
    cost', cameFrom' := cost, cameFrom;
    for k := 0 to |adj[current]|
      invariant ExpandInv(adj, w, source, target, current, c0, k, cost', cameFrom', frontier.elements)
      invariant Improves(cost, cost') || (cost' == cost && |frontier.elements| == |old(frontier.elements)|)
    {
      ghost var before := cost';
      cost', cameFrom' := RouterRelaxEdge(adj, w, source, target, current, c0, k, frontier, cost', cameFrom');
    }
    RouterExpanded(adj, w, source, target, current, c0, cost', cameFrom', frontier.elements);
  }

  /** The router's state right after it queues the source. */
  lemma RouterStart(adj: map<Pos, seq<Pos>>, w: Pos -> int, source: Pos, target: Pos)
    requires InGrid(source)
    ensures RouterInv(adj, w, source, target, map[source := 0], map[source := source], [(0, source)])
  {
    assert (0, source) in [(0, source)];
    PendingAfterPut([], (0, source), source);
  }

  /** Popping the target with the least priority: its cost is optimal. */
  lemma RouterOptimal(adj: map<Pos, seq<Pos>>, w: Pos -> int, source: Pos, target: Pos,
                      cost: map<Pos, int>, cameFrom: map<Pos, Pos>, F: seq<(int, Pos)>, p: int)
    requires Positive(w)
    requires RouterInv(adj, w, source, target, cost, cameFrom, F)
    requires (p, target) in F && forall e | e in F :: p <= e.0
    ensures target in cost
    ensures forall W | WalkFromTo(adj, AnyCell, W, source, target) :: cost[target] <= Weight(w, W)
  {
    forall W | WalkFromTo(adj, AnyCell, W, source, target)
      ensures cost[target] <= Weight(w, W)
    {
      RouterScan(adj, w, source, target, cost, F, p, W, 0);
    }
  }

  /** An exhausted frontier leaves the target unreachable. */
  lemma RouterExhausted(adj: map<Pos, seq<Pos>>, w: Pos -> int, source: Pos, target: Pos,
                        cost: map<Pos, int>, cameFrom: map<Pos, Pos>)
    requires RouterInv(adj, w, source, target, cost, cameFrom, [])
    ensures forall W | IsWalk(adj, AnyCell, W) && W[0] == source :: W[|W| - 1] != target
  {
    forall W | IsWalk(adj, AnyCell, W) && W[0] == source
      ensures W[|W| - 1] != target
    {
      AllRelaxedBound(adj, AnyCell, w, cost, source, W);
    }
  }

  /** dijkstra: a lightest walk from source to target, where entering a cell
      costs w of that cell (compute_next_step_score). None when the search
      exhausts its frontier without popping the target. */
  method Dijkstra(adj: map<Pos, seq<Pos>>, w: Pos -> int, source: Pos, target: Pos) returns (path: Option<seq<Pos>>)
    requires InGrid(source) && AdjInGrid(adj) && Positive(w)
    requires forall p | InGrid(p) :: p in adj
    ensures path.Some? ==> WalkFromTo(adj, AnyCell, path.value, source, target)
    ensures path.Some? ==> forall W | WalkFromTo(adj, AnyCell, W, source, target) :: Weight(w, path.value) <= Weight(w, W)
    ensures path.None? ==> forall W | IsWalk(adj, AnyCell, W) && W[0] == source :: W[|W| - 1] != target
  {
    var cameFrom := map[source := source];
    var frontier := new MinPriorityQueue<Pos>();
    frontier.Put(source, 0);
    var cost := map[source := 0];
    RouterStart(adj, w, source, target);
    while !frontier.Empty()
      invariant fresh(frontier)
      invariant RouterInv(adj, w, source, target, cost, cameFrom, frontier.elements)
      decreases |AllPositions - cost.Keys|, CostSum(cost), |frontier.elements|
    {
      CostSumNonNegative(cost, Dim);
      ghost var F0 := frontier.elements;
      var current, p := frontier.Pop();
      if current == target {
        RouterOptimal(adj, w, source, target, cost, cameFrom, F0, p);
        var r := ReconstructPath(source, target, cameFrom, adj, AnyCell, w, cost);
        return Some(r);
      }
      RouterPop(adj, w, source, target, cost, cameFrom, F0, frontier.elements, p, current);
      cost, cameFrom := RouterExpand(adj, w, source, target, current, frontier, cost, cameFrom);
    }
    RouterExhausted(adj, w, source, target, cost, cameFrom);
    return None;
  }

  /** reconstruct_path: follows came_from back from target to source. */
  method ReconstructPath(source: Pos, target: Pos, cameFrom: map<Pos, Pos>,
                         ghost adj: map<Pos, seq<Pos>>, ghost allowed: Pos -> bool, ghost w: Pos -> int,
                         ghost cost: map<Pos, int>)
    returns (path: seq<Pos>)
    requires ParentsOk(adj, allowed, w, source, cost, cameFrom)
    requires Positive(w) && forall v | v in cost :: cost[v] >= 0
    requires target in cost
    ensures WalkFromTo(adj, allowed, path, source, target)
    ensures cost[source] + Weight(w, path) <= cost[target]
  {
    var tail: seq<Pos> := [];
    var current := target;
    while current != source
      invariant current in cost
      invariant tail == [] ==> current == target
      invariant tail != [] ==> WalkFromTo(adj, allowed, [current] + tail, current, target)
      invariant cost[current] + Weight(w, [current] + tail) <= cost[target]
      decreases cost[current]
    {
      var prev := cameFrom[current];
      if tail == [] {
        assert IsWalk(adj, allowed, [current]);
      }
      WalkCons(adj, allowed, w, prev, [current] + tail);
      tail := [current] + tail;
      current := prev;
    }
    path := [source] + tail;
  }

  /** The chain-kill searches' loop invariant. The source starts at cost 10
      (one level-1 unit on the enemy HQ) but is queued with priority 0, so
      the frontier is only known to hold reached cells, and every reached
      cell is still queued or already expanded. */
  ghost predicate ChainInv(adj: map<Pos, seq<Pos>>, allowed: Pos -> bool, w: Pos -> int, source: Pos,
                           cost: map<Pos, int>, cameFrom: map<Pos, Pos>, F: seq<(int, Pos)>) {
    source in cost && cost[source] == 10 &&
    (forall v | v in cost :: cost[v] >= 10 && InGrid(v)) &&
    ParentsOk(adj, allowed, w, source, cost, cameFrom) &&
    (forall e | e in F :: e.1 in cost) &&
    (forall v | v in cost :: Pending(F, v) || Relaxed(adj, allowed, w, cost, v))
  }

  /** ChainInv while `current`, of cost c0, is being expanded: its first k
      neighbours are done. */
  ghost predicate ChainExpandInv(adj: map<Pos, seq<Pos>>, allowed: Pos -> bool, w: Pos -> int, source: Pos,
                                 current: Pos, c0: int, k: int,
                                 cost: map<Pos, int>, cameFrom: map<Pos, Pos>, F: seq<(int, Pos)>) {
    current in adj && 0 <= k <= |adj[current]| &&
    current in cost && cost[current] == c0 &&
    source in cost && cost[source] == 10 &&
    (forall v | v in cost :: cost[v] >= 10 && InGrid(v)) &&
    ParentsOk(adj, allowed, w, source, cost, cameFrom) &&
    (forall e | e in F :: e.1 in cost) &&
    (forall v | v in cost && v != current :: Pending(F, v) || Relaxed(adj, allowed, w, cost, v)) &&
    (forall j | 0 <= j < k :: allowed(adj[current][j]) ==>
       adj[current][j] in cost && cost[adj[current][j]] <= c0 + w(adj[current][j]))
  }

  lemma ChainStart(adj: map<Pos, seq<Pos>>, allowed: Pos -> bool, w: Pos -> int, source: Pos)
    requires InGrid(source)
    ensures ChainInv(adj, allowed, w, source, map[source := 10], map[source := source], [(0, source)])
  {
    PendingAfterPut([], (0, source), source);
  }

  lemma ChainPop(adj: map<Pos, seq<Pos>>, allowed: Pos -> bool, w: Pos -> int, source: Pos,
                 cost: map<Pos, int>, cameFrom: map<Pos, Pos>, F0: seq<(int, Pos)>, F: seq<(int, Pos)>,
                 p: int, current: Pos)
    requires ChainInv(adj, allowed, w, source, cost, cameFrom, F0)
    requires (p, current) in F0 && current in adj
    requires multiset(F) == multiset(F0) - multiset{(p, current)}
    ensures ChainExpandInv(adj, allowed, w, source, current, cost[current], 0, cost, cameFrom, F)
  {
    forall e | e in F
      ensures e in F0
    {
      assert multiset(F)[e] <= multiset(F0)[e];
    }
    forall v | v in cost && v != current && Pending(F0, v)
      ensures Pending(F, v)
    {
      PendingAfterPop(F0, F, (p, current), v);
    }
  }

  lemma ChainQueuedAfterImprove(adj: map<Pos, seq<Pos>>, allowed: Pos -> bool, w: Pos -> int, current: Pos,
                                cost: map<Pos, int>, F: seq<(int, Pos)>, next: Pos, newCost: int)
    requires forall e | e in F :: e.1 in cost
    requires forall v | v in cost && v != current :: Pending(F, v) || Relaxed(adj, allowed, w, cost, v)
    requires next in cost ==> newCost < cost[next]
    ensures var cost', F' := cost[next := newCost], F + [(newCost, next)];
            (forall e | e in F' :: e.1 in cost') &&
            (forall v | v in cost' && v != current :: Pending(F', v) || Relaxed(adj, allowed, w, cost', v))
  {
    var cost', F' := cost[next := newCost], F + [(newCost, next)];
    forall v | v in cost' && v != current
      ensures Pending(F', v) || Relaxed(adj, allowed, w, cost', v)
    {
      if v != next && !Pending(F, v) {
        RelaxedAfterUpdate(adj, allowed, w, cost, v, next, newCost);
      } else {
        PendingAfterPut(F, (newCost, next), v);
      }
    }
    forall e | e in F'
      ensures e.1 in cost'
    {
      if e in F {
        assert e.1 in cost;
      }
    }
  }

  lemma ChainDoneAfterImprove(nbrs: seq<Pos>, allowed: Pos -> bool, w: Pos -> int, c0: int, k: int,
                              cost: map<Pos, int>, next: Pos, newCost: int)
    requires 0 <= k < |nbrs| && next == nbrs[k] && newCost == c0 + w(next)
    requires forall j | 0 <= j < k :: allowed(nbrs[j]) ==> nbrs[j] in cost && cost[nbrs[j]] <= c0 + w(nbrs[j])
    requires next in cost ==> newCost < cost[next]
    ensures forall j | 0 <= j < k + 1 :: allowed(nbrs[j]) ==>
              nbrs[j] in cost[next := newCost] && cost[next := newCost][nbrs[j]] <= c0 + w(nbrs[j])
  {
  }

  lemma ChainRelaxImproves(adj: map<Pos, seq<Pos>>, allowed: Pos -> bool, w: Pos -> int, source: Pos,
                           current: Pos, c0: int, k: int,
                           cost: map<Pos, int>, cameFrom: map<Pos, Pos>, F: seq<(int, Pos)>,
                           next: Pos, newCost: int)
    requires Positive(w) && AdjInGrid(adj)
    requires ChainExpandInv(adj, allowed, w, source, current, c0, k, cost, cameFrom, F) && k < |adj[current]|
    requires next == adj[current][k] && allowed(next) && newCost == c0 + w(next)
    requires next !in cost || newCost < cost[next]
    ensures next != current && next != source && InGrid(next)
    ensures ChainExpandInv(adj, allowed, w, source, current, c0, k + 1,
                           cost[next := newCost], cameFrom[next := current], F + [(newCost, next)])
  {
    assert next in Succ(adj, current);
    ParentsOkUpdate(adj, allowed, w, source, cost, cameFrom, current, next, newCost);
    ChainQueuedAfterImprove(adj, allowed, w, current, cost, F, next, newCost);
    ChainDoneAfterImprove(adj[current], allowed, w, c0, k, cost, next, newCost);
  }

  lemma ChainRelaxKeeps(adj: map<Pos, seq<Pos>>, allowed: Pos -> bool, w: Pos -> int, source: Pos,
                        current: Pos, c0: int, k: int,
                        cost: map<Pos, int>, cameFrom: map<Pos, Pos>, F: seq<(int, Pos)>,
                        next: Pos, newCost: int)
    requires ChainExpandInv(adj, allowed, w, source, current, c0, k, cost, cameFrom, F) && k < |adj[current]|
    requires next == adj[current][k] && newCost == c0 + w(next)
    requires allowed(next) ==> !(next !in cost || newCost < cost[next])
    ensures ChainExpandInv(adj, allowed, w, source, current, c0, k + 1, cost, cameFrom, F)
  {
  }

  lemma ChainExpanded(adj: map<Pos, seq<Pos>>, allowed: Pos -> bool, w: Pos -> int, source: Pos,
                      current: Pos, c0: int,
                      cost: map<Pos, int>, cameFrom: map<Pos, Pos>, F: seq<(int, Pos)>)
    requires current in adj
    requires ChainExpandInv(adj, allowed, w, source, current, c0, |adj[current]|, cost, cameFrom, F)
    ensures ChainInv(adj, allowed, w, source, cost, cameFrom, F)
  {
    assert Relaxed(adj, allowed, w, cost, current) by {
      forall v | v in Succ(adj, current) && allowed(v)
        ensures v in cost && cost[v] <= cost[current] + w(v)
      {
        var j :| 0 <= j < |adj[current]| && adj[current][j] == v;
      }
    }
  }

  /** One pass of the inner loop of the chain-kill searches: the k-th
      neighbour of `current` is relaxed unless the agent already owns it. */
  method ChainRelaxEdge(adj: map<Pos, seq<Pos>>, allowed: Pos -> bool, w: Pos -> int, source: Pos,
                        current: Pos, ghost c0: int, k: int,
                        frontier: MinPriorityQueue<Pos>, cost: map<Pos, int>, cameFrom: map<Pos, Pos>)
    returns (cost': map<Pos, int>, cameFrom': map<Pos, Pos>)
    requires Positive(w) && AdjInGrid(adj)
    requires ChainExpandInv(adj, allowed, w, source, current, c0, k, cost, cameFrom, frontier.elements)
    requires k < |adj[current]|
    modifies frontier
    ensures ChainExpandInv(adj, allowed, w, source, current, c0, k + 1, cost', cameFrom', frontier.elements)
    ensures Improves(cost, cost') || (cost' == cost && frontier.elements == old(frontier.elements))
  {
    var next := adj[current][k];
    var newCost := cost[current] + w(next);
    if allowed(next) && (next !in cost || newCost < cost[next]) {
      ChainRelaxImproves(adj, allowed, w, source, current, c0, k, cost, cameFrom, frontier.elements, next, newCost);
      UpdateImproves(cost, next, newCost);
      cost', cameFrom' := cost[next := newCost], cameFrom[next := current];
      frontier.Put(next, newCost);
    } else {
      ChainRelaxKeeps(adj, allowed, w, source, current, c0, k, cost, cameFrom, frontier.elements, next, newCost);
      cost', cameFrom' := cost, cameFrom;
    }
  }

  method ChainExpand(adj: map<Pos, seq<Pos>>, allowed: Pos -> bool, w: Pos -> int, source: Pos,
                     current: Pos, frontier: MinPriorityQueue<Pos>, cost: map<Pos, int>, cameFrom: map<Pos, Pos>)
    returns (cost': map<Pos, int>, cameFrom': map<Pos, Pos>)
    requires Positive(w) && AdjInGrid(adj)
    requires current in cost && ChainExpandInv(adj, allowed, w, source, current, cost[current], 0, cost, cameFrom, frontier.elements)
    modifies frontier
    ensures ChainInv(adj, allowed, w, source, cost', cameFrom', frontier.elements)
    ensures Improves(cost, cost') || (cost' == cost && |frontier.elements| == |old(frontier.elements)|)
  {
    ghost var c0 := cost[current];
    cost', cameFrom' := cost, cameFrom;
    for k := 0 to |adj[current]|
      invariant ChainExpandInv(adj, allowed, w, source, current, c0, k, cost', cameFrom', frontier.elements)
      invariant Improves(cost, cost') || (cost' == cost && |frontier.elements| == |old(frontier.elements)|)
    {
      cost', cameFrom' := ChainRelaxEdge(adj, allowed, w, source, current, c0, k, frontier, cost', cameFrom');
    }
    ChainExpanded(adj, allowed, w, source, current, c0, cost', cameFrom', frontier.elements);
  }

  /** The loop shared by dijkstra_chainkill_all_costs and
      dijkstra_chainkill_path: run to exhaustion from `source` (cost 10),
      entering only allowed cells. On exit every reached cell is expanded. */
  method ChainKillSearch(adj: map<Pos, seq<Pos>>, allowed: Pos -> bool, w: Pos -> int, source: Pos)
    returns (cost: map<Pos, int>, cameFrom: map<Pos, Pos>)
    requires InGrid(source) && AdjInGrid(adj) && Positive(w)
    requires forall p | InGrid(p) :: p in adj
    ensures source in cost && cost[source] == 10
    ensures forall v | v in cost :: cost[v] >= 10 && InGrid(v)
    ensures ParentsOk(adj, allowed, w, source, cost, cameFrom)
    ensures forall v | v in cost :: Relaxed(adj, allowed, w, cost, v)
  {
    var frontier := new MinPriorityQueue<Pos>();
    frontier.Put(source, 0);
    cost := map[source := 10];
    cameFrom := map[source := source];
    ChainStart(adj, allowed, w, source);
    while !frontier.Empty()
      invariant fresh(frontier)
      invariant ChainInv(adj, allowed, w, source, cost, cameFrom, frontier.elements)
      decreases |AllPositions - cost.Keys|, CostSum(cost), |frontier.elements|
    {
      CostSumNonNegative(cost, Dim);
      ghost var F0 := frontier.elements;
      var current, p := frontier.Pop();
      ChainPop(adj, allowed, w, source, cost, cameFrom, F0, frontier.elements, p, current);
      cost, cameFrom := ChainExpand(adj, allowed, w, source, current, frontier, cost, cameFrom);
    }
    ChainDone(adj, allowed, w, source, cost, cameFrom, frontier.elements);
  }

  /** With the frontier empty, every reached cell is relaxed. */
  lemma ChainDone(adj: map<Pos, seq<Pos>>, allowed: Pos -> bool, w: Pos -> int, source: Pos,
                  cost: map<Pos, int>, cameFrom: map<Pos, Pos>, F: seq<(int, Pos)>)
    requires ChainInv(adj, allowed, w, source, cost, cameFrom, F) && |F| == 0
    ensures forall v | v in cost :: Relaxed(adj, allowed, w, cost, v)
  {
    forall v | v in cost
      ensures Relaxed(adj, allowed, w, cost, v)
    {
      assert !Pending(F, v);
    }
  }

  /** dijkstra_chainkill_all_costs: for every cell reachable from `source`
      through allowed cells, 10 plus the weight of a lightest such walk;
      nothing else. */
  method ChainKillAllCosts(adj: map<Pos, seq<Pos>>, allowed: Pos -> bool, w: Pos -> int, source: Pos)
    returns (cost: map<Pos, int>)
    requires InGrid(source) && AdjInGrid(adj) && Positive(w)
    requires forall p | InGrid(p) :: p in adj
    ensures source in cost && cost[source] == 10
    ensures forall v | v in cost :: InGrid(v) && exists W :: WalkFromTo(adj, allowed, W, source, v) && cost[v] == 10 + Weight(w, W)
    ensures forall W | IsWalk(adj, allowed, W) && W[0] == source :: W[|W| - 1] in cost && cost[W[|W| - 1]] <= 10 + Weight(w, W)
  {
    var cameFrom;
    cost, cameFrom := ChainKillSearch(adj, allowed, w, source);
    forall v | v in cost
      ensures exists W :: WalkFromTo(adj, allowed, W, source, v) && cost[v] == 10 + Weight(w, W)
    {
      var W := ParentChainWalk(adj, allowed, w, source, cost, cameFrom, v);
      AllRelaxedBound(adj, allowed, w, cost, source, W);
    }
    forall W | IsWalk(adj, allowed, W) && W[0] == source
      ensures W[|W| - 1] in cost && cost[W[|W| - 1]] <= 10 + Weight(w, W)
    {
      AllRelaxedBound(adj, allowed, w, cost, source, W);
    }
  }

  /** dijkstra_chainkill_path: a lightest walk from source to target through
      allowed cells; None when the search never reaches the target. */
  method ChainKillPath(adj: map<Pos, seq<Pos>>, allowed: Pos -> bool, w: Pos -> int, source: Pos, target: Pos)
    returns (path: Option<seq<Pos>>)
    requires InGrid(source) && AdjInGrid(adj) && Positive(w)
    requires forall p | InGrid(p) :: p in adj
    ensures path.Some? ==> WalkFromTo(adj, allowed, path.value, source, target)
    ensures path.Some? ==> forall W | WalkFromTo(adj, allowed, W, source, target) :: Weight(w, path.value) <= Weight(w, W)
    ensures path.None? ==> forall W | IsWalk(adj, allowed, W) && W[0] == source :: W[|W| - 1] != target
  {
    var cost, cameFrom := ChainKillSearch(adj, allowed, w, source);
    if target in cost {
      var r := ReconstructPath(source, target, cameFrom, adj, allowed, w, cost);
      forall W | WalkFromTo(adj, allowed, W, source, target)
        ensures Weight(w, r) <= Weight(w, W)
      {
        AllRelaxedBound(adj, allowed, w, cost, source, W);
      }
      path := Some(r);
    } else {
      forall W | IsWalk(adj, allowed, W) && W[0] == source
        ensures W[|W| - 1] != target
      {
        AllRelaxedBound(adj, allowed, w, cost, source, W);
      }
      path := None;
    }
  }
}
