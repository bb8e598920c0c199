/** find_graph_from_source: the breadth-first flood of one side's territory
    from a cell next to a candidate cut, which stops early when it reaches
    that side's HQ. */
module Territory {
  import opened Grid
  import opened Paths

  /** The first n cells of `graph` (those already taken off the queue) have
      all their neighbours other than `forbidden` marked visited. */
  ghost predicate ExpandedPrefix(adj: map<Pos, seq<Pos>>, forbidden: Pos, graph: seq<Pos>, n: int, visited: set<Pos>) {
    0 <= n <= |graph| &&
    forall i | 0 <= i < n :: forall v | v in Succ(adj, graph[i]) && v != forbidden :: v in visited
  }

  /** BFS bookkeeping: `graph` lists the visited cells once each, in the
      order they were found; the queue is its unexpanded tail; every listed
      cell is reachable without entering `forbidden`; the HQ has not been
      expanded. */
  ghost predicate FloodInv(adj: map<Pos, seq<Pos>>, source: Pos, forbidden: Pos, hq: Pos,
                           visited: set<Pos>, frontier: seq<Pos>, graph: seq<Pos>) {
    |graph| >= 1 && graph[0] == source &&
    (forall v :: v in visited <==> v in graph) && |visited| == |graph| &&
    (forall v | v in visited :: InGrid(v)) &&
    |frontier| <= |graph| && frontier == graph[|graph| - |frontier|..] &&
    (forall i | 0 <= i < |graph| - |frontier| :: graph[i] != hq) &&
    ExpandedPrefix(adj, forbidden, graph, |graph| - |frontier|, visited) &&
    (forall v | v in graph :: Reachable(adj, Avoiding(forbidden), source, v))
  }

  /** The cells of s. */
  ghost function Elems(s: seq<Pos>): set<Pos> {
    set x | x in s
  }

  lemma {:induction false} ElemsCard(s: seq<Pos>)
    ensures |Elems(s)| <= |s|
    decreases |s|
  {
    if |s| > 0 {
      var t := s[..|s| - 1];
      ElemsCard(t);
      assert Elems(s) == Elems(t) + {s[|s| - 1]} by {
        forall x | x in Elems(s)
          ensures x in Elems(t) + {s[|s| - 1]}
        {
          var i :| 0 <= i < |s| && s[i] == x;
          if i < |s| - 1 {
            assert t[i] == x;
          }
        }
      }
    }
  }

  /** A list with as many distinct cells as entries repeats none. */
  lemma DistinctFromCard(s: seq<Pos>, S: set<Pos>)
    requires forall v :: v in S <==> v in s
    requires |S| == |s|
    ensures forall i, j | 0 <= i < j < |s| :: s[i] != s[j]
  {
    assert S == Elems(s);
    forall i, j | 0 <= i < j < |s|
      ensures s[i] != s[j]
    {
      if s[i] == s[j] {
        var t := s[..j] + s[j + 1..];
        assert Elems(t) == Elems(s) by {
          forall x | x in Elems(s)
            ensures x in Elems(t)
          {
            var k :| 0 <= k < |s| && s[k] == x;
            if k < j {
              assert t[k] == x;
            } else if k == j {
              assert t[i] == x;
            } else {
              assert t[k - 1] == x;
            }
          }
        }
        ElemsCard(t);
      }
    }
  }

  /** FloodInv while the n-th listed cell, `current`, is being expanded: its
      first k neighbours are done. */
  ghost predicate FloodStepInv(adj: map<Pos, seq<Pos>>, source: Pos, forbidden: Pos, hq: Pos,
                               n: int, current: Pos, k: int,
                               visited: set<Pos>, frontier: seq<Pos>, graph: seq<Pos>) {
    |graph| >= 1 && graph[0] == source &&
    (forall v :: v in visited <==> v in graph) && |visited| == |graph| &&
    (forall v | v in visited :: InGrid(v)) &&
    |frontier| <= |graph| && frontier == graph[|graph| - |frontier|..] &&
    |graph| - |frontier| == n && 1 <= n && graph[n - 1] == current &&
    (forall i | 0 <= i < n :: graph[i] != hq) &&
    ExpandedPrefix(adj, forbidden, graph, n - 1, visited) &&
    0 <= k <= |Succ(adj, current)| &&
    (forall j | 0 <= j < k :: Succ(adj, current)[j] != forbidden ==> Succ(adj, current)[j] in visited) &&
    (forall v | v in graph :: Reachable(adj, Avoiding(forbidden), source, v))
  }

  /** Taking the head of the queue, when it is not the HQ. */
  lemma FloodPop(adj: map<Pos, seq<Pos>>, source: Pos, forbidden: Pos, hq: Pos,
                 visited: set<Pos>, frontier: seq<Pos>, graph: seq<Pos>)
    requires FloodInv(adj, source, forbidden, hq, visited, frontier, graph)
    requires frontier != [] && frontier[0] != hq
    ensures FloodStepInv(adj, source, forbidden, hq, |graph| - |frontier| + 1, frontier[0], 0,
                         visited, frontier[1..], graph)
  {
    var n := |graph| - |frontier| + 1;
    assert graph[n - 1] == frontier[0];
    assert frontier[1..] == graph[|graph| - |frontier[1..]|..];
  }

  /** Visiting the k-th neighbour `next`: it joins the list and the queue. */
  lemma FloodVisit(adj: map<Pos, seq<Pos>>, source: Pos, forbidden: Pos, hq: Pos,
                   n: int, current: Pos, k: int,
                   visited: set<Pos>, frontier: seq<Pos>, graph: seq<Pos>, next: Pos)
    requires AdjInGrid(adj)
    requires FloodStepInv(adj, source, forbidden, hq, n, current, k, visited, frontier, graph)
    requires k < |Succ(adj, current)| && next == Succ(adj, current)[k]
    requires next !in visited && next != forbidden
    ensures InGrid(next)
    ensures FloodStepInv(adj, source, forbidden, hq, n, current, k + 1,
                         visited + {next}, frontier + [next], graph + [next])
  {
    var graph' := graph + [next];
    assert graph[n - 1] in graph;
    assert Avoiding(forbidden)(next);
    ReachableStep(adj, Avoiding(forbidden), source, current, next);
    forall v | v in graph'
      ensures Reachable(adj, Avoiding(forbidden), source, v)
    {
      if v != next {
        assert v in graph;
      }
    }
    assert forall i | 0 <= i < n :: graph'[i] == graph[i];
    assert (frontier + [next]) == graph'[|graph'| - |frontier + [next]|..];
    assert ExpandedPrefix(adj, forbidden, graph', n - 1, visited + {next}) by {
      forall i | 0 <= i < n - 1
        ensures forall v | v in Succ(adj, graph'[i]) && v != forbidden :: v in visited + {next}
      {
        assert graph'[i] == graph[i];
      }
    }
  }

  /** Skipping a neighbour already visited, or the forbidden cell. */
  lemma FloodSkip(adj: map<Pos, seq<Pos>>, source: Pos, forbidden: Pos, hq: Pos,
                  n: int, current: Pos, k: int,
                  visited: set<Pos>, frontier: seq<Pos>, graph: seq<Pos>, next: Pos)
    requires FloodStepInv(adj, source, forbidden, hq, n, current, k, visited, frontier, graph)
    requires k < |Succ(adj, current)| && next == Succ(adj, current)[k]
    requires !(next !in visited && next != forbidden)
    ensures FloodStepInv(adj, source, forbidden, hq, n, current, k + 1, visited, frontier, graph)
  {
  }

  /** Once all its neighbours are done, `current` joins the expanded prefix. */
  lemma FloodExpanded(adj: map<Pos, seq<Pos>>, source: Pos, forbidden: Pos, hq: Pos,
                      n: int, current: Pos,
                      visited: set<Pos>, frontier: seq<Pos>, graph: seq<Pos>)
    requires FloodStepInv(adj, source, forbidden, hq, n, current, |Succ(adj, current)|, visited, frontier, graph)
    ensures FloodInv(adj, source, forbidden, hq, visited, frontier, graph)
  {
    var nbrs := Succ(adj, current);
    forall i | 0 <= i < n
      ensures forall v | v in Succ(adj, graph[i]) && v != forbidden :: v in visited
    {
      if i == n - 1 {
        forall v | v in Succ(adj, graph[i]) && v != forbidden
          ensures v in visited
        {
          var j :| 0 <= j < |nbrs| && nbrs[j] == v;
        }
      }
    }
  }

  /** The inner loop of find_graph_from_source: visits the unvisited
      neighbours of `current` other than `forbidden`, in adjacency order. */
  method FloodNeighbours(adj: map<Pos, seq<Pos>>, source: Pos, forbidden: Pos, ghost hq: Pos,
                         ghost n: int, current: Pos, visited: set<Pos>, frontier: seq<Pos>, graph: seq<Pos>)
    returns (visited': set<Pos>, frontier': seq<Pos>, graph': seq<Pos>)
    requires AdjInGrid(adj)
    requires FloodStepInv(adj, source, forbidden, hq, n, current, 0, visited, frontier, graph)
    ensures FloodInv(adj, source, forbidden, hq, visited', frontier', graph')
    ensures |AllPositions - visited'| < |AllPositions - visited| ||
            (visited' == visited && frontier' == frontier)
  {
    visited', frontier', graph' := visited, frontier, graph;
    var nbrs := Succ(adj, current);
    for k := 0 to |nbrs|
      invariant FloodStepInv(adj, source, forbidden, hq, n, current, k, visited', frontier', graph')
      invariant |AllPositions - visited'| < |AllPositions - visited| ||
                (visited' == visited && frontier' == frontier)
    {
      var next := nbrs[k];
      if next !in visited' && next != forbidden {
        FloodVisit(adj, source, forbidden, hq, n, current, k, visited', frontier', graph', next);
        Unreached(visited', next);
        visited', frontier', graph' := visited' + {next}, frontier' + [next], graph' + [next];
      } else {
        FloodSkip(adj, source, forbidden, hq, n, current, k, visited', frontier', graph', next);
      }
    }
    FloodExpanded(adj, source, forbidden, hq, n, current, visited', frontier', graph');
  }

  /** find_graph_from_source: [] when the flood from `source` (never entering
      `forbidden`) reaches `hq`; otherwise every cell it reaches, each once,
      starting with `source`. */
  method FindGraphFromSource(adj: map<Pos, seq<Pos>>, source: Pos, forbidden: Pos, hq: Pos) returns (graph: seq<Pos>)
    requires InGrid(source) && AdjInGrid(adj)
    ensures graph == [] <==> Reachable(adj, Avoiding(forbidden), source, hq)
    ensures graph != [] ==> graph[0] == source
    ensures forall i, j | 0 <= i < j < |graph| :: graph[i] != graph[j]
    ensures forall v | v in graph :: Reachable(adj, Avoiding(forbidden), source, v)
    ensures graph != [] ==> forall v | Reachable(adj, Avoiding(forbidden), source, v) :: v in graph
  {
    var visited := {source};
    var frontier := [source];
    graph := [source];
    ReachableSelf(adj, Avoiding(forbidden), source);
    while frontier != []
      invariant FloodInv(adj, source, forbidden, hq, visited, frontier, graph)
      decreases |AllPositions - visited|, |frontier|
    {
      var current := frontier[0];
      if current == hq {
        assert current in graph;
        return [];
      }
      FloodPop(adj, source, forbidden, hq, visited, frontier, graph);
      ghost var n := |graph| - |frontier| + 1;
      visited, frontier, graph := FloodNeighbours(adj, source, forbidden, hq, n, current, visited, frontier[1..], graph);
    }
    FloodClosed(adj, source, forbidden, hq, visited, graph);
    DistinctFromCard(graph, visited);
  }

  /** An exhausted flood has listed every reachable cell, and not the HQ. */
  lemma FloodClosed(adj: map<Pos, seq<Pos>>, source: Pos, forbidden: Pos, hq: Pos,
                    visited: set<Pos>, graph: seq<Pos>)
    requires FloodInv(adj, source, forbidden, hq, visited, [], graph)
    ensures !Reachable(adj, Avoiding(forbidden), source, hq)
    ensures forall v | Reachable(adj, Avoiding(forbidden), source, v) :: v in graph
  {
    assert Closed(adj, Avoiding(forbidden), visited) by {
      forall u | u in visited
        ensures forall v | v in Succ(adj, u) && Avoiding(forbidden)(v) :: v in visited
      {
        assert u in graph;
        var i :| 0 <= i < |graph| && graph[i] == u;
      }
    }
    forall v | Reachable(adj, Avoiding(forbidden), source, v)
      ensures v in graph
    {
      var W :| WalkFromTo(adj, Avoiding(forbidden), W, source, v);
      ClosedContainsWalk(adj, Avoiding(forbidden), visited, W);
    }
  }
}
