/** get_articulation_points / articulation_point_inner: Tarjan's depth-first
    search for the cut vertices of one side's territory graph. The maps the
    source shares by reference and its static discovery counter travel in
    a DfsState that each call takes and hands back. */
module Articulation {
  import opened Grid
  import opened Paths

  /** The parent recorded for a depth-first root. */
  const NoParent: Pos := Pos(-1, -1)

  datatype DfsState = DfsState(visited: map<Pos, bool>, disc: map<Pos, int>, low: map<Pos, int>,
                               parent: map<Pos, Pos>, ap: map<Pos, bool>, time: int)

  // Reads through operator[], which yields the value-initialised entry
  // (false, 0, Position()) for a missing key.

  function Seen(s: DfsState, v: Pos): bool {
    v in s.visited && s.visited[v]
  }

  function DiscOf(s: DfsState, v: Pos): int {
    if v in s.disc then s.disc[v] else 0
  }

  function LowOf(s: DfsState, v: Pos): int {
    if v in s.low then s.low[v] else 0
  }

  function ParentOf(s: DfsState, v: Pos): Pos {
    if v in s.parent then s.parent[v] else Pos(0, 0)
  }

  function ApOf(s: DfsState, v: Pos): bool {
    v in s.ap && s.ap[v]
  }

  function Min(a: int, b: int): int {
    if a < b then a else b
  }

  ghost function SeenSet(s: DfsState): set<Pos> {
    set v | v in s.visited && s.visited[v]
  }

  /** v was discovered between state s and state t. */
  predicate IsNew(s: DfsState, t: DfsState, v: Pos) {
    Seen(t, v) && !Seen(s, v)
  }

  /** Cells not yet seen in s may be entered. */
  function Unseen(s: DfsState): Pos -> bool {
    v => !Seen(s, v)
  }

  /** Cells not yet seen in s, and the cell y, may be entered. */
  function UnseenOr(s: DfsState, y: Pos): Pos -> bool {
    v => !Seen(s, v) || v == y
  }

  function InSet(S: set<Pos>): Pos -> bool {
    v => v in S
  }

  /** A territory graph: undirected, without self-loops, and without the
      sentinel parent among its cells. */
  ghost predicate Undirected(adj: map<Pos, seq<Pos>>) {
    Symmetric(adj) && (forall v | v in adj :: v !in adj[v]) && NoParent !in adj
  }

  /** u is a cut vertex: two of its neighbours can no longer reach each
      other once u is removed. */
  ghost predicate IsCut(adj: map<Pos, seq<Pos>>, u: Pos) {
    u in adj && exists a, b | a in adj[u] && b in adj[u] :: !Reachable(adj, Avoiding(u), a, b)
  }

  ghost predicate SeenInGraph(adj: map<Pos, seq<Pos>>, s: DfsState) {
    forall v | Seen(s, v) :: v in adj
  }

  ghost predicate Wf(s: DfsState) {
    forall v | Seen(s, v) :: LowOf(s, v) <= DiscOf(s, v) <= s.time
  }

  ghost predicate NoApUnseen(s: DfsState) {
    forall v | !Seen(s, v) :: !ApOf(s, v)
  }

  /** Every seen cell outside the active call stack S has all its
      neighbours seen. */
  ghost predicate Finished(adj: map<Pos, seq<Pos>>, s: DfsState, S: set<Pos>) {
    forall v | Seen(s, v) && v !in S :: forall y | y in Succ(adj, v) :: Seen(s, y)
  }

  /** What a call leaves alone: the entries of cells seen before it, and the
      parent of every cell it did not discover. */
  ghost predicate Keeps(s: DfsState, t: DfsState) {
    KeepsSeen(s, t) && forall v | !IsNew(s, t, v) :: ParentOf(t, v) == ParentOf(s, v)
  }

  ghost predicate KeepsSeen(s: DfsState, t: DfsState) {
    s.time <= t.time &&
    forall v | Seen(s, v) :: Seen(t, v) && DiscOf(t, v) == DiscOf(s, v) && LowOf(t, v) == LowOf(s, v) && ApOf(t, v) == ApOf(s, v)
  }

  /** The state is sound and only grew from s. */
  ghost predicate Base(adj: map<Pos, seq<Pos>>, s: DfsState, t: DfsState) {
    SeenInGraph(adj, t) && Wf(t) && NoApUnseen(t) && Keeps(s, t)
  }

  /** u took the next discovery time; everything found since is later. */
  ghost predicate Stamp(s: DfsState, t: DfsState, u: Pos) {
    Seen(t, u) && DiscOf(t, u) == s.time + 1 && ParentOf(t, u) == ParentOf(s, u) &&
    forall v | IsNew(s, t, v) :: s.time < DiscOf(t, v)
  }

  /** The call stack S below u: empty for a root, else it holds u's parent,
      which lists u, and its cells are linked to that parent inside S. */
  ghost predicate StackOk(adj: map<Pos, seq<Pos>>, S: set<Pos>, s: DfsState, u: Pos) {
    (forall y | y in S :: Seen(s, y)) &&
    ((S == {} && ParentOf(s, u) == NoParent) ||
     (ParentOf(s, u) in S && u in Succ(adj, ParentOf(s, u)) &&
      forall y | y in S :: Reachable(adj, InSet(S), y, ParentOf(s, u))))
  }

  /** low[u] is at most the discovery time of every stack cell adjacent to a
      cell discovered below u. */
  ghost predicate LowBelow(adj: map<Pos, seq<Pos>>, S: set<Pos>, s: DfsState, t: DfsState, u: Pos) {
    forall x | IsNew(s, t, x) && x != u :: forall y | y in Succ(adj, x) && y in S :: LowOf(t, u) <= DiscOf(s, y)
  }

  /** ... and of every stack cell u itself lists, bar its parent. */
  ghost predicate LowAtU(adj: map<Pos, seq<Pos>>, S: set<Pos>, s: DfsState, t: DfsState, u: Pos) {
    forall y | y in Succ(adj, u) && y in S && y != ParentOf(s, u) :: LowOf(t, u) <= DiscOf(s, y)
  }

  /** A low value below u's own time is the time of a stack cell that u
      reaches through cells discovered since s. */
  ghost predicate Witness(adj: map<Pos, seq<Pos>>, S: set<Pos>, s: DfsState, t: DfsState, u: Pos) {
    LowOf(t, u) < DiscOf(t, u) ==>
      exists y | y in S :: LowOf(t, u) == DiscOf(s, y) && Reachable(adj, UnseenOr(s, y), u, y)
  }

  /** Everything discovered since s hangs off u through such cells. */
  ghost predicate Connected(adj: map<Pos, seq<Pos>>, s: DfsState, t: DfsState, u: Pos) {
    forall x | IsNew(s, t, x) :: Reachable(adj, Unseen(s), u, x)
  }

  /** The ap flag of each cell discovered since s, other than u, is right. */
  ghost predicate ApRight(adj: map<Pos, seq<Pos>>, s: DfsState, t: DfsState, u: Pos) {
    forall x | IsNew(s, t, x) && x != u :: ApOf(t, x) <==> IsCut(adj, x)
  }

  /** Root rule bookkeeping: the flag counts children, and while there is a
      single child every cell found so far hangs off it. */
  ghost predicate RootInv(adj: map<Pos, seq<Pos>>, s: DfsState, t: DfsState, u: Pos, children: int, kid: Pos) {
    children >= 0 && (ApOf(t, u) <==> children >= 2) && (ApOf(t, u) ==> IsCut(adj, u)) &&
    (children == 0 ==> forall v | IsNew(s, t, v) :: v == u) &&
    (children >= 1 ==> kid in Succ(adj, u) && kid != u && IsNew(s, t, kid)) &&
    (children == 1 ==> forall x | IsNew(s, t, x) && x != u :: Reachable(adj, Avoiding(u), kid, x))
  }

  /** Non-root rule bookkeeping: a raised flag is a proven cut; while it is
      down every cell found so far reaches the stack around u. */
  ghost predicate NonRootInv(adj: map<Pos, seq<Pos>>, S: set<Pos>, s: DfsState, t: DfsState, u: Pos) {
    (ApOf(t, u) ==> IsCut(adj, u)) &&
    (!ApOf(t, u) ==> forall x | IsNew(s, t, x) && x != u :: exists y | y in S :: Reachable(adj, Avoiding(u), x, y))
  }

  /** The neighbours of u scanned so far are seen and bound low[u]. */
  ghost predicate Scanned(S: set<Pos>, s: DfsState, t: DfsState, u: Pos, nbrs: seq<Pos>, i: int) {
    0 <= i <= |nbrs| &&
    (forall j | 0 <= j < i :: Seen(t, nbrs[j])) &&
    (forall j | 0 <= j < i :: nbrs[j] in S && nbrs[j] != ParentOf(s, u) ==> LowOf(t, u) <= DiscOf(s, nbrs[j]))
  }

  /** The invariant of the scan over u's neighbours. */
  ghost predicate ScanInv(adj: map<Pos, seq<Pos>>, S: set<Pos>, s: DfsState, t: DfsState, u: Pos,
                          nbrs: seq<Pos>, i: int, children: int, kid: Pos) {
    Base(adj, s, t) && Stamp(s, t, u) && Finished(adj, t, S + {u}) &&
    Scanned(S, s, t, u, nbrs, i) &&
    LowBelow(adj, S, s, t, u) && Witness(adj, S, s, t, u) &&
    Connected(adj, s, t, u) && ApRight(adj, s, t, u) &&
    (S == {} ==> RootInv(adj, s, t, u, children, kid)) &&
    (S != {} ==> NonRootInv(adj, S, s, t, u))
  }

  /** What the caller needs of the call on u. */
  ghost predicate CallPost(adj: map<Pos, seq<Pos>>, S: set<Pos>, s: DfsState, t: DfsState, u: Pos) {
    Base(adj, s, t) && Stamp(s, t, u) && Finished(adj, t, S) &&
    LowBelow(adj, S, s, t, u) && LowAtU(adj, S, s, t, u) && Witness(adj, S, s, t, u) &&
    Connected(adj, s, t, u) && ApRight(adj, s, t, u) && (ApOf(t, u) <==> IsCut(adj, u))
  }

  ghost predicate CallPre(adj: map<Pos, seq<Pos>>, S: set<Pos>, s: DfsState, u: Pos) {
    Undirected(adj) && u in adj && !Seen(s, u) &&
    SeenInGraph(adj, s) && Wf(s) && NoApUnseen(s) && Finished(adj, s, S) && StackOk(adj, S, s, u)
  }

  lemma SeenSetShrinks(adj: map<Pos, seq<Pos>>, s: DfsState, t: DfsState, u: Pos)
    requires forall v | Seen(s, v) :: Seen(t, v)
    requires u in adj && Seen(t, u) && !Seen(s, u)
    ensures |adj.Keys - SeenSet(t)| < |adj.Keys - SeenSet(s)|
  {
    var A, B := adj.Keys - SeenSet(t), adj.Keys - SeenSet(s);
    forall v | v in A
      ensures v in B - {u}
    {
      assert !Seen(t, v);
    }
    assert u in B;
    SubsetCard(A, B - {u});
  }

  lemma {:induction false} SubsetCard<T>(A: set<T>, B: set<T>)
    requires A <= B
    ensures |A| <= |B|
    decreases |B|
  {
    if A != {} {
      var a :| a in A;
      SubsetCard(A - {a}, B - {a});
    }
  }

  /** A cell listed by an unseen cell x and lying off the stack is unseen:
      a finished cell has all its neighbours seen. */
  lemma NeighbourUnseen(adj: map<Pos, seq<Pos>>, s: DfsState, S: set<Pos>, x: Pos, y: Pos)
    requires Symmetric(adj) && Finished(adj, s, S)
    requires x in adj && y in Succ(adj, x) && y !in S && !Seen(s, x)
    ensures !Seen(s, y)
  {
    assert y in adj && x in adj[y];
  }

  /** A seen neighbour of an unseen cell is on the stack. */
  lemma SeenNeighbourOnStack(adj: map<Pos, seq<Pos>>, s: DfsState, S: set<Pos>, x: Pos, y: Pos)
    requires Symmetric(adj) && Finished(adj, s, S)
    requires x in adj && y in Succ(adj, x) && Seen(s, y) && !Seen(s, x)
    ensures y in S
  {
    assert y in adj && x in adj[y];
  }

  /** The state right after u is marked and stamped. */
  ghost predicate Stamped(s: DfsState, t: DfsState, u: Pos) {
    t == s.(visited := s.visited[u := true], disc := s.disc[u := s.time + 1],
            low := s.low[u := s.time + 1], time := s.time + 1)
  }

  lemma StampFacts(s: DfsState, t: DfsState, u: Pos)
    requires Stamped(s, t, u)
    ensures forall v :: IsNew(s, t, v) <==> !Seen(s, u) && v == u
    ensures forall v | v != u :: Seen(t, v) == Seen(s, v) && DiscOf(t, v) == DiscOf(s, v) && LowOf(t, v) == LowOf(s, v)
    ensures forall v :: ApOf(t, v) == ApOf(s, v) && ParentOf(t, v) == ParentOf(s, v)
    ensures Seen(t, u) && DiscOf(t, u) == LowOf(t, u) == t.time == s.time + 1
  {
  }

  lemma ScanStartBase(adj: map<Pos, seq<Pos>>, S: set<Pos>, s: DfsState, t: DfsState, u: Pos)
    requires CallPre(adj, S, s, u) && Stamped(s, t, u)
    ensures Base(adj, s, t) && Stamp(s, t, u) && Finished(adj, t, S + {u})
  {
    StampFacts(s, t, u);
    forall v | Seen(t, v)
      ensures LowOf(t, v) <= DiscOf(t, v) <= t.time
    {
      if v != u {
        assert Seen(s, v);
      }
    }
    forall v | Seen(t, v) && v !in S + {u}
      ensures forall y | y in Succ(adj, v) :: Seen(t, y)
    {
      assert Seen(s, v);
    }
  }

  lemma ScanStartRest(adj: map<Pos, seq<Pos>>, S: set<Pos>, s: DfsState, t: DfsState, u: Pos)
    requires CallPre(adj, S, s, u) && Stamped(s, t, u)
    ensures Scanned(S, s, t, u, Succ(adj, u), 0) && LowBelow(adj, S, s, t, u) && Witness(adj, S, s, t, u)
    ensures Connected(adj, s, t, u) && ApRight(adj, s, t, u)
    ensures S == {} ==> RootInv(adj, s, t, u, 0, u)
    ensures S != {} ==> NonRootInv(adj, S, s, t, u)
  {
    StampFacts(s, t, u);
    ReachableSelf(adj, Unseen(s), u);
  }

  lemma ScanStart(adj: map<Pos, seq<Pos>>, S: set<Pos>, s: DfsState, t: DfsState, u: Pos)
    requires CallPre(adj, S, s, u) && Stamped(s, t, u)
    ensures ScanInv(adj, S, s, t, u, Succ(adj, u), 0, 0, u)
  {
    ScanStartBase(adj, S, s, t, u);
    ScanStartRest(adj, S, s, t, u);
  }

  /** Root rule: when a root's second child is still unseen after the first
      child's call, the first child's cells are a closed pocket without u. */
  lemma RootSplit(adj: map<Pos, seq<Pos>>, S: set<Pos>, s: DfsState, t: DfsState, u: Pos, kid: Pos, next: Pos)
    requires Undirected(adj) && u in adj && S == {}
    requires Finished(adj, s, S) && Finished(adj, t, S + {u}) && Keeps(s, t) && Seen(t, u)
    requires RootInv(adj, s, t, u, 1, kid) && IsNew(s, t, kid)
    requires next in Succ(adj, u) && !Seen(t, next)
    ensures IsCut(adj, u)
  {
    var C := set x | x in adj && IsNew(s, t, x) && x != u;
    assert Closed(adj, Avoiding(u), C) by {
      forall x, y | x in C && y in Succ(adj, x) && Avoiding(u)(y)
        ensures y in C
      {
        assert Seen(t, y);
        NeighbourUnseen(adj, s, S, x, y);
      }
    }
    assert kid in C;
    ClosedSeparates(adj, Avoiding(u), C, kid, next);
  }

  /** The stack handed to a child: the caller's stack plus u. */
  lemma ChildStack(adj: map<Pos, seq<Pos>>, S: set<Pos>, s: DfsState, t: DfsState, t1: DfsState, u: Pos, next: Pos)
    requires Undirected(adj) && StackOk(adj, S, s, u) && Keeps(s, t) && Seen(t, u)
    requires next in Succ(adj, u) && !Seen(t, next)
    requires t1 == t.(parent := t.parent[next := u])
    ensures StackOk(adj, S + {u}, t1, next)
  {
    assert ParentOf(t1, next) == u;
    forall y | y in S + {u}
      ensures Reachable(adj, InSet(S + {u}), y, u)
    {
      if y == u {
        ReachableSelf(adj, InSet(S + {u}), u);
      } else {
        var p := ParentOf(s, u);
        ReachableMono(adj, InSet(S), InSet(S + {u}), y, p);
        ReachableStep(adj, InSet(S + {u}), y, p, u);
      }
    }
    forall y | y in S + {u}
      ensures Seen(t1, y)
    {
      if y != u {
        assert Seen(s, y);
      }
    }
  }

  /** Non-root rule: a child whose low value does not climb above u leaves
      its cells in a pocket that only u opens. */
  lemma ChildSeparates(adj: map<Pos, seq<Pos>>, S: set<Pos>, s: DfsState, t1: DfsState, t2: DfsState, u: Pos, next: Pos)
    requires Undirected(adj) && u in adj && u !in S && (forall y | y in S :: Seen(s, y) && DiscOf(s, y) <= s.time)
    requires KeepsSeen(s, t1) && Seen(t1, u) && DiscOf(t1, u) == s.time + 1
    requires StackOk(adj, S, s, u) && S != {}
    requires Finished(adj, t1, S + {u}) && Finished(adj, t2, S + {u}) && Keeps(t1, t2)
    requires next in Succ(adj, u) && ParentOf(t1, next) == u && IsNew(t1, t2, next)
    requires LowBelow(adj, S + {u}, t1, t2, next) && LowAtU(adj, S + {u}, t1, t2, next)
    requires LowOf(t2, next) >= DiscOf(t1, u)
    ensures IsCut(adj, u)
  {
    var C := set x | x in adj && IsNew(t1, t2, x);
    assert Closed(adj, Avoiding(u), C) by {
      forall x, y | x in C && y in Succ(adj, x) && Avoiding(u)(y)
        ensures y in C
      {
        assert Seen(t2, y);
        assert y in S ==> LowOf(t2, next) <= DiscOf(t1, y) by {
          if x == next && y in S {
            assert y != ParentOf(t1, next);
          }
        }
        assert y in S ==> DiscOf(t1, y) == DiscOf(s, y);
        assert y !in S;
        NeighbourUnseen(adj, t1, S + {u}, x, y);
      }
    }
    var p := ParentOf(s, u);
    assert next in C && p !in C;
    ClosedSeparates(adj, Avoiding(u), C, next, p);
    assert p in adj[u];
  }

  /** Non-root rule: a child whose low value climbs above u joins its cells
      to the stack without passing u. */
  lemma ChildJoins(adj: map<Pos, seq<Pos>>, S: set<Pos>, t1: DfsState, t2: DfsState, u: Pos, next: Pos)
    requires Undirected(adj) && u !in S
    requires Seen(t1, u) && !Seen(t1, next) && Stamp(t1, t2, next)
    requires Witness(adj, S + {u}, t1, t2, next) && Connected(adj, t1, t2, next)
    requires LowOf(t2, next) < DiscOf(t1, u) && DiscOf(t1, u) <= t1.time
    ensures forall x | IsNew(t1, t2, x) :: exists y | y in S :: Reachable(adj, Avoiding(u), x, y)
  {
    var y :| y in S + {u} && LowOf(t2, next) == DiscOf(t1, y) && Reachable(adj, UnseenOr(t1, y), next, y);
    assert y != u && y in S;
    ReachableMono(adj, UnseenOr(t1, y), Avoiding(u), next, y);
    forall x | IsNew(t1, t2, x)
      ensures Reachable(adj, Avoiding(u), x, y)
    {
      ReachableMono(adj, Unseen(t1), Avoiding(u), next, x);
      ReachableReverse(adj, Avoiding(u), next, x);
      ReachableTrans(adj, Avoiding(u), x, next, y);
    }
  }

  /** Recording a parent changes nothing the soundness predicates read. */
  lemma ParentUpdateSound(adj: map<Pos, seq<Pos>>, S: set<Pos>, t0: DfsState, t1: DfsState, next: Pos, u: Pos)
    requires t1 == t0.(parent := t0.parent[next := u])
    requires SeenInGraph(adj, t0) && Wf(t0) && NoApUnseen(t0) && Finished(adj, t0, S)
    ensures SeenInGraph(adj, t1) && Wf(t1) && NoApUnseen(t1) && Finished(adj, t1, S)
  {
    assert forall v :: Seen(t1, v) == Seen(t0, v) && DiscOf(t1, v) == DiscOf(t0, v) &&
                       LowOf(t1, v) == LowOf(t0, v) && ApOf(t1, v) == ApOf(t0, v);
  }

  /** The call on the first unseen neighbour next can start. */
  lemma ChildPre(adj: map<Pos, seq<Pos>>, S: set<Pos>, s: DfsState, t0: DfsState, u: Pos,
                 nbrs: seq<Pos>, i: int, children: int, kid: Pos)
    requires CallPre(adj, S, s, u)
    requires ScanInv(adj, S, s, t0, u, nbrs, i, children, kid)
    requires nbrs == Succ(adj, u) && 0 <= i < |nbrs| && !Seen(t0, nbrs[i])
    ensures CallPre(adj, S + {u}, t0.(parent := t0.parent[nbrs[i] := u]), nbrs[i])
    ensures |adj.Keys - SeenSet(t0.(parent := t0.parent[nbrs[i] := u]))| < |adj.Keys - SeenSet(s)|
    ensures S == {} && children == 1 ==> IsCut(adj, u)
  {
    var next := nbrs[i];
    var t1 := t0.(parent := t0.parent[next := u]);
    if S == {} && children == 1 {
      RootSplit(adj, S, s, t0, u, kid, next);
    }
    ChildStack(adj, S, s, t0, t1, u, next);
    ParentUpdateSound(adj, S + {u}, t0, t1, next, u);
    SeenSetShrinks(adj, s, t1, u);
    assert next in adj;
  }

  /** The updates that follow a child call on next: the root rule, the
      non-root rule, and low[u] taking the child's low value. */
  ghost predicate ChildUpdated(t2: DfsState, t: DfsState, u: Pos, next: Pos, children: int) {
    t.visited == t2.visited && t.disc == t2.disc && t.parent == t2.parent && t.time == t2.time &&
    t.low == t2.low[u := Min(LowOf(t2, u), LowOf(t2, next))] &&
    (forall v | v != u :: ApOf(t, v) == ApOf(t2, v)) &&
    (ApOf(t, u) <==> ApOf(t2, u) || (ParentOf(t2, u) == NoParent && children > 1) ||
                     (ParentOf(t2, u) != NoParent && LowOf(t2, next) >= DiscOf(t2, u)))
  }

  /** The facts about u and next that the steps below share. */
  lemma ChildBasics(S: set<Pos>, s: DfsState, t0: DfsState, t1: DfsState, t2: DfsState, t: DfsState,
                    u: Pos, next: Pos, c: int)
    requires u !in S && (forall y | y in S :: Seen(s, y)) && !Seen(s, u)
    requires Keeps(s, t0) && Stamp(s, t0, u) && !Seen(t0, next)
    requires t1 == t0.(parent := t0.parent[next := u])
    requires Keeps(t1, t2) && Stamp(t1, t2, next) && ChildUpdated(t2, t, u, next, c)
    ensures next != u && next !in S && Seen(t, next) && !Seen(s, next) && IsNew(t1, t2, next)
    ensures LowOf(t2, u) == LowOf(t0, u) && DiscOf(t, u) == DiscOf(t0, u) && DiscOf(t1, u) == DiscOf(t0, u)
    ensures ApOf(t2, u) == ApOf(t0, u) && ParentOf(t2, u) == ParentOf(s, u) && ParentOf(t1, next) == u
    ensures LowOf(t, u) == Min(LowOf(t0, u), LowOf(t2, next))
    ensures forall v | Seen(s, v) :: Seen(t1, v)
    ensures forall v | Seen(t0, v) :: Seen(t, v)
    ensures forall v :: IsNew(s, t, v) <==> IsNew(s, t0, v) || IsNew(t1, t2, v)
    ensures forall y | y in S :: DiscOf(t1, y) == DiscOf(s, y)
  {
    assert Seen(t1, u);
    forall v | Seen(t0, v)
      ensures Seen(t, v)
    {
      assert Seen(t1, v) && Seen(t2, v);
    }
  }

  /** The sound-state part of the invariant survives a child call. */
  lemma ChildSound(adj: map<Pos, seq<Pos>>, S: set<Pos>, t2: DfsState, t: DfsState, u: Pos, next: Pos, c: int)
    requires SeenInGraph(adj, t2) && Wf(t2) && NoApUnseen(t2) && Finished(adj, t2, S + {u}) && Seen(t2, u)
    requires ChildUpdated(t2, t, u, next, c)
    ensures SeenInGraph(adj, t) && Wf(t) && NoApUnseen(t) && Finished(adj, t, S + {u})
  {
    forall v | Seen(t, v)
      ensures LowOf(t, v) <= DiscOf(t, v) <= t.time
    {
      assert Seen(t2, v);
    }
    forall v | !Seen(t, v)
      ensures !ApOf(t, v)
    {
      assert !Seen(t2, v) && v != u;
    }
  }

  lemma ChildKeeps(s: DfsState, t0: DfsState, t1: DfsState, t2: DfsState, t: DfsState, u: Pos, next: Pos, c: int)
    requires Keeps(s, t0) && !Seen(s, u) && !Seen(t0, next) && Seen(t2, next)
    requires t1 == t0.(parent := t0.parent[next := u])
    requires Keeps(t1, t2) && ChildUpdated(t2, t, u, next, c)
    requires forall v :: IsNew(s, t, v) <==> IsNew(s, t0, v) || IsNew(t1, t2, v)
    ensures Keeps(s, t)
  {
    forall v | Seen(s, v)
      ensures Seen(t, v) && DiscOf(t, v) == DiscOf(s, v) && LowOf(t, v) == LowOf(s, v) && ApOf(t, v) == ApOf(s, v)
    {
      assert Seen(t0, v) && Seen(t1, v) && v != u;
    }
    forall v | !IsNew(s, t, v)
      ensures ParentOf(t, v) == ParentOf(s, v)
    {
      assert !IsNew(t1, t2, v) && v != next;
    }
  }

  lemma ChildStamp(s: DfsState, t0: DfsState, t1: DfsState, t2: DfsState, t: DfsState, u: Pos, next: Pos, c: int)
    requires Stamp(s, t0, u) && s.time <= t0.time
    requires t1 == t0.(parent := t0.parent[next := u])
    requires Keeps(t1, t2) && Stamp(t1, t2, next) && ChildUpdated(t2, t, u, next, c)
    requires forall v :: IsNew(s, t, v) <==> IsNew(s, t0, v) || IsNew(t1, t2, v)
    requires DiscOf(t, u) == DiscOf(t0, u) && ParentOf(t2, u) == ParentOf(s, u)
    ensures Stamp(s, t, u)
  {
    forall v | IsNew(s, t, v)
      ensures s.time < DiscOf(t, v)
    {
      if IsNew(s, t0, v) {
        assert Seen(t1, v);
      }
    }
  }

  lemma ChildScanned(S: set<Pos>, s: DfsState, t0: DfsState, t: DfsState, u: Pos, nbrs: seq<Pos>, i: int, next: Pos)
    requires Scanned(S, s, t0, u, nbrs, i) && i < |nbrs| && next == nbrs[i] && next !in S && Seen(t, next)
    requires forall v | Seen(t0, v) :: Seen(t, v)
    requires LowOf(t, u) <= LowOf(t0, u)
    ensures Scanned(S, s, t, u, nbrs, i + 1)
  {
  }

  /** low[u] still bounds the stack cells next to u's subtree. */
  lemma ChildLowBelow(adj: map<Pos, seq<Pos>>, S: set<Pos>, s: DfsState, t0: DfsState, t1: DfsState, t2: DfsState,
                      t: DfsState, u: Pos, next: Pos)
    requires LowBelow(adj, S, s, t0, u) && LowBelow(adj, S + {u}, t1, t2, next) && LowAtU(adj, S + {u}, t1, t2, next)
    requires forall v :: IsNew(s, t, v) <==> IsNew(s, t0, v) || IsNew(t1, t2, v)
    requires LowOf(t, u) == Min(LowOf(t0, u), LowOf(t2, next)) && ParentOf(t1, next) == u && u !in S
    requires forall y | y in S :: DiscOf(t1, y) == DiscOf(s, y)
    ensures LowBelow(adj, S, s, t, u)
  {
    forall x, y | IsNew(s, t, x) && x != u && y in Succ(adj, x) && y in S
      ensures LowOf(t, u) <= DiscOf(s, y)
    {
      if IsNew(t1, t2, x) {
        assert y != u;
        if x == next {
          assert y != ParentOf(t1, next);
        }
      }
    }
  }

  /** A low value below u's time still has its witness on the stack. */
  lemma ChildWitness(adj: map<Pos, seq<Pos>>, S: set<Pos>, s: DfsState, t0: DfsState, t1: DfsState, t2: DfsState,
                     t: DfsState, u: Pos, next: Pos)
    requires Witness(adj, S, s, t0, u) && Witness(adj, S + {u}, t1, t2, next)
    requires LowOf(t, u) == Min(LowOf(t0, u), LowOf(t2, next)) && DiscOf(t, u) == DiscOf(t0, u)
    requires DiscOf(t1, u) == DiscOf(t0, u) && LowOf(t0, u) <= DiscOf(t0, u) <= t0.time
    requires t1.time == t0.time && DiscOf(t2, next) == t1.time + 1
    requires forall y | y in S :: DiscOf(t1, y) == DiscOf(s, y)
    requires forall v | Seen(s, v) :: Seen(t1, v)
    requires next in Succ(adj, u) && !Seen(s, next)
    ensures Witness(adj, S, s, t, u)
  {
    if LowOf(t, u) < DiscOf(t, u) {
      if LowOf(t2, next) < LowOf(t0, u) {
        WitnessFromChild(adj, S, s, t1, t2, u, next);
      } else {
        var y :| y in S && LowOf(t0, u) == DiscOf(s, y) && Reachable(adj, UnseenOr(s, y), u, y);
        assert LowOf(t, u) == DiscOf(s, y);
      }
    }
  }

  /** A back edge found below the child next, above u, is one found below u. */
  lemma WitnessFromChild(adj: map<Pos, seq<Pos>>, S: set<Pos>, s: DfsState, t1: DfsState, t2: DfsState,
                         u: Pos, next: Pos)
    requires Witness(adj, S + {u}, t1, t2, next)
    requires LowOf(t2, next) < DiscOf(t1, u) && DiscOf(t2, next) == t1.time + 1 && DiscOf(t1, u) <= t1.time
    requires forall y | y in S :: DiscOf(t1, y) == DiscOf(s, y)
    requires forall v | Seen(s, v) :: Seen(t1, v)
    requires next in Succ(adj, u) && !Seen(s, next)
    ensures exists y | y in S :: LowOf(t2, next) == DiscOf(s, y) && Reachable(adj, UnseenOr(s, y), u, y)
  {
    var y :| y in S + {u} && LowOf(t2, next) == DiscOf(t1, y) && Reachable(adj, UnseenOr(t1, y), next, y);
    assert y != u;
    WitnessStep(adj, s, t1, u, next, y);
  }

  /** A path from the child next to y through cells unseen at t1 extends
      to one from u through cells unseen at s. */
  lemma WitnessStep(adj: map<Pos, seq<Pos>>, s: DfsState, t1: DfsState, u: Pos, next: Pos, y: Pos)
    requires Reachable(adj, UnseenOr(t1, y), next, y)
    requires forall v | Seen(s, v) :: Seen(t1, v)
    requires next in Succ(adj, u) && !Seen(s, next)
    ensures Reachable(adj, UnseenOr(s, y), u, y)
  {
    ReachableMono(adj, UnseenOr(t1, y), UnseenOr(s, y), next, y);
    ReachableSelf(adj, UnseenOr(s, y), u);
    ReachableStep(adj, UnseenOr(s, y), u, u, next);
    ReachableTrans(adj, UnseenOr(s, y), u, next, y);
  }

  lemma ChildConnected(adj: map<Pos, seq<Pos>>, s: DfsState, t0: DfsState, t1: DfsState, t2: DfsState,
                       t: DfsState, u: Pos, next: Pos)
    requires Connected(adj, s, t0, u) && Connected(adj, t1, t2, next)
    requires forall v :: IsNew(s, t, v) <==> IsNew(s, t0, v) || IsNew(t1, t2, v)
    requires forall v | Seen(s, v) :: Seen(t1, v)
    requires next in Succ(adj, u) && !Seen(s, next)
    ensures Connected(adj, s, t, u)
  {
    forall x | IsNew(t1, t2, x)
      ensures Reachable(adj, Unseen(s), u, x)
    {
      ReachableMono(adj, Unseen(t1), Unseen(s), next, x);
      ReachableSelf(adj, Unseen(s), u);
      ReachableStep(adj, Unseen(s), u, u, next);
      ReachableTrans(adj, Unseen(s), u, next, x);
    }
  }

  lemma ChildApRight(adj: map<Pos, seq<Pos>>, s: DfsState, t0: DfsState, t1: DfsState, t2: DfsState,
                     t: DfsState, u: Pos, next: Pos)
    requires ApRight(adj, s, t0, u) && ApRight(adj, t1, t2, next) && (ApOf(t2, next) <==> IsCut(adj, next))
    requires forall v :: IsNew(s, t, v) <==> IsNew(s, t0, v) || IsNew(t1, t2, v)
    requires forall v | v != u :: ApOf(t, v) == ApOf(t2, v)
    requires KeepsSeen(t1, t2) && t1.visited == t0.visited && t1.ap == t0.ap
    ensures ApRight(adj, s, t, u)
  {
    forall x | IsNew(s, t, x) && x != u
      ensures ApOf(t, x) <==> IsCut(adj, x)
    {
      if IsNew(s, t0, x) {
        assert Seen(t1, x);
      }
    }
  }

  /** The root rule across one child call. */
  lemma ChildRoot(adj: map<Pos, seq<Pos>>, s: DfsState, t0: DfsState, t1: DfsState, t2: DfsState,
                  t: DfsState, u: Pos, next: Pos, c: int, kid: Pos)
    requires RootInv(adj, s, t0, u, c, kid) && (c == 1 ==> IsCut(adj, u))
    requires next in Succ(adj, u) && next != u && IsNew(t1, t2, next) && Seen(t1, u)
    requires Connected(adj, t1, t2, next)
    requires forall v :: IsNew(s, t, v) <==> IsNew(s, t0, v) || IsNew(t1, t2, v)
    requires ApOf(t, u) <==> ApOf(t0, u) || c + 1 > 1
    ensures RootInv(adj, s, t, u, c + 1, if c == 0 then next else kid)
  {
    if c == 0 {
      forall x | IsNew(s, t, x) && x != u
        ensures Reachable(adj, Avoiding(u), next, x)
      {
        assert IsNew(t1, t2, x);
        ReachableMono(adj, Unseen(t1), Avoiding(u), next, x);
      }
    }
  }

  /** A non-root's parent is a real cell on the stack. */
  lemma ParentOnStack(adj: map<Pos, seq<Pos>>, S: set<Pos>, s: DfsState, u: Pos)
    requires CallPre(adj, S, s, u) && S != {}
    ensures ParentOf(s, u) in S && ParentOf(s, u) != NoParent
  {
    assert Seen(s, ParentOf(s, u));
  }

  /** The non-root rule across one child call. */
  lemma ChildNonRoot(adj: map<Pos, seq<Pos>>, S: set<Pos>, s: DfsState, t0: DfsState, t1: DfsState, t2: DfsState,
                     t: DfsState, u: Pos, next: Pos)
    requires ChildFacts2(adj, S, s, t0, t1, u, next) && S != {} && StackOk(adj, S, s, u)
    requires NonRootInv(adj, S, s, t0, u) && ParentOf(t1, next) == u && DiscOf(t1, u) == DiscOf(t0, u)
    requires Finished(adj, t2, S + {u}) && Keeps(t1, t2) && Stamp(t1, t2, next)
    requires LowBelow(adj, S + {u}, t1, t2, next) && LowAtU(adj, S + {u}, t1, t2, next)
    requires Witness(adj, S + {u}, t1, t2, next) && Connected(adj, t1, t2, next)
    requires forall v :: IsNew(s, t, v) <==> IsNew(s, t0, v) || IsNew(t1, t2, v)
    requires ApOf(t, u) <==> ApOf(t0, u) || LowOf(t2, next) >= DiscOf(t0, u)
    ensures NonRootInv(adj, S, s, t, u)
  {
    if LowOf(t2, next) >= DiscOf(t0, u) {
      NonRootCut(adj, S, s, t1, t2, u, next);
    } else {
      NonRootJoin(adj, S, s, t1, t2, u, next);
      NonRootCombine(adj, S, s, t0, t1, t2, t, u);
    }
  }

  lemma NonRootCut(adj: map<Pos, seq<Pos>>, S: set<Pos>, s: DfsState, t1: DfsState, t2: DfsState, u: Pos, next: Pos)
    requires Undirected(adj) && u in adj && u !in S && (forall y | y in S :: Seen(s, y) && DiscOf(s, y) <= s.time)
    requires KeepsSeen(s, t1) && Seen(t1, u) && DiscOf(t1, u) == s.time + 1
    requires StackOk(adj, S, s, u) && S != {}
    requires Finished(adj, t1, S + {u}) && Finished(adj, t2, S + {u}) && Keeps(t1, t2)
    requires next in Succ(adj, u) && ParentOf(t1, next) == u && !Seen(t1, next) && Stamp(t1, t2, next)
    requires LowBelow(adj, S + {u}, t1, t2, next) && LowAtU(adj, S + {u}, t1, t2, next)
    requires LowOf(t2, next) >= DiscOf(t1, u)
    ensures IsCut(adj, u)
  {
    ChildSeparates(adj, S, s, t1, t2, u, next);
  }

  lemma NonRootJoin(adj: map<Pos, seq<Pos>>, S: set<Pos>, s: DfsState, t1: DfsState, t2: DfsState, u: Pos, next: Pos)
    requires Undirected(adj) && u !in S
    requires Seen(t1, u) && !Seen(t1, next) && Stamp(t1, t2, next)
    requires Witness(adj, S + {u}, t1, t2, next) && Connected(adj, t1, t2, next)
    requires LowOf(t2, next) < DiscOf(t1, u) && DiscOf(t1, u) <= t1.time
    ensures forall x | IsNew(t1, t2, x) :: exists y | y in S :: Reachable(adj, Avoiding(u), x, y)
  {
    ChildJoins(adj, S, t1, t2, u, next);
  }

  lemma NonRootCombine(adj: map<Pos, seq<Pos>>, S: set<Pos>, s: DfsState, t0: DfsState, t1: DfsState, t2: DfsState,
                       t: DfsState, u: Pos)
    requires NonRootInv(adj, S, s, t0, u)
    requires forall x | IsNew(t1, t2, x) :: exists y | y in S :: Reachable(adj, Avoiding(u), x, y)
    requires forall v :: IsNew(s, t, v) <==> IsNew(s, t0, v) || IsNew(t1, t2, v)
    requires ApOf(t, u) == ApOf(t0, u)
    ensures NonRootInv(adj, S, s, t, u)
  {
  }

  /** The source's updates after the call on next returns: the root rule,
      the non-root rule, then low[u] = min(low[u], low[next]). */
  function AfterCall(t: DfsState, u: Pos, next: Pos, children: int): DfsState {
    LowerLow(NonRootRule(RootRule(t, u, children), u, next), u, next)
  }

  function RootRule(t: DfsState, u: Pos, children: int): (r: DfsState)
    ensures r.visited == t.visited && r.disc == t.disc && r.low == t.low && r.parent == t.parent && r.time == t.time
    ensures forall v | v != u :: ApOf(r, v) == ApOf(t, v)
    ensures ApOf(r, u) <==> ApOf(t, u) || (ParentOf(t, u) == NoParent && children > 1)
  {
    if ParentOf(t, u) == NoParent && children > 1 then t.(ap := t.ap[u := true]) else t
  }

  function NonRootRule(t: DfsState, u: Pos, next: Pos): (r: DfsState)
    ensures r.visited == t.visited && r.disc == t.disc && r.low == t.low && r.parent == t.parent && r.time == t.time
    ensures forall v | v != u :: ApOf(r, v) == ApOf(t, v)
    ensures ApOf(r, u) <==> ApOf(t, u) || (ParentOf(t, u) != NoParent && LowOf(t, next) >= DiscOf(t, u))
  {
    if ParentOf(t, u) != NoParent && LowOf(t, next) >= DiscOf(t, u) then t.(ap := t.ap[u := true]) else t
  }

  function LowerLow(t: DfsState, u: Pos, next: Pos): (r: DfsState)
    ensures r.visited == t.visited && r.disc == t.disc && r.ap == t.ap && r.parent == t.parent && r.time == t.time
    ensures r.low == t.low[u := Min(LowOf(t, u), LowOf(t, next))]
  {
    t.(low := t.low[u := Min(LowOf(t, u), LowOf(t, next))])
  }

  lemma AfterCallUpdates(t2: DfsState, u: Pos, next: Pos, children: int)
    ensures ChildUpdated(t2, AfterCall(t2, u, next, children), u, next, children)
  {
    var r1 := RootRule(t2, u, children);
    var r2 := NonRootRule(r1, u, next);
    assert ParentOf(r1, u) == ParentOf(t2, u) && LowOf(r1, next) == LowOf(t2, next) && DiscOf(r1, u) == DiscOf(t2, u);
    assert LowOf(r2, u) == LowOf(t2, u) && LowOf(r2, next) == LowOf(t2, next);
  }

  /** Everything known once the call on next = nbrs[i] has returned and
      the updates after it are done: t0 is the state before the call, t1
      the state handed to it, t2 the state it returned, t the state after. */
  ghost predicate ChildCtx(adj: map<Pos, seq<Pos>>, S: set<Pos>, s: DfsState, t0: DfsState, t1: DfsState,
                           t2: DfsState, t: DfsState, u: Pos, nbrs: seq<Pos>, i: int, c: int, kid: Pos) {
    CallPre(adj, S, s, u) && ScanInv(adj, S, s, t0, u, nbrs, i, c, kid) &&
    nbrs == Succ(adj, u) && 0 <= i < |nbrs| && !Seen(t0, nbrs[i]) &&
    (S == {} && c == 1 ==> IsCut(adj, u)) &&
    t1 == t0.(parent := t0.parent[nbrs[i] := u]) &&
    CallPost(adj, S + {u}, t1, t2, nbrs[i]) && ChildUpdated(t2, t, u, nbrs[i], c + 1)
  }

  /** The facts ChildBasics derives from ChildCtx. */
  ghost predicate ChildFacts(S: set<Pos>, s: DfsState, t0: DfsState, t1: DfsState, t2: DfsState, t: DfsState,
                             u: Pos, next: Pos) {
    next != u && next !in S && Seen(t, next) && !Seen(s, next) && IsNew(t1, t2, next) &&
    LowOf(t2, u) == LowOf(t0, u) && DiscOf(t, u) == DiscOf(t0, u) && DiscOf(t1, u) == DiscOf(t0, u) &&
    ApOf(t2, u) == ApOf(t0, u) && ParentOf(t2, u) == ParentOf(s, u) && ParentOf(t1, next) == u &&
    LowOf(t, u) == Min(LowOf(t0, u), LowOf(t2, next)) &&
    (forall v | Seen(s, v) :: Seen(t1, v)) &&
    (forall v | Seen(t0, v) :: Seen(t, v)) &&
    (forall v :: IsNew(s, t, v) <==> IsNew(s, t0, v) || IsNew(t1, t2, v)) &&
    (forall y | y in S :: DiscOf(t1, y) == DiscOf(s, y))
  }

  /** Further facts, derived by ChildStart2, in the form the rule lemmas
      take them. */
  ghost predicate ChildFacts2(adj: map<Pos, seq<Pos>>, S: set<Pos>, s: DfsState, t0: DfsState, t1: DfsState,
                              u: Pos, next: Pos) {
    Undirected(adj) && u in adj && u !in S && next in Succ(adj, u) &&
    (forall y | y in S :: Seen(s, y) && DiscOf(s, y) <= s.time) &&
    KeepsSeen(s, t1) && Finished(adj, t1, S + {u}) &&
    Seen(t1, u) && !Seen(t1, next) && DiscOf(t1, u) == s.time + 1 && DiscOf(t1, u) <= t1.time &&
    LowOf(t0, u) <= DiscOf(t0, u) <= t0.time && t1.time == t0.time
  }

  lemma ChildStart2(adj: map<Pos, seq<Pos>>, S: set<Pos>, s: DfsState, t0: DfsState, t1: DfsState,
                    t2: DfsState, t: DfsState, u: Pos, nbrs: seq<Pos>, i: int, c: int, kid: Pos)
    requires ChildCtx(adj, S, s, t0, t1, t2, t, u, nbrs, i, c, kid)
    ensures ChildFacts2(adj, S, s, t0, t1, u, nbrs[i])
  {
    ParentUpdateSound(adj, S + {u}, t0, t1, nbrs[i], u);
    ParentKeepsSeen(s, t0, t1, nbrs[i], u);
    assert Seen(t0, u);
  }

  lemma ParentKeepsSeen(s: DfsState, t0: DfsState, t1: DfsState, next: Pos, u: Pos)
    requires KeepsSeen(s, t0) && t1 == t0.(parent := t0.parent[next := u])
    ensures KeepsSeen(s, t1)
  {
    assert forall v :: Seen(t1, v) == Seen(t0, v) && DiscOf(t1, v) == DiscOf(t0, v) &&
                       LowOf(t1, v) == LowOf(t0, v) && ApOf(t1, v) == ApOf(t0, v);
  }

  lemma ChildStart(adj: map<Pos, seq<Pos>>, S: set<Pos>, s: DfsState, t0: DfsState, t1: DfsState,
                   t2: DfsState, t: DfsState, u: Pos, nbrs: seq<Pos>, i: int, c: int, kid: Pos)
    requires ChildCtx(adj, S, s, t0, t1, t2, t, u, nbrs, i, c, kid)
    ensures ChildFacts(S, s, t0, t1, t2, t, u, nbrs[i])
  {
    ChildBasics(S, s, t0, t1, t2, t, u, nbrs[i], c + 1);
  }

  lemma ChildGroupBase(adj: map<Pos, seq<Pos>>, S: set<Pos>, s: DfsState, t0: DfsState, t1: DfsState,
                       t2: DfsState, t: DfsState, u: Pos, nbrs: seq<Pos>, i: int, c: int, kid: Pos)
    requires ChildCtx(adj, S, s, t0, t1, t2, t, u, nbrs, i, c, kid) && ChildFacts(S, s, t0, t1, t2, t, u, nbrs[i])
    requires ChildFacts2(adj, S, s, t0, t1, u, nbrs[i])
    ensures Base(adj, s, t) && Stamp(s, t, u) && Finished(adj, t, S + {u})
  {
    var next := nbrs[i];
    ChildSound(adj, S, t2, t, u, next, c + 1);
    ChildKeeps(s, t0, t1, t2, t, u, next, c + 1);
    ChildStamp(s, t0, t1, t2, t, u, next, c + 1);
  }

  lemma ChildGroupLow(adj: map<Pos, seq<Pos>>, S: set<Pos>, s: DfsState, t0: DfsState, t1: DfsState,
                      t2: DfsState, t: DfsState, u: Pos, nbrs: seq<Pos>, i: int, c: int, kid: Pos)
    requires ChildCtx(adj, S, s, t0, t1, t2, t, u, nbrs, i, c, kid) && ChildFacts(S, s, t0, t1, t2, t, u, nbrs[i])
    requires ChildFacts2(adj, S, s, t0, t1, u, nbrs[i])
    ensures Scanned(S, s, t, u, nbrs, i + 1) && LowBelow(adj, S, s, t, u)
  {
    var next := nbrs[i];
    ChildScanned(S, s, t0, t, u, nbrs, i, next);
    ChildLowBelow(adj, S, s, t0, t1, t2, t, u, next);
  }

  lemma ChildGroupWitness(adj: map<Pos, seq<Pos>>, S: set<Pos>, s: DfsState, t0: DfsState, t1: DfsState,
                          t2: DfsState, t: DfsState, u: Pos, nbrs: seq<Pos>, i: int, c: int, kid: Pos)
    requires ChildCtx(adj, S, s, t0, t1, t2, t, u, nbrs, i, c, kid) && ChildFacts(S, s, t0, t1, t2, t, u, nbrs[i])
    requires ChildFacts2(adj, S, s, t0, t1, u, nbrs[i])
    ensures Witness(adj, S, s, t, u)
  {
    ChildWitness(adj, S, s, t0, t1, t2, t, u, nbrs[i]);
  }

  lemma ChildGroupConn(adj: map<Pos, seq<Pos>>, S: set<Pos>, s: DfsState, t0: DfsState, t1: DfsState,
                       t2: DfsState, t: DfsState, u: Pos, nbrs: seq<Pos>, i: int, c: int, kid: Pos)
    requires ChildCtx(adj, S, s, t0, t1, t2, t, u, nbrs, i, c, kid) && ChildFacts(S, s, t0, t1, t2, t, u, nbrs[i])
    requires ChildFacts2(adj, S, s, t0, t1, u, nbrs[i])
    ensures Connected(adj, s, t, u) && ApRight(adj, s, t, u)
  {
    var next := nbrs[i];
    ChildConnected(adj, s, t0, t1, t2, t, u, next);
    ChildApRight(adj, s, t0, t1, t2, t, u, next);
  }

  lemma ChildGroupRoot(adj: map<Pos, seq<Pos>>, S: set<Pos>, s: DfsState, t0: DfsState, t1: DfsState,
                       t2: DfsState, t: DfsState, u: Pos, nbrs: seq<Pos>, i: int, c: int, kid: Pos)
    requires ChildCtx(adj, S, s, t0, t1, t2, t, u, nbrs, i, c, kid) && ChildFacts(S, s, t0, t1, t2, t, u, nbrs[i])
    requires ChildFacts2(adj, S, s, t0, t1, u, nbrs[i])
    requires S == {}
    ensures RootInv(adj, s, t, u, c + 1, if c == 0 then nbrs[i] else kid)
  {
    ChildRoot(adj, s, t0, t1, t2, t, u, nbrs[i], c, kid);
  }

  lemma ChildGroupNonRoot(adj: map<Pos, seq<Pos>>, S: set<Pos>, s: DfsState, t0: DfsState, t1: DfsState,
                          t2: DfsState, t: DfsState, u: Pos, nbrs: seq<Pos>, i: int, c: int, kid: Pos)
    requires ChildCtx(adj, S, s, t0, t1, t2, t, u, nbrs, i, c, kid) && ChildFacts(S, s, t0, t1, t2, t, u, nbrs[i])
    requires ChildFacts2(adj, S, s, t0, t1, u, nbrs[i])
    requires S != {}
    ensures NonRootInv(adj, S, s, t, u)
  {
    ParentOnStack(adj, S, s, u);
    ChildNonRoot(adj, S, s, t0, t1, t2, t, u, nbrs[i]);
  }

  /** After a child call and the updates that follow it, the scan invariant
      holds one neighbour further. */
  lemma AfterChild(adj: map<Pos, seq<Pos>>, S: set<Pos>, s: DfsState, t0: DfsState, t2: DfsState, t: DfsState,
                   u: Pos, nbrs: seq<Pos>, i: int, c: int, kid: Pos)
    requires CallPre(adj, S, s, u)
    requires ScanInv(adj, S, s, t0, u, nbrs, i, c, kid)
    requires nbrs == Succ(adj, u) && 0 <= i < |nbrs| && !Seen(t0, nbrs[i])
    requires S == {} && c == 1 ==> IsCut(adj, u)
    requires CallPost(adj, S + {u}, t0.(parent := t0.parent[nbrs[i] := u]), t2, nbrs[i])
    requires ChildUpdated(t2, t, u, nbrs[i], c + 1)
    ensures ScanInv(adj, S, s, t, u, nbrs, i + 1, c + 1, if c == 0 then nbrs[i] else kid)
  {
    var t1 := t0.(parent := t0.parent[nbrs[i] := u]);
    assert ChildCtx(adj, S, s, t0, t1, t2, t, u, nbrs, i, c, kid);
    ChildStart(adj, S, s, t0, t1, t2, t, u, nbrs, i, c, kid);
    ChildStart2(adj, S, s, t0, t1, t2, t, u, nbrs, i, c, kid);
    ChildGroupBase(adj, S, s, t0, t1, t2, t, u, nbrs, i, c, kid);
    ChildGroupLow(adj, S, s, t0, t1, t2, t, u, nbrs, i, c, kid);
    ChildGroupWitness(adj, S, s, t0, t1, t2, t, u, nbrs, i, c, kid);
    ChildGroupConn(adj, S, s, t0, t1, t2, t, u, nbrs, i, c, kid);
    if S == {} {
      ChildGroupRoot(adj, S, s, t0, t1, t2, t, u, nbrs, i, c, kid);
    } else {
      ChildGroupNonRoot(adj, S, s, t0, t1, t2, t, u, nbrs, i, c, kid);
    }
  }

  /** A change of low[u] alone, to no higher value, keeps what does not
      mention low. */
  ghost predicate LowOnly(t0: DfsState, t: DfsState, u: Pos) {
    t.visited == t0.visited && t.disc == t0.disc && t.parent == t0.parent && t.ap == t0.ap && t.time == t0.time &&
    (forall v | v != u :: LowOf(t, v) == LowOf(t0, v)) && LowOf(t, u) <= LowOf(t0, u)
  }

  lemma LowUpdate(t0: DfsState, t: DfsState, u: Pos, m: int)
    requires t == t0.(low := t0.low[u := Min(LowOf(t0, u), m)])
    ensures LowOnly(t0, t, u)
  {
  }

  lemma LowOnlyBase(adj: map<Pos, seq<Pos>>, S: set<Pos>, s: DfsState, t0: DfsState, t: DfsState, u: Pos)
    requires LowOnly(t0, t, u) && !Seen(s, u)
    requires Base(adj, s, t0) && Stamp(s, t0, u) && Finished(adj, t0, S + {u})
    ensures Base(adj, s, t) && Stamp(s, t, u) && Finished(adj, t, S + {u})
  {
    assert forall v :: Seen(t, v) == Seen(t0, v) && IsNew(s, t, v) == IsNew(s, t0, v);
    forall v | Seen(t, v)
      ensures LowOf(t, v) <= DiscOf(t, v) <= t.time
    {
      assert Seen(t0, v);
    }
  }

  lemma LowOnlyRest(adj: map<Pos, seq<Pos>>, S: set<Pos>, s: DfsState, t0: DfsState, t: DfsState,
                    u: Pos, c: int, kid: Pos)
    requires LowOnly(t0, t, u)
    requires Connected(adj, s, t0, u) && ApRight(adj, s, t0, u)
    requires S == {} ==> RootInv(adj, s, t0, u, c, kid)
    requires S != {} ==> NonRootInv(adj, S, s, t0, u)
    ensures Connected(adj, s, t, u) && ApRight(adj, s, t, u)
    ensures S == {} ==> RootInv(adj, s, t, u, c, kid)
    ensures S != {} ==> NonRootInv(adj, S, s, t, u)
  {
    assert forall v :: Seen(t, v) == Seen(t0, v) && IsNew(s, t, v) == IsNew(s, t0, v) && ApOf(t, v) == ApOf(t0, v);
  }

  /** The else branch: next was seen already and is not u's parent. */
  lemma AfterSeen(adj: map<Pos, seq<Pos>>, S: set<Pos>, s: DfsState, t0: DfsState, t: DfsState,
                  u: Pos, nbrs: seq<Pos>, i: int, children: int, kid: Pos)
    requires CallPre(adj, S, s, u)
    requires ScanInv(adj, S, s, t0, u, nbrs, i, children, kid)
    requires nbrs == Succ(adj, u) && 0 <= i < |nbrs| && Seen(t0, nbrs[i]) && nbrs[i] != ParentOf(t0, u)
    requires t == t0.(low := t0.low[u := Min(LowOf(t0, u), DiscOf(t0, nbrs[i]))])
    ensures ScanInv(adj, S, s, t, u, nbrs, i + 1, children, kid)
  {
    LowUpdate(t0, t, u, DiscOf(t0, nbrs[i]));
    LowOnlyBase(adj, S, s, t0, t, u);
    LowOnlyRest(adj, S, s, t0, t, u, children, kid);
    SeenLow(adj, S, s, t0, t, u, nbrs, i);
  }

  lemma SeenLow(adj: map<Pos, seq<Pos>>, S: set<Pos>, s: DfsState, t0: DfsState, t: DfsState,
                u: Pos, nbrs: seq<Pos>, i: int)
    requires Undirected(adj) && u in adj && !Seen(s, u) && Finished(adj, s, S) && (forall y | y in S :: Seen(s, y))
    requires KeepsSeen(s, t0) && Stamp(s, t0, u) && Wf(t0)
    requires Scanned(S, s, t0, u, nbrs, i) && LowBelow(adj, S, s, t0, u) && Witness(adj, S, s, t0, u)
    requires nbrs == Succ(adj, u) && 0 <= i < |nbrs| && Seen(t0, nbrs[i]) && nbrs[i] != ParentOf(s, u)
    requires t == t0.(low := t0.low[u := Min(LowOf(t0, u), DiscOf(t0, nbrs[i]))])
    ensures Scanned(S, s, t, u, nbrs, i + 1) && LowBelow(adj, S, s, t, u) && Witness(adj, S, s, t, u)
  {
    var next := nbrs[i];
    assert LowOf(t, u) <= LowOf(t0, u);
    if Seen(s, next) {
      SeenNeighbourOnStack(adj, s, S, u, next);
      assert DiscOf(t0, next) == DiscOf(s, next);
    }
    assert DiscOf(t0, u) == DiscOf(t, u);
    if LowOf(t, u) < DiscOf(t, u) && DiscOf(t0, next) < LowOf(t0, u) {
      assert Seen(s, next);
      ReachableSelf(adj, UnseenOr(s, next), u);
      ReachableStep(adj, UnseenOr(s, next), u, u, next);
    }
  }

  /** The else branch: next is u's parent, which the scan passes over. */
  lemma SkipParent(adj: map<Pos, seq<Pos>>, S: set<Pos>, s: DfsState, t: DfsState,
                   u: Pos, nbrs: seq<Pos>, i: int, children: int, kid: Pos)
    requires ScanInv(adj, S, s, t, u, nbrs, i, children, kid)
    requires 0 <= i < |nbrs| && Seen(t, nbrs[i]) && nbrs[i] == ParentOf(t, u)
    ensures ScanInv(adj, S, s, t, u, nbrs, i + 1, children, kid)
  {
  }

  /** The scan is over: the call's postcondition. */
  lemma ScanEnd(adj: map<Pos, seq<Pos>>, S: set<Pos>, s: DfsState, t: DfsState, u: Pos, children: int, kid: Pos)
    requires CallPre(adj, S, s, u)
    requires ScanInv(adj, S, s, t, u, Succ(adj, u), |Succ(adj, u)|, children, kid)
    ensures CallPost(adj, S, s, t, u)
  {
    ScanEndFinished(adj, S, s, t, u, children, kid);
    ScanEndLowAtU(adj, S, s, t, u, children, kid);
    ScanEndNeighbours(adj, S, s, t, u, children, kid);
    ScanEndCut(adj, S, s, t, u, children, kid);
  }

  lemma ScanEndFinished(adj: map<Pos, seq<Pos>>, S: set<Pos>, s: DfsState, t: DfsState, u: Pos, children: int, kid: Pos)
    requires CallPre(adj, S, s, u)
    requires ScanInv(adj, S, s, t, u, Succ(adj, u), |Succ(adj, u)|, children, kid)
    ensures Finished(adj, t, S)
  {
    var nbrs := Succ(adj, u);
    forall v, y | Seen(t, v) && v !in S && y in Succ(adj, v)
      ensures Seen(t, y)
    {
      if v == u {
        var j :| 0 <= j < |nbrs| && nbrs[j] == y;
      }
    }
  }

  lemma ScanEndLowAtU(adj: map<Pos, seq<Pos>>, S: set<Pos>, s: DfsState, t: DfsState, u: Pos, children: int, kid: Pos)
    requires CallPre(adj, S, s, u)
    requires ScanInv(adj, S, s, t, u, Succ(adj, u), |Succ(adj, u)|, children, kid)
    ensures LowAtU(adj, S, s, t, u)
  {
    var nbrs := Succ(adj, u);
    forall y | y in Succ(adj, u) && y in S && y != ParentOf(s, u)
      ensures LowOf(t, u) <= DiscOf(s, y)
    {
      var j :| 0 <= j < |nbrs| && nbrs[j] == y;
    }
  }

  /** Every neighbour of u was discovered below u or is on the stack. */
  ghost predicate NeighboursCovered(adj: map<Pos, seq<Pos>>, S: set<Pos>, s: DfsState, t: DfsState, u: Pos)
    requires u in adj
  {
    forall a | a in adj[u] :: a != u && (a in S || IsNew(s, t, a))
  }

  lemma ScanEndNeighbours(adj: map<Pos, seq<Pos>>, S: set<Pos>, s: DfsState, t: DfsState, u: Pos, children: int, kid: Pos)
    requires CallPre(adj, S, s, u)
    requires ScanInv(adj, S, s, t, u, Succ(adj, u), |Succ(adj, u)|, children, kid)
    ensures NeighboursCovered(adj, S, s, t, u)
  {
    var nbrs := Succ(adj, u);
    forall a | a in adj[u]
      ensures a != u && (a in S || IsNew(s, t, a))
    {
      var j :| 0 <= j < |nbrs| && nbrs[j] == a;
      assert Seen(t, a);
      if Seen(s, a) {
        SeenNeighbourOnStack(adj, s, S, u, a);
      }
    }
  }

  lemma ScanEndCut(adj: map<Pos, seq<Pos>>, S: set<Pos>, s: DfsState, t: DfsState, u: Pos, children: int, kid: Pos)
    requires CallPre(adj, S, s, u)
    requires ScanInv(adj, S, s, t, u, Succ(adj, u), |Succ(adj, u)|, children, kid)
    requires NeighboursCovered(adj, S, s, t, u)
    ensures ApOf(t, u) <==> IsCut(adj, u)
  {
    if !ApOf(t, u) {
      if S == {} {
        RootNotCut(adj, s, t, u, children, kid);
      } else {
        NonRootNotCut(adj, S, s, t, u);
      }
    }
  }

  lemma RootNotCut(adj: map<Pos, seq<Pos>>, s: DfsState, t: DfsState, u: Pos, children: int, kid: Pos)
    requires Undirected(adj) && u in adj
    requires RootInv(adj, s, t, u, children, kid) && !ApOf(t, u)
    requires forall a | a in adj[u] :: a != u && IsNew(s, t, a)
    ensures !IsCut(adj, u)
  {
    if children == 1 {
      forall a, b | a in adj[u] && b in adj[u]
        ensures Reachable(adj, Avoiding(u), a, b)
      {
        ReachableReverse(adj, Avoiding(u), kid, a);
        ReachableTrans(adj, Avoiding(u), a, kid, b);
      }
    }
  }

  lemma NonRootNotCut(adj: map<Pos, seq<Pos>>, S: set<Pos>, s: DfsState, t: DfsState, u: Pos)
    requires Undirected(adj) && u in adj && u !in S && S != {} && StackOk(adj, S, s, u)
    requires NonRootInv(adj, S, s, t, u) && !ApOf(t, u)
    requires forall a | a in adj[u] :: a != u && (a in S || IsNew(s, t, a))
    ensures !IsCut(adj, u)
  {
    var p := ParentOf(s, u);
    forall a | a in adj[u]
      ensures Reachable(adj, Avoiding(u), a, p)
    {
      if a in S {
        ReachableMono(adj, InSet(S), Avoiding(u), a, p);
      } else {
        var y :| y in S && Reachable(adj, Avoiding(u), a, y);
        ReachableMono(adj, InSet(S), Avoiding(u), y, p);
        ReachableTrans(adj, Avoiding(u), a, y, p);
      }
    }
    forall a, b | a in adj[u] && b in adj[u]
      ensures Reachable(adj, Avoiding(u), a, b)
    {
      ReachableReverse(adj, Avoiding(u), b, p);
      ReachableTrans(adj, Avoiding(u), a, p, b);
    }
  }

  /** articulation_point_inner: visits u, recurses into each unseen
      neighbour, and raises ap[u] by the root and non-root rules. S is the
      set of cells whose calls are still running (u's ancestors). */
  method ArticulationPointInner(adj: map<Pos, seq<Pos>>, u: Pos, s: DfsState, ghost S: set<Pos>) returns (t: DfsState)
    requires CallPre(adj, S, s, u)
    ensures CallPost(adj, S, s, t, u)
    decreases |adj.Keys - SeenSet(s)|
  {
    var time := s.time + 1;
    t := s.(visited := s.visited[u := true], disc := s.disc[u := time], low := s.low[u := time], time := time);
    assert Stamped(s, t, u);
    ScanStart(adj, S, s, t, u);
    var children := 0;
    ghost var kid := u;
    var nbrs := Succ(adj, u);
    for i := 0 to |nbrs|
      invariant ScanInv(adj, S, s, t, u, nbrs, i, children, kid)
    {
      var next := nbrs[i];
      if !Seen(t, next) {
        ghost var t0 := t;
        ChildPre(adj, S, s, t0, u, nbrs, i, children, kid);
        children := children + 1;
        t := t.(parent := t.parent[next := u]);
        t := ArticulationPointInner(adj, next, t, S + {u});
        ghost var t2 := t;
        t := AfterCall(t, u, next, children);
        AfterCallUpdates(t2, u, next, children);
        AfterChild(adj, S, s, t0, t2, t, u, nbrs, i, children - 1, kid);
        if children == 1 {
          kid := next;
        }
      } else if next != ParentOf(t, u) {
        ghost var t0 := t;
        t := t.(low := t.low[u := Min(LowOf(t, u), DiscOf(t, next))]);
        AfterSeen(adj, S, s, t0, t, u, nbrs, i, children, kid);
      } else {
        SkipParent(adj, S, s, t, u, nbrs, i, children, kid);
      }
    }
    ScanEnd(adj, S, s, t, u, children, kid);
  }

  /** get_articulation_points: every position starts unseen, with parent
      (-1, -1) and a lowered flag; a search is started from each position
      still unseen; the flagged cells are collected, in the unspecified
      order of the ap map. The discovery counter carries over from time0. */
  method GetArticulationPoints(adj: map<Pos, seq<Pos>>, positions: seq<Pos>, time0: int) returns (points: seq<Pos>, time: int)
    requires Undirected(adj)
    requires forall p :: p in adj <==> p in positions
    ensures forall p :: p in points <==> p in positions && IsCut(adj, p)
    ensures forall i, j | 0 <= i < j < |points| :: points[i] != points[j]
    ensures time >= time0
  {
    var s := InitialState(positions, time0);
    s := SearchAll(adj, positions, s);
    time := s.time;
    points := Flagged(s.ap);
    forall p
      ensures p in points <==> p in positions && IsCut(adj, p)
    {
      assert p in points <==> ApOf(s, p);
      if p in positions {
        var j :| 0 <= j < |positions| && positions[j] == p;
      }
    }
  }

  /** The maps before the first search: every position unseen, parentless
      and unflagged. */
  method InitialState(positions: seq<Pos>, time0: int) returns (s: DfsState)
    ensures forall v :: !Seen(s, v) && !ApOf(s, v)
    ensures forall v | v in positions :: ParentOf(s, v) == NoParent
    ensures s.time == time0
  {
    var visited: map<Pos, bool> := map[];
    var parent: map<Pos, Pos> := map[];
    var ap: map<Pos, bool> := map[];
    for k := 0 to |positions|
      invariant forall p | p in visited :: !visited[p]
      invariant forall p | p in ap :: !ap[p]
      invariant forall p | p in positions[..k] :: p in parent && parent[p] == NoParent
    {
      var pos := positions[k];
      parent := parent[pos := NoParent];
      visited := visited[pos := false];
      ap := ap[pos := false];
    }
    s := DfsState(visited, map[], map[], parent, ap, time0);
  }

  /** The loop over positions: one depth-first search from each position
      still unseen. Afterwards every position is seen and flagged exactly
      when it is a cut vertex. */
  method SearchAll(adj: map<Pos, seq<Pos>>, positions: seq<Pos>, s0: DfsState) returns (s: DfsState)
    requires Undirected(adj)
    requires forall p :: p in adj <==> p in positions
    requires forall v :: !Seen(s0, v) && !ApOf(s0, v)
    requires forall v | v in positions :: ParentOf(s0, v) == NoParent
    ensures forall v | v in positions :: Seen(s, v)
    ensures forall v :: ApOf(s, v) <==> Seen(s, v) && IsCut(adj, v)
    ensures s.time >= s0.time
  {
    s := s0;
    SearchStart(adj, positions, s0);
    for k := 0 to |positions|
      invariant SearchInv(adj, positions, s0, s, k)
    {
      var pos := positions[k];
      if !Seen(s, pos) {
        ghost var s1 := s;
        SearchPre(adj, positions, s0, s, k);
        s := ArticulationPointInner(adj, pos, s, {});
        SearchStep(adj, positions, s0, s1, s, k);
      }
    }
  }

  /** The outer loop's invariant after the first k positions. */
  ghost predicate SearchInv(adj: map<Pos, seq<Pos>>, positions: seq<Pos>, s0: DfsState, s: DfsState, k: int) {
    0 <= k <= |positions| && Undirected(adj) && (forall p :: p in adj <==> p in positions) &&
    SeenInGraph(adj, s) && Wf(s) && NoApUnseen(s) && Finished(adj, s, {}) &&
    (forall j | 0 <= j < k :: Seen(s, positions[j])) &&
    (forall v | v in adj && !Seen(s, v) :: ParentOf(s, v) == NoParent) &&
    (forall v | Seen(s, v) :: ApOf(s, v) <==> IsCut(adj, v)) &&
    s.time >= s0.time
  }

  lemma SearchStart(adj: map<Pos, seq<Pos>>, positions: seq<Pos>, s0: DfsState)
    requires Undirected(adj)
    requires forall p :: p in adj <==> p in positions
    requires forall v :: !Seen(s0, v) && !ApOf(s0, v)
    requires forall v | v in positions :: ParentOf(s0, v) == NoParent
    ensures SearchInv(adj, positions, s0, s0, 0)
  {
  }

  lemma SearchPre(adj: map<Pos, seq<Pos>>, positions: seq<Pos>, s0: DfsState, s: DfsState, k: int)
    requires SearchInv(adj, positions, s0, s, k) && k < |positions| && !Seen(s, positions[k])
    ensures CallPre(adj, {}, s, positions[k])
  {
    assert positions[k] in adj;
  }

  lemma SearchStep(adj: map<Pos, seq<Pos>>, positions: seq<Pos>, s0: DfsState, s1: DfsState, s: DfsState, k: int)
    requires SearchInv(adj, positions, s0, s1, k) && k < |positions| && !Seen(s1, positions[k])
    requires CallPost(adj, {}, s1, s, positions[k])
    ensures SearchInv(adj, positions, s0, s, k + 1)
  {
    RootDone(adj, s1, s, positions[k]);
  }

  /** After a search from a root: flags are right on all seen cells, and
      unseen cells keep their root parent. */
  lemma RootDone(adj: map<Pos, seq<Pos>>, s1: DfsState, s: DfsState, pos: Pos)
    requires CallPost(adj, {}, s1, s, pos) && !Seen(s1, pos)
    requires forall v | Seen(s1, v) :: ApOf(s1, v) <==> IsCut(adj, v)
    requires forall v | v in adj && !Seen(s1, v) :: ParentOf(s1, v) == NoParent
    ensures forall v | Seen(s, v) :: ApOf(s, v) <==> IsCut(adj, v)
    ensures forall v | v in adj && !Seen(s, v) :: ParentOf(s, v) == NoParent
  {
    forall v | Seen(s, v)
      ensures ApOf(s, v) <==> IsCut(adj, v)
    {
      if Seen(s1, v) {
        assert ApOf(s, v) == ApOf(s1, v);
      }
    }
  }

  /** The keys of ap whose flag is raised, each once, in an unspecified order. */
  method Flagged(ap: map<Pos, bool>) returns (points: seq<Pos>)
    ensures forall p :: p in points <==> p in ap && ap[p]
    ensures forall i, j | 0 <= i < j < |points| :: points[i] != points[j]
  {
    points := [];
    var rest := ap.Keys;
    while rest != {}
      invariant rest <= ap.Keys
      invariant forall p :: p in points <==> p in ap.Keys - rest && ap[p]
      invariant forall i, j | 0 <= i < j < |points| :: points[i] != points[j]
      decreases |rest|
    {
      var a :| a in rest;
      if ap[a] {
        points := points + [a];
      }
      rest := rest - {a};
    }
  }
}
