/** MinPriorityQueue and MaxPriorityQueue: a bag of (priority, item) pairs
    whose pop hands back an item of least (greatest) priority. The order
    among equal priorities is unspecified; callers may rely only on the
    contracts below. */
module PriorityQueues {

  class MinPriorityQueue<T> {
    var elements: seq<(int, T)>

    constructor ()
      ensures elements == []
    {
      elements := [];
    }

    predicate Empty()
      reads this
    {
      |elements| == 0
    }

    method Put(item: T, priority: int)
      modifies this
      ensures elements == old(elements) + [(priority, item)]
    {
      elements := elements + [(priority, item)];
    }

    /** Removes one pair of least priority and returns its item. */
    method Pop() returns (item: T, ghost priority: int)
      requires |elements| > 0
      modifies this
      ensures (priority, item) in old(elements)
      ensures forall e | e in old(elements) :: priority <= e.0
      ensures multiset(elements) == multiset(old(elements)) - multiset{(priority, item)}
      ensures |elements| == |old(elements)| - 1
    {
      var best := 0;
      var i := 1;
      while i < |elements|
        invariant 0 <= best < i <= |elements|
        invariant forall j | 0 <= j < i :: elements[best].0 <= elements[j].0
      {
        if elements[i].0 < elements[best].0 {
          best := i;
        }
        i := i + 1;
      }
      var e := elements[best];
      item, priority := e.1, e.0;
      forall f | f in elements
        ensures priority <= f.0
      {
        var j :| 0 <= j < |elements| && elements[j] == f;
      }
      RemoveAt(elements, best);
      elements := elements[..best] + elements[best + 1..];
    }
  }

  class MaxPriorityQueue<T> {
    var elements: seq<(int, T)>

    constructor ()
      ensures elements == []
    {
      elements := [];
    }

    predicate Empty()
      reads this
    {
      |elements| == 0
    }

    method Put(item: T, priority: int)
      modifies this
      ensures elements == old(elements) + [(priority, item)]
    {
      elements := elements + [(priority, item)];
    }

    /** Removes one pair of greatest priority and returns it (top, then pop). */
    method Pop() returns (priority: int, item: T)
      requires |elements| > 0
      modifies this
      ensures (priority, item) in old(elements)
      ensures forall e | e in old(elements) :: e.0 <= priority
      ensures multiset(elements) == multiset(old(elements)) - multiset{(priority, item)}
      ensures |elements| == |old(elements)| - 1
    {
      var best := 0;
      var i := 1;
      while i < |elements|
        invariant 0 <= best < i <= |elements|
        invariant forall j | 0 <= j < i :: elements[j].0 <= elements[best].0
      {
        if elements[best].0 < elements[i].0 {
          best := i;
        }
        i := i + 1;
      }
      var e := elements[best];
      priority, item := e.0, e.1;
      forall f | f in elements
        ensures f.0 <= priority
      {
        var j :| 0 <= j < |elements| && elements[j] == f;
      }
      RemoveAt(elements, best);
      elements := elements[..best] + elements[best + 1..];
    }
  }

  /** Dropping the entry at index k takes exactly that entry out of the bag. */
  lemma RemoveAt<E>(xs: seq<E>, k: int)
    requires 0 <= k < |xs|
    ensures multiset(xs[..k] + xs[k + 1..]) == multiset(xs) - multiset{xs[k]}
    ensures |xs[..k] + xs[k + 1..]| == |xs| - 1
  {
    assert xs == xs[..k] + [xs[k]] + xs[k + 1..];
  }
}
