/**
 * Reference definitions of the three orders, for walkers whose tracker keeps no state
 * (the tree preset, or a pure caller predicate) over finite acyclic successor functions.
 * A node the tracker rejects is neither yielded nor expanded, so its whole subtree is
 * pruned; a null successor stream and an empty one both mean "no children".
 */
module Orders {
  import opened Graphs
  import opened Trackers

  /** The children of the node a visit found; none when it found nothing. */
  function ChildrenOf(g: Graph, found: Option<Node>): seq<Node>
  {
    match found
    case None => []
    case Some(x) => Children(g, x)
  }

  /** Depth-first, a node before its subtrees, subtrees in stream order. */
  ghost function PreOrderOf(g: Graph, rank: Node -> nat, t: Tracker, ns: seq<Node>): seq<Node>
    requires RankedBy(g, rank) && !t.FirstVisit?
    decreases Bound(rank, ns), |ns|
  {
    if ns == [] then []
    else
      BoundTail(rank, ns, 1);
      var x := ns[0];
      if !Keeps(t, x) then PreOrderOf(g, rank, t, ns[1..])
      else
        ChildrenBound(g, rank, x);
        BoundAbove(rank, ns, x);
        [x] + PreOrderOf(g, rank, t, Children(g, x)) + PreOrderOf(g, rank, t, ns[1..])
  }

  /** Depth-first, a node after its subtrees, subtrees in stream order. */
  ghost function PostOrderOf(g: Graph, rank: Node -> nat, t: Tracker, ns: seq<Node>): seq<Node>
    requires RankedBy(g, rank) && !t.FirstVisit?
    decreases Bound(rank, ns), |ns|
  {
    if ns == [] then []
    else
      BoundTail(rank, ns, 1);
      var x := ns[0];
      if !Keeps(t, x) then PostOrderOf(g, rank, t, ns[1..])
      else
        ChildrenBound(g, rank, x);
        BoundAbove(rank, ns, x);
        PostOrderOf(g, rank, t, Children(g, x)) + [x] + PostOrderOf(g, rank, t, ns[1..])
  }

  /** The nodes of one level that the tracker accepts, in order. */
  function Kept(t: Tracker, ns: seq<Node>): seq<Node>
    requires !t.FirstVisit?
  {
    if ns == [] then []
    else (if Keeps(t, ns[0]) then [ns[0]] else []) + Kept(t, ns[1..])
  }

  /** The next level: the children of the accepted nodes of this one, in order. */
  function NextLevel(g: Graph, t: Tracker, ns: seq<Node>): seq<Node>
    requires !t.FirstVisit?
  {
    if ns == [] then []
    else (if Keeps(t, ns[0]) then Children(g, ns[0]) else []) + NextLevel(g, t, ns[1..])
  }

  /** Every node of the next level lies strictly below some node of this one. */
  lemma {:induction false} NextLevelBelow(g: Graph, rank: Node -> nat, t: Tracker, ns: seq<Node>)
    requires RankedBy(g, rank) && !t.FirstVisit?
    ensures forall y | y in NextLevel(g, t, ns) :: rank(y) + 1 < Bound(rank, ns)
  {
    if ns != [] {
      NextLevelBelow(g, rank, t, ns[1..]);
      BoundTail(rank, ns, 1);
      BoundAbove(rank, ns, ns[0]);
    }
  }

  lemma NextLevelShrinks(g: Graph, rank: Node -> nat, t: Tracker, ns: seq<Node>)
    requires RankedBy(g, rank) && !t.FirstVisit? && ns != []
    ensures Bound(rank, NextLevel(g, t, ns)) < Bound(rank, ns)
  {
    NextLevelBelow(g, rank, t, ns);
    BoundAbove(rank, ns, ns[0]);
    BoundBelow(rank, NextLevel(g, t, ns), Bound(rank, ns) - 1);
  }

  /** Breadth-first: level by level, each level in stream order. */
  ghost function LevelsFrom(g: Graph, rank: Node -> nat, t: Tracker, ns: seq<Node>): seq<Node>
    requires RankedBy(g, rank) && !t.FirstVisit?
    decreases Bound(rank, ns)
  {
    if ns == [] then []
    else
      NextLevelShrinks(g, rank, t, ns);
      Kept(t, ns) + LevelsFrom(g, rank, t, NextLevel(g, t, ns))
  }
}
