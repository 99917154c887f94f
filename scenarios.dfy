/**
 * A small tree, walked by the tree preset and by a pruning predicate: the orders the
 * reference definitions give, and so what a session yields from its root. Then a cycle of
 * two nodes, walked by the graph preset: each node is yielded once and the stream ends.
 */
module Scenarios {
  import opened Graphs
  import opened Trackers
  import opened Frontier
  import opened Orders
  import NullStreams

  /** Root 0 with children 1 and 2; 1 has the child 3; 2 returns an empty stream, 3 null. */
  const Tree: Graph := map[0 := Some([1, 2]), 1 := Some([3]), 2 := Some([]), 3 := None]

  /** The height of each node of `Tree`. */
  function TreeRank(n: Node): nat
  {
    if n == 0 then 2 else if n == 1 then 1 else 0
  }

  lemma TreeRanked()
    ensures RankedBy(Tree, TreeRank)
  {
    forall n, k | k in Children(Tree, n) ensures TreeRank(k) < TreeRank(n) {
      if n !in Tree {
      } else if n == 0 {
      } else if n == 1 {
      }
    }
  }

  /** The tree preset walks the whole tree in each of the three orders. */
  lemma TreeOrders()
    ensures RankedBy(Tree, TreeRank)
    ensures PreOrderOf(Tree, TreeRank, AcceptAll, [0]) == [0, 1, 3, 2]
    ensures PostOrderOf(Tree, TreeRank, AcceptAll, [0]) == [3, 1, 2, 0]
    ensures LevelsFrom(Tree, TreeRank, AcceptAll, [0]) == [0, 1, 2, 3]
  {
    TreeRanked();
    TreeChildren();
    TreePreOrder();
    TreePostOrder();
    TreeLevels();
  }

  lemma TreePreOrder()
    requires RankedBy(Tree, TreeRank)
    ensures PreOrderOf(Tree, TreeRank, AcceptAll, [0]) == [0, 1, 3, 2]
  {
    TreeChildren();
    var g, r, t := Tree, TreeRank, AcceptAll;
    assert [1, 2][1..] == [2] && [3][1..] == [] && [2][1..] == [] && [0][1..] == [];
    assert PreOrderOf(g, r, t, []) == [];
    assert PreOrderOf(g, r, t, [3]) == [3] + PreOrderOf(g, r, t, []) + PreOrderOf(g, r, t, []);
    assert PreOrderOf(g, r, t, [2]) == [2] + PreOrderOf(g, r, t, []) + PreOrderOf(g, r, t, []);
    assert PreOrderOf(g, r, t, [1, 2]) == [1] + PreOrderOf(g, r, t, [3]) + PreOrderOf(g, r, t, [2]);
    assert PreOrderOf(g, r, t, [0]) == [0] + PreOrderOf(g, r, t, [1, 2]) + PreOrderOf(g, r, t, []);
  }

  lemma TreePostOrder()
    requires RankedBy(Tree, TreeRank)
    ensures PostOrderOf(Tree, TreeRank, AcceptAll, [0]) == [3, 1, 2, 0]
  {
    TreeChildren();
    var g, r, t := Tree, TreeRank, AcceptAll;
    assert [1, 2][1..] == [2] && [3][1..] == [] && [2][1..] == [] && [0][1..] == [];
    assert PostOrderOf(g, r, t, []) == [];
    assert PostOrderOf(g, r, t, [3]) == PostOrderOf(g, r, t, []) + [3] + PostOrderOf(g, r, t, []);
    assert PostOrderOf(g, r, t, [2]) == PostOrderOf(g, r, t, []) + [2] + PostOrderOf(g, r, t, []);
    assert PostOrderOf(g, r, t, [1, 2]) == PostOrderOf(g, r, t, [3]) + [1] + PostOrderOf(g, r, t, [2]);
    assert PostOrderOf(g, r, t, [0]) == PostOrderOf(g, r, t, [1, 2]) + [0] + PostOrderOf(g, r, t, []);
  }

  lemma TreeLevels()
    requires RankedBy(Tree, TreeRank)
    ensures LevelsFrom(Tree, TreeRank, AcceptAll, [0]) == [0, 1, 2, 3]
  {
    TreeChildren();
    var g, r, t := Tree, TreeRank, AcceptAll;
    assert [1, 2][1..] == [2] && [3][1..] == [] && [2][1..] == [] && [0][1..] == [];
    assert NextLevel(g, t, [0]) == [1, 2] && NextLevel(g, t, [1, 2]) == [3];
    assert NextLevel(g, t, [3]) == [];
    assert Kept(t, [0]) == [0] && Kept(t, [1, 2]) == [1, 2] && Kept(t, [3]) == [3];
    assert LevelsFrom(g, r, t, []) == [];
    assert LevelsFrom(g, r, t, [3]) == [3] + LevelsFrom(g, r, t, []);
    assert LevelsFrom(g, r, t, [1, 2]) == [1, 2] + LevelsFrom(g, r, t, [3]);
    assert LevelsFrom(g, r, t, [0]) == [0] + LevelsFrom(g, r, t, [1, 2]);
  }

  lemma TreeChildren()
    ensures Children(Tree, 0) == [1, 2] && Children(Tree, 1) == [3]
    ensures Children(Tree, 2) == [] && Children(Tree, 3) == []
  {
  }

  /** A predicate that rejects 1 prunes 1's whole subtree: 3 is never reached. */
  lemma PrunedOrders()
    ensures RankedBy(Tree, TreeRank)
    ensures PreOrderOf(Tree, TreeRank, Custom(n => n != 1), [0]) == [0, 2]
    ensures PostOrderOf(Tree, TreeRank, Custom(n => n != 1), [0]) == [2, 0]
    ensures LevelsFrom(Tree, TreeRank, Custom(n => n != 1), [0]) == [0, 2]
  {
    TreeRanked();
    TreeChildren();
    var g, r, t := Tree, TreeRank, Custom(n => n != 1);
    assert !Keeps(t, 1) && Keeps(t, 0) && Keeps(t, 2);
    assert [1, 2][1..] == [2] && [2][1..] == [] && [0][1..] == [];
    assert PreOrderOf(g, r, t, [2]) == [2] && PostOrderOf(g, r, t, [2]) == [2];
    assert PreOrderOf(g, r, t, [1, 2]) == PreOrderOf(g, r, t, [2]);
    assert PostOrderOf(g, r, t, [1, 2]) == PostOrderOf(g, r, t, [2]);
    assert NextLevel(g, t, [0]) == [1, 2] && NextLevel(g, t, [2]) == [];
    assert NextLevel(g, t, [1, 2]) == [];
    assert Kept(t, [0]) == [0] && Kept(t, [1, 2]) == [2];
    assert LevelsFrom(g, r, t, [1, 2]) == [2];
  }

  /** The nodes a tree walker's session from root 0 of `Tree` yields, in each order. */
  function TreeExpected(ord: Order): seq<Node>
  {
    match ord
    case BreadthFirst => [0, 1, 2, 3]
    case PreOrder => [0, 1, 3, 2]
    case PostOrder => [3, 1, 2, 0]
  }

  /**
   * A tree walker's session from root 0 of `Tree` ends after finitely many pulls, having
   * yielded exactly the nodes of the tree in the order asked for.
   */
  lemma TreeSession(ord: Order, seen: set<Node>) returns (k: nat)
    ensures RankedBy(Tree, TreeRank)
    ensures var r := Run(Tree, AcceptAll, ord, TreeRank, Begin([0], seen), k);
            r.last.horizon == [] && r.emitted == TreeExpected(ord)
  {
    TreeOrders();
    k := NullStreams.SessionComplete(Tree, TreeRank, AcceptAll, ord, [0], seen);
  }

  /** Two nodes, each the other's only successor. */
  const Cycle: Graph := map[0 := Some([1]), 1 := Some([0])]

  /** A graph walker needs no ranking; every node gets the same. */
  function Flat(n: Node): nat
  {
    0
  }

  /** What a graph walker's session from node 0 of `Cycle` yields, in each order. */
  function CycleExpected(ord: Order): seq<Node>
  {
    if ord.PostOrder? then [1, 0] else [0, 1]
  }

  /**
   * A graph walker's session from node 0 of `Cycle` yields both nodes, each once, in the
   * order asked for, and its third pull returns null and ends the stream.
   */
  lemma CycleSessions(ord: Order)
    ensures var r := Run(Cycle, FirstVisit, ord, Flat, Begin([0], {}), 3);
            r.emitted == CycleExpected(ord) && r.last.horizon == []
  {
    match ord {
      case BreadthFirst => CycleLevels();
      case PreOrder => CyclePreOrder();
      case PostOrder => CyclePostOrder();
    }
  }

  lemma CyclePreOrder()
    ensures var r := Run(Cycle, FirstVisit, Order.PreOrder, Flat, Begin([0], {}), 3);
            r.emitted == [0, 1] && r.last.horizon == []
  {
    var g, t, o := Cycle, FirstVisit, Order.PreOrder;
    assert Successors(g, 0) == Some([1]) && Successors(g, 1) == Some([0]);
    var s0 := Begin([0], {});
    var s1 := State([Start([1]), RawCursor([0], 1)], [], {0});
    var s2 := State([Start([0]), RawCursor([1], 1), RawCursor([0], 1)], [], {0, 1});
    var s3 := State([], [], {0, 1});
    assert VisitNext(t, Start([0]), {}) == Visit(Some(0), RawCursor([0], 1), {0});
    assert Next(g, t, o, Flat, s0) == Pull(Some(0), s1, [0]);
    assert VisitNext(t, Start([1]), {0}) == Visit(Some(1), RawCursor([1], 1), {0, 1});
    assert Next(g, t, o, Flat, s1) == Pull(Some(1), s2, [1]);
    assert VisitNext(t, Start([0]), {0, 1}) == Visit(None, RawCursor([0], 1), {0, 1});
    assert VisitNext(t, RawCursor([1], 1), {0, 1}) == Visit(None, RawCursor([1], 1), {0, 1});
    assert VisitNext(t, RawCursor([0], 1), {0, 1}) == Visit(None, RawCursor([0], 1), {0, 1});
    assert Next(g, t, o, Flat, s2) == Pull(None, s3, []);
    assert Run(g, t, o, Flat, s2, 1) == Trace([], s3, []);
    assert Run(g, t, o, Flat, s1, 2) == Trace([1], s3, [1]);
  }

  lemma CycleLevels()
    ensures var r := Run(Cycle, FirstVisit, Order.BreadthFirst, Flat, Begin([0], {}), 3);
            r.emitted == [0, 1] && r.last.horizon == []
  {
    var g, t, o := Cycle, FirstVisit, Order.BreadthFirst;
    assert Successors(g, 0) == Some([1]) && Successors(g, 1) == Some([0]);
    var s0 := Begin([0], {});
    var s1 := State([RawCursor([0], 1), Start([1])], [], {0});
    var s2 := State([RawCursor([1], 1), Start([0])], [], {0, 1});
    var s3 := State([], [], {0, 1});
    assert VisitNext(t, Start([0]), {}) == Visit(Some(0), RawCursor([0], 1), {0});
    assert Next(g, t, o, Flat, s0) == Pull(Some(0), s1, [0]);
    assert VisitNext(t, RawCursor([0], 1), {0}) == Visit(None, RawCursor([0], 1), {0});
    assert VisitNext(t, Start([1]), {0}) == Visit(Some(1), RawCursor([1], 1), {0, 1});
    assert Next(g, t, o, Flat, s1) == Pull(Some(1), s2, [1]);
    assert VisitNext(t, RawCursor([1], 1), {0, 1}) == Visit(None, RawCursor([1], 1), {0, 1});
    assert VisitNext(t, Start([0]), {0, 1}) == Visit(None, RawCursor([0], 1), {0, 1});
    assert Next(g, t, o, Flat, s2) == Pull(None, s3, []);
    assert Run(g, t, o, Flat, s2, 1) == Trace([], s3, []);
    assert Run(g, t, o, Flat, s1, 2) == Trace([1], s3, [1]);
  }

  lemma CyclePostOrder()
    ensures var r := Run(Cycle, FirstVisit, Order.PostOrder, Flat, Begin([0], {}), 3);
            r.emitted == [1, 0] && r.last.horizon == []
  {
    var g, t, o := Cycle, FirstVisit, Order.PostOrder;
    assert Successors(g, 0) == Some([1]) && Successors(g, 1) == Some([0]);
    var s0 := Begin([0], {});
    var d1 := State([Start([1]), RawCursor([0], 1)], [0], {0});
    var d2 := State([Start([0]), RawCursor([1], 1), RawCursor([0], 1)], [1, 0], {0, 1});
    var s1 := State([RawCursor([1], 1), RawCursor([0], 1)], [0], {0, 1});
    var s2 := State([RawCursor([0], 1)], [], {0, 1});
    var s3 := State([], [], {0, 1});
    assert VisitNext(t, Start([0]), {}) == Visit(Some(0), RawCursor([0], 1), {0});
    assert VisitNext(t, Start([1]), {0}) == Visit(Some(1), RawCursor([1], 1), {0, 1});
    assert VisitNext(t, Start([0]), {0, 1}) == Visit(None, RawCursor([0], 1), {0, 1});
    assert RemoveFromBottom(g, t, Flat, d2) == Pull(Some(1), s1, []);
    assert [Start([0]), RawCursor([1], 1)] + d1.horizon[1..] == d2.horizon && [1] + d1.post == d2.post;
    assert RemoveFromBottom(g, t, Flat, d1) == Pull(Some(1), s1, [1]);
    assert s0.horizon[0] == Start([0]) && [0] + s0.post == d1.post;
    assert [Start([1]), RawCursor([0], 1)] + s0.horizon[1..] == d1.horizon;
    assert RemoveFromBottom(g, t, Flat, s0) == Pull(Some(1), s1, [0, 1]);
    assert VisitNext(t, RawCursor([1], 1), {0, 1}) == Visit(None, RawCursor([1], 1), {0, 1});
    assert Next(g, t, o, Flat, s1) == Pull(Some(0), s2, []);
    assert VisitNext(t, RawCursor([0], 1), {0, 1}) == Visit(None, RawCursor([0], 1), {0, 1});
    assert Next(g, t, o, Flat, s2) == Pull(None, s3, []);
    assert Run(g, t, o, Flat, s2, 1) == Trace([], s3, []);
    assert Run(g, t, o, Flat, s1, 2) == Trace([0], s3, []);
  }
}
