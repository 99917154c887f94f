/**
 * A successor function that returns null for a node means the node has no successors:
 * every order yields the same nodes, in the same order, as when it returns an empty stream.
 */
module NullStreams {
  import opened Graphs
  import opened Trackers
  import opened Frontier
  import opened Orders
  import PreOrderCorrect
  import PostOrderCorrect
  import BreadthFirstCorrect

  /** Replacing the null stream of `n` by an empty one changes no node's children. */
  lemma NullMeansNoChildren(g: Graph, n: Node)
    requires Successors(g, n).None?
    ensures forall m :: Children(g[n := Some([])], m) == Children(g, m)
    ensures Successors(g[n := Some([])], n) == Some([])
  {
  }

  /** Two successor functions that agree on every node's children. */
  ghost predicate SameChildren(g1: Graph, g2: Graph)
  {
    forall m :: Children(g1, m) == Children(g2, m)
  }

  lemma {:induction false} SameChildrenDepthFirst(g1: Graph, g2: Graph, rank: Node -> nat, t: Tracker, ns: seq<Node>)
    requires RankedBy(g1, rank) && RankedBy(g2, rank) && !t.FirstVisit? && SameChildren(g1, g2)
    decreases Bound(rank, ns), |ns|
    ensures PreOrderOf(g1, rank, t, ns) == PreOrderOf(g2, rank, t, ns)
    ensures PostOrderOf(g1, rank, t, ns) == PostOrderOf(g2, rank, t, ns)
  {
    if ns != [] {
      BoundTail(rank, ns, 1);
      SameChildrenDepthFirst(g1, g2, rank, t, ns[1..]);
      var x := ns[0];
      if Keeps(t, x) {
        ChildrenBound(g1, rank, x);
        BoundAbove(rank, ns, x);
        assert Children(g1, x) == Children(g2, x);
        SameChildrenDepthFirst(g1, g2, rank, t, Children(g1, x));
      }
    }
  }

  lemma {:induction false} SameChildrenNextLevel(g1: Graph, g2: Graph, t: Tracker, ns: seq<Node>)
    requires !t.FirstVisit? && SameChildren(g1, g2)
    ensures NextLevel(g1, t, ns) == NextLevel(g2, t, ns)
  {
    if ns != [] {
      SameChildrenNextLevel(g1, g2, t, ns[1..]);
      assert Children(g1, ns[0]) == Children(g2, ns[0]);
    }
  }

  lemma {:induction false} SameChildrenLevels(g1: Graph, g2: Graph, rank: Node -> nat, t: Tracker, ns: seq<Node>)
    requires RankedBy(g1, rank) && RankedBy(g2, rank) && !t.FirstVisit? && SameChildren(g1, g2)
    decreases Bound(rank, ns)
    ensures LevelsFrom(g1, rank, t, ns) == LevelsFrom(g2, rank, t, ns)
  {
    if ns != [] {
      NextLevelShrinks(g1, rank, t, ns);
      SameChildrenNextLevel(g1, g2, t, ns);
      SameChildrenLevels(g1, g2, rank, t, NextLevel(g1, t, ns));
    }
  }

  /** The reference order a complete session of each order yields. */
  ghost function OrderOf(g: Graph, rank: Node -> nat, t: Tracker, ord: Order, roots: seq<Node>): seq<Node>
    requires RankedBy(g, rank) && !t.FirstVisit?
  {
    match ord
    case BreadthFirst => LevelsFrom(g, rank, t, roots)
    case PreOrder => PreOrderOf(g, rank, t, roots)
    case PostOrder => PostOrderOf(g, rank, t, roots)
  }

  /** A session of the tree preset or a stateless predicate ends having yielded its reference order. */
  lemma SessionComplete(g: Graph, rank: Node -> nat, t: Tracker, ord: Order, roots: seq<Node>, seen: set<Node>) returns (k: nat)
    requires RankedBy(g, rank) && !t.FirstVisit?
    ensures var r := Run(g, t, ord, rank, Begin(roots, seen), k);
            r.last.horizon == [] && r.emitted == OrderOf(g, rank, t, ord, roots)
  {
    match ord
    case BreadthFirst => k := BreadthFirstCorrect.BreadthFirstComplete(g, rank, t, roots, seen);
    case PreOrder => k := PreOrderCorrect.PreOrderComplete(g, rank, t, roots, seen);
    case PostOrder => k := PostOrderCorrect.PostOrderComplete(g, rank, t, roots, seen);
  }

  /** A null stream for `n` keeps a walk's termination argument for the stream-less graph. */
  lemma NullKeepsDescent(g: Graph, t: Tracker, rank: Node -> nat, n: Node)
    requires DescentEnds(g, t, rank) && Successors(g, n).None?
    ensures DescentEnds(g[n := Some([])], t, rank)
  {
    if !t.FirstVisit? {
      NullMeansNoChildren(g, n);
      forall m, k | k in Children(g[n := Some([])], m) ensures rank(k) < rank(m) {
        assert k in Children(g, m);
      }
    }
  }

  /**
   * Top-down session states that hold the same cursors with candidates left, the same stack
   * and the same set: they differ at most by exhausted cursors, which a pull skips.
   */
  ghost predicate SameUpToExhausted(s1: State, s2: State)
  {
    Live(s1.horizon) == Live(s2.horizon) && s1.post == s2.post && s1.seen == s2.seen
  }

  /** A pull of pre-order or breadth-first, including the pull after the horizon has emptied. */
  function TopPull(g: Graph, t: Tracker, o: InsertionOrder, st: State): Pull
  {
    if st.horizon == [] then Pull(None, st, []) else RemoveFromTop(g, t, o, st)
  }

  /** A front cursor whose visit accepts nothing is dropped, and the pull goes on below it. */
  lemma TopSkips(g: Graph, t: Tracker, o: InsertionOrder, st: State)
    requires st.horizon != [] && VisitNext(t, st.horizon[0], st.seen).found.None?
    ensures TopPull(g, t, o, st)
              == TopPull(g, t, o, State(st.horizon[1..], st.post, VisitNext(t, st.horizon[0], st.seen).seen))
  {
  }

  /** Resuming after a found node: the empty stream adds only an exhausted cursor. */
  lemma ExpandLive(g: Graph, n: Node, o: InsertionOrder, x: Node, c: Cursor, r1: seq<Cursor>, r2: seq<Cursor>)
    requires Successors(g, n).None? && Live(r1) == Live(r2)
    ensures Live(Expand(g, o, x, c, r1)) == Live(Expand(g[n := Some([])], o, x, c, r2))
  {
    var g2 := g[n := Some([])];
    LiveAppend([c], r1);
    LiveAppend([c], r2);
    var k := Start(Children(g2, x));
    LiveAppend([k], [c] + r2);
    LiveAppend([c] + r2, [k]);
    if x == n {
      assert Expand(g, o, x, c, r1) == [c] + r1;
      assert Live([k]) == [];
    } else if Successors(g, x).Some? {
      LiveAppend([k], [c] + r1);
      LiveAppend([c] + r1, [k]);
    }
  }

  /**
   * One top-down pull with `n`'s stream null and one with it empty, from states that
   * differ only by exhausted cursors: same node, same expansions, and again states that
   * differ only by exhausted cursors.
   */
  lemma {:induction false} TopNullAsEmpty(g: Graph, n: Node, t: Tracker, o: InsertionOrder, s1: State, s2: State)
    requires Successors(g, n).None? && SameUpToExhausted(s1, s2)
    decreases |s1.horizon| + |s2.horizon|
    ensures var p1, p2 := TopPull(g, t, o, s1), TopPull(g[n := Some([])], t, o, s2);
            p1.out == p2.out && p1.expanded == p2.expanded && SameUpToExhausted(p1.next, p2.next)
  {
    var g2 := g[n := Some([])];
    var h1, h2 := s1.horizon, s2.horizon;
    if h1 != [] && !HasLeft(h1[0]) {
      TopSkips(g, t, o, s1);
      assert Live(h1) == Live(h1[1..]);
      TopNullAsEmpty(g, n, t, o, State(h1[1..], s1.post, s1.seen), s2);
    } else if h2 != [] && !HasLeft(h2[0]) {
      TopSkips(g2, t, o, s2);
      assert Live(h2) == Live(h2[1..]);
      TopNullAsEmpty(g, n, t, o, s1, State(h2[1..], s2.post, s2.seen));
    } else if h1 == [] || h2 == [] {
      assert h1 == [] && h2 == [];
    } else {
      assert Live(h1) == [h1[0]] + Live(h1[1..]);
      assert Live(h2) == [h2[0]] + Live(h2[1..]);
      assert Live(h1)[0] == h1[0] && Live(h1)[1..] == Live(h1[1..]);
      assert Live(h2)[0] == h2[0] && Live(h2)[1..] == Live(h2[1..]);
      var v := VisitNext(t, h1[0], s1.seen);
      if v.found.Some? {
        ExpandLive(g, n, o, v.found.value, v.cursor, h1[1..], h2[1..]);
      } else {
        TopSkips(g, t, o, s1);
        TopSkips(g2, t, o, s2);
        TopNullAsEmpty(g, n, t, o, State(h1[1..], s1.post, v.seen), State(h2[1..], s2.post, v.seen));
      }
    }
  }

  /**
   * A post-order pull is the same whether `n`'s stream is null or empty: the null stream
   * has `n` emitted as a leaf, the empty one has it deferred and, its cursor found
   * exhausted at once, popped and emitted within the same pull.
   */
  lemma {:induction false} BottomNullAsEmpty(g: Graph, n: Node, t: Tracker, rank: Node -> nat, st: State)
    requires Successors(g, n).None? && DescentEnds(g, t, rank) && st.horizon != []
    decreases DescentPool(g, t, st), DescentBound(t, rank, st)
    ensures DescentEnds(g[n := Some([])], t, rank)
    ensures RemoveFromBottom(g[n := Some([])], t, rank, st) == RemoveFromBottom(g, t, rank, st)
  {
    var g2 := g[n := Some([])];
    NullKeepsDescent(g, t, rank, n);
    var h := st.horizon;
    var v := VisitNext(t, h[0], st.seen);
    if v.found.Some? {
      var x := v.found.value;
      if x == n {
        var below := State([Start([]), v.cursor] + h[1..], [x] + st.post, v.seen);
        assert RemoveFromBottom(g2, t, rank, st).out == RemoveFromBottom(g2, t, rank, below).out;
        assert below.horizon[1..] == [v.cursor] + h[1..];
        assert RemoveFromBottom(g2, t, rank, below) == Pull(Some(x), State([v.cursor] + h[1..], st.post, v.seen), []);
      } else if Successors(g, x).Some? {
        var kids := Successors(g, x).value;
        DescentShrinks(g, t, rank, st, x, kids);
        BottomNullAsEmpty(g, n, t, rank, State([Start(kids), v.cursor] + h[1..], [x] + st.post, v.seen));
      }
    }
  }

  /** The states of a session with `n`'s stream null and one with it empty, pull for pull. */
  ghost predicate Matched(ord: Order, s1: State, s2: State)
  {
    if ord.PostOrder? then s1 == s2 else SameUpToExhausted(s1, s2)
  }

  lemma NextNullAsEmpty(g: Graph, n: Node, t: Tracker, ord: Order, rank: Node -> nat, s1: State, s2: State)
    requires Successors(g, n).None? && (ord.PostOrder? ==> DescentEnds(g, t, rank))
    requires Matched(ord, s1, s2)
    ensures ord.PostOrder? ==> DescentEnds(g[n := Some([])], t, rank)
    ensures var p1, p2 := Next(g, t, ord, rank, s1), Next(g[n := Some([])], t, ord, rank, s2);
            p1.out == p2.out && p1.expanded == p2.expanded && Matched(ord, p1.next, p2.next)
  {
    match ord {
      case BreadthFirst => TopNullAsEmpty(g, n, t, AddBack, s1, s2);
      case PreOrder => TopNullAsEmpty(g, n, t, PushFront, s1, s2);
      case PostOrder =>
        NullKeepsDescent(g, t, rank, n);
        if s1.horizon != [] {
          BottomNullAsEmpty(g, n, t, rank, s1);
        }
    }
  }

  /** `k` pulls of the two sessions yield and request the same, and leave matched states. */
  ghost predicate RunsMatched(g: Graph, n: Node, t: Tracker, ord: Order, rank: Node -> nat, s1: State, s2: State, k: nat)
    requires ord.PostOrder? ==> DescentEnds(g, t, rank) && DescentEnds(g[n := Some([])], t, rank)
  {
    var r1, r2 := Run(g, t, ord, rank, s1, k), Run(g[n := Some([])], t, ord, rank, s2, k);
    r1.emitted == r2.emitted && r1.expanded == r2.expanded && Matched(ord, r1.last, r2.last)
  }

  /** Two runs that match after their first pulls, which agree, match. */
  lemma RunsMatchedStep(g: Graph, n: Node, t: Tracker, ord: Order, rank: Node -> nat, s1: State, s2: State, k: nat,
                        p1: Pull, p2: Pull)
    requires ord.PostOrder? ==> DescentEnds(g, t, rank) && DescentEnds(g[n := Some([])], t, rank)
    requires k > 0 && p1 == Next(g, t, ord, rank, s1) && p2 == Next(g[n := Some([])], t, ord, rank, s2)
    requires p1.out == p2.out && p1.expanded == p2.expanded
    requires RunsMatched(g, n, t, ord, rank, p1.next, p2.next, k - 1)
    ensures RunsMatched(g, n, t, ord, rank, s1, s2, k)
  {
    RunStep(g, t, ord, rank, s1, k);
    RunStep(g[n := Some([])], t, ord, rank, s2, k);
  }

  /*
   * The induction over pulls, one lemma per order: with the order fixed, each unfolding
   * of `Next` settles on that order's step routine alone.
   */
  lemma {:induction false} RunNullAsEmptyBreadthFirst(g: Graph, n: Node, t: Tracker, rank: Node -> nat, s1: State, s2: State, k: nat)
    requires Successors(g, n).None?
    requires Matched(Order.BreadthFirst, s1, s2)
    decreases k
    ensures RunsMatched(g, n, t, Order.BreadthFirst, rank, s1, s2, k)
  {
    var g2 := g[n := Some([])];
    NextNullAsEmpty(g, n, t, Order.BreadthFirst, rank, s1, s2);
    if k > 0 {
      var p1, p2 := Next(g, t, Order.BreadthFirst, rank, s1), Next(g2, t, Order.BreadthFirst, rank, s2);
      RunNullAsEmptyBreadthFirst(g, n, t, rank, p1.next, p2.next, k - 1);
      RunsMatchedStep(g, n, t, Order.BreadthFirst, rank, s1, s2, k, p1, p2);
    }
  }

  lemma {:induction false} RunNullAsEmptyPreOrder(g: Graph, n: Node, t: Tracker, rank: Node -> nat, s1: State, s2: State, k: nat)
    requires Successors(g, n).None?
    requires Matched(Order.PreOrder, s1, s2)
    decreases k
    ensures RunsMatched(g, n, t, Order.PreOrder, rank, s1, s2, k)
  {
    var g2 := g[n := Some([])];
    NextNullAsEmpty(g, n, t, Order.PreOrder, rank, s1, s2);
    if k > 0 {
      var p1, p2 := Next(g, t, Order.PreOrder, rank, s1), Next(g2, t, Order.PreOrder, rank, s2);
      RunNullAsEmptyPreOrder(g, n, t, rank, p1.next, p2.next, k - 1);
      RunsMatchedStep(g, n, t, Order.PreOrder, rank, s1, s2, k, p1, p2);
    }
  }

  lemma {:induction false} RunNullAsEmptyPostOrder(g: Graph, n: Node, t: Tracker, rank: Node -> nat, s1: State, s2: State, k: nat)
    requires Successors(g, n).None? && DescentEnds(g, t, rank)
    requires Matched(Order.PostOrder, s1, s2)
    decreases k
    ensures RunsMatched(g, n, t, Order.PostOrder, rank, s1, s2, k)
  {
    var g2 := g[n := Some([])];
    NextNullAsEmpty(g, n, t, Order.PostOrder, rank, s1, s2);
    if k > 0 {
      var p1, p2 := Next(g, t, Order.PostOrder, rank, s1), Next(g2, t, Order.PostOrder, rank, s2);
      RunNullAsEmptyPostOrder(g, n, t, rank, p1.next, p2.next, k - 1);
      RunsMatchedStep(g, n, t, Order.PostOrder, rank, s1, s2, k, p1, p2);
    }
  }

  lemma RunNullAsEmpty(g: Graph, n: Node, t: Tracker, ord: Order, rank: Node -> nat, s1: State, s2: State, k: nat)
    requires Successors(g, n).None? && (ord.PostOrder? ==> DescentEnds(g, t, rank))
    requires Matched(ord, s1, s2)
    ensures ord.PostOrder? ==> DescentEnds(g[n := Some([])], t, rank)
    ensures RunsMatched(g, n, t, ord, rank, s1, s2, k)
  {
    NextNullAsEmpty(g, n, t, ord, rank, s1, s2);
    match ord {
      case BreadthFirst => RunNullAsEmptyBreadthFirst(g, n, t, rank, s1, s2, k);
      case PreOrder => RunNullAsEmptyPreOrder(g, n, t, rank, s1, s2, k);
      case PostOrder => RunNullAsEmptyPostOrder(g, n, t, rank, s1, s2, k);
    }
  }

  /**
   * A successor function that returns null for `n` and one that returns an empty stream
   * for `n` give, under any tracker and in any order, the same stream pull for pull: after
   * any number of pulls both sessions have yielded the same nodes, requested the same
   * successors and recorded the same set, and they have the same candidates left.
   */
  lemma NullStreamSameAsEmpty(g: Graph, rank: Node -> nat, t: Tracker, ord: Order, roots: seq<Node>, seen: set<Node>, n: Node, k: nat)
    requires Successors(g, n).None? && (ord.PostOrder? ==> DescentEnds(g, t, rank))
    ensures ord.PostOrder? ==> DescentEnds(g[n := Some([])], t, rank)
    ensures var r1 := Run(g, t, ord, rank, Begin(roots, seen), k);
            var r2 := Run(g[n := Some([])], t, ord, rank, Begin(roots, seen), k);
            && r1.emitted == r2.emitted && r1.last.seen == r2.last.seen
            && Live(r1.last.horizon) == Live(r2.last.horizon)
  {
    RunNullAsEmpty(g, n, t, ord, rank, Begin(roots, seen), Begin(roots, seen), k);
  }
}
