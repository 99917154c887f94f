/**
 * The walker and its traversals as objects. A `Walker` holds the successor function and
 * the tracker, whose backing set it updates in place; each entry point creates a fresh
 * `Traversal` whose horizon and post-order stack its step routines update in place. Every
 * method is proved to do what the matching function of `Frontier` computes.
 */
module WalkerModel {
  import opened Graphs
  import opened Trackers
  import opened Frontier
  import NullStreams
  import GraphMode
  import GraphCoverage

  /** What a pull leaves: the node it yields, and the new session state. */
  function Outcome(p: Pull): (Option<Node>, State)
  {
    (p.out, p.next)
  }

  class Walker {
    /** `findSuccessors`. */
    const g: Graph
    /** `tracker`. */
    const tracker: Tracker
    /** The `HashSet` behind the graph walker's tracker; other trackers leave it alone. */
    var seen: set<Node>

    /** `newTreeWalker`: a tracker that accepts every node. */
    constructor TreeWalker(successors: Graph)
      ensures g == successors && tracker == AcceptAll && seen == {}
    {
      g := successors;
      tracker := AcceptAll;
      seen := {};
    }

    /** `newGraphWalker`: a tracker that accepts a node the first time it is tested. */
    constructor GraphWalker(successors: Graph)
      ensures g == successors && tracker == FirstVisit && seen == {}
    {
      g := successors;
      tracker := FirstVisit;
      seen := {};
    }

    /** `newWalker`: a caller-supplied predicate as the tracker. */
    constructor CustomWalker(successors: Graph, accepts: Node -> bool)
      ensures g == successors && tracker == Custom(accepts) && seen == {}
    {
      g := successors;
      tracker := Custom(accepts);
      seen := {};
    }

    /** `tracker.test(n)`. */
    method Test(n: Node) returns (ok: bool)
      modifies this
      ensures (ok, seen) == Trackers.Test(tracker, old(seen), n)
    {
      match tracker
      case AcceptAll =>
        ok := true;
      case FirstVisit =>
        ok := n !in seen;
        seen := seen + {n};
      case Custom(p) =>
        ok := p(n);
    }

    /** `breadthFirstFrom(Iterable)`. */
    method BreadthFirstFrom(roots: seq<Node>) returns (s: Traversal)
      ensures fresh(s) && s.walker == this && s.order == BreadthFirst
      ensures s.State() == Begin(roots, seen)
    {
      s := new Traversal(this);
      s.BreadthFirst(roots);
    }

    /** `preOrderFrom(Iterable)`. */
    method PreOrderFrom(roots: seq<Node>) returns (s: Traversal)
      ensures fresh(s) && s.walker == this && s.order == PreOrder
      ensures s.State() == Begin(roots, seen)
    {
      s := new Traversal(this);
      s.PreOrder(roots);
    }

    /** `postOrderFrom(Iterable)`. */
    method PostOrderFrom(roots: seq<Node>) returns (s: Traversal)
      ensures fresh(s) && s.walker == this && s.order == PostOrder
      ensures s.State() == Begin(roots, seen)
    {
      s := new Traversal(this);
      s.PostOrder(roots);
    }

    /**
     * The varargs entry points: the arguments are copied into a list first, so a null
     * argument fails the call before any traversal exists.
     */
    method From(ord: Order, values: seq<Option<Node>>) returns (r: Result<Traversal>)
      ensures r.NullRoot? <==> NonNullList(values).NullRoot?
      ensures r.NullRoot? ==> r.index == NonNullList(values).index
      ensures r.Ok? ==> fresh(r.value) && r.value.walker == this && r.value.order == ord
                        && r.value.State() == Begin(NonNullList(values).value, seen)
    {
      match NonNullList(values)
      case NullRoot(i) =>
        r := NullRoot(i);
      case Ok(roots) =>
        var s := TraversalFrom(ord, roots);
        r := Ok(s);
    }

    /** The `Iterable` entry point of order `ord`. */
    method TraversalFrom(ord: Order, roots: seq<Node>) returns (s: Traversal)
      ensures fresh(s) && s.walker == this && s.order == ord
      ensures s.State() == Begin(roots, seen)
    {
      match ord {
        case BreadthFirst => s := BreadthFirstFrom(roots);
        case PreOrder => s := PreOrderFrom(roots);
        case PostOrder => s := PostOrderFrom(roots);
      }
    }

    /**
     * Consumes a whole stream of a walker whose tracker keeps no state, over a graph that
     * `rank` shows to be acyclic: the stream ends, yields the order's reference sequence,
     * and leaves the walker as it found it, so the same walker may be reused.
     */
    method Walk(ord: Order, roots: seq<Node>, ghost rank: Node -> nat) returns (emitted: seq<Node>)
      requires RankedBy(g, rank) && !tracker.FirstVisit?
      modifies this
      ensures emitted == NullStreams.OrderOf(g, rank, tracker, ord, roots)
      ensures seen == old(seen)
    {
      var s := TraversalFrom(ord, roots);
      ghost var k := NullStreams.SessionComplete(g, rank, tracker, ord, roots, seen);
      RunStateless(g, tracker, ord, rank, s.State(), k);
      emitted := s.Drain(rank, k);
    }

    /**
     * Consumes a whole stream of the graph walker: the stream ends, yields no node twice and
     * no node an earlier stream of this walker yielded or expanded, and remembers exactly
     * the nodes it yields. It misses nothing: every root and every successor of a yielded
     * node was yielded or was remembered before the stream began.
     */
    method WalkGraph(ord: Order, roots: seq<Node>) returns (emitted: seq<Node>)
      requires tracker.FirstVisit?
      modifies this
      ensures Distinct(emitted) && Elems(emitted) !! old(seen) && seen == old(seen) + Elems(emitted)
      ensures Elems(roots) <= Elems(emitted) + old(seen)
      ensures forall x | x in emitted :: Elems(Children(g, x)) <= Elems(emitted) + old(seen)
    {
      var s := TraversalFrom(ord, roots);
      ghost var rank: Node -> nat := _ => 0;
      ghost var k := GraphCoverage.GraphSessionCovers(g, ord, rank, roots, seen);
      GraphMode.GraphSessionOnce(g, ord, rank, roots, seen, k);
      emitted := s.Drain(rank, k);
    }
  }

  /**
   * One traversal session and the stream it backs: the horizon of sibling cursors (front
   * first), the post-order stack (top first), the last node a cursor handed out, and the
   * order its stream was set up for.
   */
  class Traversal {
    const walker: Walker
    var horizon: seq<Cursor>
    var post: seq<Node>
    var visited: Node
    var order: Order

    ghost function State(): State
      reads this, walker
    {
      Frontier.State(horizon, post, walker.seen)
    }

    constructor(w: Walker)
      ensures walker == w && horizon == [] && post == []
    {
      walker := w;
      horizon := [];
      post := [];
      visited := 0;
      order := Order.PreOrder;
    }

    /** `breadthFirst`: the roots cursor is added to the queue. */
    method BreadthFirst(roots: seq<Node>)
      requires horizon == [] && post == []
      modifies this
      ensures horizon == [Start(roots)] && post == [] && order == Order.BreadthFirst
    {
      horizon := horizon + [Start(roots)];
      order := Order.BreadthFirst;
    }

    /** `preOrder`: the roots cursor is pushed onto the stack. */
    method PreOrder(roots: seq<Node>)
      requires horizon == [] && post == []
      modifies this
      ensures horizon == [Start(roots)] && post == [] && order == Order.PreOrder
    {
      horizon := [Start(roots)] + horizon;
      order := Order.PreOrder;
    }

    /** `postOrder`: the roots cursor is pushed, and the stream gets an empty post stack. */
    method PostOrder(roots: seq<Node>)
      requires horizon == [] && post == []
      modifies this
      ensures horizon == [Start(roots)] && post == [] && order == Order.PostOrder
    {
      horizon := [Start(roots)] + horizon;
      post := [];
      order := Order.PostOrder;
    }

    /**
     * `visitNext`: advances the front cursor until the tracker accepts what it hands out;
     * false once that cursor is exhausted.
     */
    method VisitNext() returns (found: bool)
      requires horizon != []
      modifies this, walker
      ensures var v := Frontier.VisitNext(walker.tracker, old(horizon[0]), old(walker.seen));
              && found == v.found.Some?
              && (found ==> visited == v.found.value)
              && horizon == [v.cursor] + old(horizon[1..])
              && walker.seen == v.seen
      ensures post == old(post) && order == old(order)
    {
      var top: Cursor := horizon[0];
      ghost var goal := Frontier.VisitNext(walker.tracker, top, walker.seen);
      while top.pos < |top.elems|
        invariant horizon == [top] + old(horizon[1..]) && post == old(post) && order == old(order)
        invariant Frontier.VisitNext(walker.tracker, top, walker.seen) == goal
        decreases |top.elems| - top.pos
      {
        visited := top.elems[top.pos];
        top := RawCursor(top.elems, top.pos + 1);
        horizon := [top] + horizon[1..];
        var ok := walker.Test(visited);
        if ok {
          return true;
        }
      }
      return false;
    }

    /**
     * `removeFromTop`: one pull of breadth-first or pre-order. A found node is returned and
     * its successor cursor, unless null, inserted; an exhausted front cursor is removed and
     * the next one tried; null once the horizon is empty.
     */
    method RemoveFromTop(o: InsertionOrder) returns (next: Option<Node>)
      requires horizon != []
      modifies this, walker
      ensures (next, State()) == Outcome(Frontier.RemoveFromTop(walker.g, walker.tracker, o, old(State())))
      ensures order == old(order)
    {
      ghost var goal := Outcome(Frontier.RemoveFromTop(walker.g, walker.tracker, o, State()));
      while true
        invariant horizon != [] && order == old(order)
        invariant Outcome(Frontier.RemoveFromTop(walker.g, walker.tracker, o, State())) == goal
        decreases |horizon|
      {
        ghost var before := State();
        TopStep(walker.g, walker.tracker, o, before);
        var found := VisitNext();
        if found {
          var x := visited;
          match Successors(walker.g, x) {
            case None =>
            case Some(kids) =>
              horizon := Insert(o, horizon, Start(kids));
          }
          return Some(x);
        }
        horizon := horizon[1..];
        if horizon == [] {
          return None;
        }
      }
    }

    /**
     * `removeFromBottom`: one pull of post-order. Found nodes with successors are pushed
     * with their successor cursors until a node with a null stream is found and returned;
     * an exhausted front cursor is popped and the top of the post stack returned, null when
     * the stack is empty. The descent ends under the graph tracker, or on a graph that
     * `rank` shows to be acyclic.
     */
    method RemoveFromBottom(ghost rank: Node -> nat) returns (next: Option<Node>)
      requires horizon != [] && DescentEnds(walker.g, walker.tracker, rank)
      modifies this, walker
      ensures (next, State()) == Outcome(Frontier.RemoveFromBottom(walker.g, walker.tracker, rank, old(State())))
      ensures order == old(order)
    {
      ghost var goal := Outcome(Frontier.RemoveFromBottom(walker.g, walker.tracker, rank, State()));
      while true
        invariant horizon != [] && order == old(order)
        invariant Outcome(Frontier.RemoveFromBottom(walker.g, walker.tracker, rank, State())) == goal
        decreases DescentPool(walker.g, walker.tracker, State()), DescentBound(walker.tracker, rank, State())
      {
        ghost var before := State();
        var found := VisitNext();
        if !found {
          BottomExhausted(walker.g, walker.tracker, rank, before);
          break;
        }
        var x := visited;
        match Successors(walker.g, x) {
          case None =>
            BottomLeaf(walker.g, walker.tracker, rank, before);
            return Some(x);
          case Some(kids) =>
            BottomDescends(walker.g, walker.tracker, rank, before, x, kids);
            horizon := [Start(kids)] + horizon;
            post := [x] + post;
        }
      }
      horizon := horizon[1..];
      if post == [] {
        next := None;
      } else {
        next := Some(post[0]);
        post := post[1..];
      }
    }

    /**
     * One element of the stream: while the horizon is not empty, run the order's step
     * routine; its null result is what `filter(Objects::nonNull)` drops.
     */
    method Pull(ghost rank: Node -> nat) returns (out: Option<Node>)
      requires order.PostOrder? ==> DescentEnds(walker.g, walker.tracker, rank)
      modifies this, walker
      ensures order == old(order)
      ensures Pulled(walker.g, walker.tracker, order, rank, old(State()), out, State())
    {
      if horizon == [] {
        out := None;
      } else {
        match order {
          case BreadthFirst => out := RemoveFromTop(AddBack);
          case PreOrder => out := RemoveFromTop(PushFront);
          case PostOrder => out := RemoveFromBottom(rank);
        }
      }
    }

    /** Consumes `n` pulls of the stream and returns the non-null nodes they yielded. */
    method Take(ghost rank: Node -> nat, n: nat) returns (emitted: seq<Node>)
      requires order.PostOrder? ==> DescentEnds(walker.g, walker.tracker, rank)
      modifies this, walker
      ensures order == old(order)
      ensures var r := Run(walker.g, walker.tracker, order, rank, old(State()), n);
              emitted == r.emitted && State() == r.last
    {
      ghost var goal := Run(walker.g, walker.tracker, order, rank, State(), n);
      emitted := [];
      var i := 0;
      while i < n
        invariant i <= n && order == old(order)
        invariant Owed(walker.g, walker.tracker, order, rank, State(), n - i, emitted, goal)
      {
        ghost var before := State();
        var out := Pull(rank);
        OwedStep(walker.g, walker.tracker, order, rank, before, n - i, emitted, goal, out, State());
        emitted := emitted + OutSeq(out);
        i := i + 1;
      }
    }

    /**
     * Consumes the stream to its end, which `k` pulls reach; the stream has ended once the
     * horizon is empty.
     */
    method Drain(ghost rank: Node -> nat, ghost k: nat) returns (emitted: seq<Node>)
      requires order.PostOrder? ==> DescentEnds(walker.g, walker.tracker, rank)
      requires Run(walker.g, walker.tracker, order, rank, State(), k).last.horizon == []
      modifies this, walker
      ensures order == old(order)
      ensures var r := Run(walker.g, walker.tracker, order, rank, old(State()), k);
              emitted == r.emitted && State() == r.last && horizon == []
    {
      ghost var goal := Run(walker.g, walker.tracker, order, rank, State(), k);
      emitted := [];
      ghost var m := k;
      while horizon != []
        invariant order == old(order) && goal.last.horizon == []
        invariant Owed(walker.g, walker.tracker, order, rank, State(), m, emitted, goal)
        decreases m
      {
        ghost var before := State();
        OwedEnds(walker.g, walker.tracker, order, rank, before, m, emitted, goal);
        var out := Pull(rank);
        OwedStep(walker.g, walker.tracker, order, rank, before, m, emitted, goal, out, State());
        emitted := emitted + OutSeq(out);
        m := m - 1;
      }
      OwedEnds(walker.g, walker.tracker, order, rank, State(), m, emitted, goal);
    }
  }

  /** One round of the `removeFromTop` loop: what the visit of the front cursor decides. */
  lemma TopStep(g: Graph, t: Tracker, o: InsertionOrder, st: State)
    requires st.horizon != []
    ensures var v := Frontier.VisitNext(t, st.horizon[0], st.seen);
            var p := Frontier.RemoveFromTop(g, t, o, st);
            if v.found.Some? then
              Outcome(p) == (v.found, Frontier.State(Expand(g, o, v.found.value, v.cursor, st.horizon[1..]), st.post, v.seen))
            else if |st.horizon| == 1 then
              Outcome(p) == (None, Frontier.State([], st.post, v.seen))
            else
              p == Frontier.RemoveFromTop(g, t, o, Frontier.State(st.horizon[1..], st.post, v.seen))
  {
  }

  /** The `removeFromBottom` loop ends on an exhausted front cursor: pop it, then poll the stack. */
  lemma BottomExhausted(g: Graph, t: Tracker, rank: Node -> nat, st: State)
    requires st.horizon != [] && DescentEnds(g, t, rank)
    requires Frontier.VisitNext(t, st.horizon[0], st.seen).found.None?
    ensures var v := Frontier.VisitNext(t, st.horizon[0], st.seen);
            Outcome(Frontier.RemoveFromBottom(g, t, rank, st))
              == (PollFirst(st.post).0, Frontier.State(st.horizon[1..], PollFirst(st.post).1, v.seen))
  {
  }

  /** The `removeFromBottom` loop returns a found node whose successor stream is null. */
  lemma BottomLeaf(g: Graph, t: Tracker, rank: Node -> nat, st: State)
    requires st.horizon != [] && DescentEnds(g, t, rank)
    requires var v := Frontier.VisitNext(t, st.horizon[0], st.seen);
             v.found.Some? && Successors(g, v.found.value).None?
    ensures var v := Frontier.VisitNext(t, st.horizon[0], st.seen);
            Outcome(Frontier.RemoveFromBottom(g, t, rank, st))
              == (v.found, Frontier.State([v.cursor] + st.horizon[1..], st.post, v.seen))
  {
  }

  /**
   * The `removeFromBottom` loop descends into a found node with successors: it pushes the
   * successor cursor and the node, and goes on with a smaller descent measure.
   */
  lemma BottomDescends(g: Graph, t: Tracker, rank: Node -> nat, st: State, x: Node, kids: seq<Node>)
    requires st.horizon != [] && DescentEnds(g, t, rank)
    requires Frontier.VisitNext(t, st.horizon[0], st.seen).found == Some(x)
    requires Successors(g, x) == Some(kids)
    ensures var v := Frontier.VisitNext(t, st.horizon[0], st.seen);
            var st' := Frontier.State([Start(kids)] + ([v.cursor] + st.horizon[1..]), [x] + st.post, v.seen);
            && Outcome(Frontier.RemoveFromBottom(g, t, rank, st)) == Outcome(Frontier.RemoveFromBottom(g, t, rank, st'))
            && (DescentPool(g, t, st'), DescentBound(t, rank, st')) != (DescentPool(g, t, st), DescentBound(t, rank, st))
            && DescentPool(g, t, st') <= DescentPool(g, t, st)
            && (DescentPool(g, t, st') == DescentPool(g, t, st) ==> DescentBound(t, rank, st') < DescentBound(t, rank, st))
  {
    var v := Frontier.VisitNext(t, st.horizon[0], st.seen);
    assert [Start(kids)] + ([v.cursor] + st.horizon[1..]) == [Start(kids), v.cursor] + st.horizon[1..];
    DescentShrinks(g, t, rank, st, x, kids);
  }

  /**
   * What a consumer that has taken `emitted` so far still owes to reach `goal`: the rest of
   * the stream, `m` pulls from state `st`.
   */
  ghost predicate Owed(g: Graph, t: Tracker, ord: Order, rank: Node -> nat, st: State, m: nat, emitted: seq<Node>, goal: Trace)
    requires ord.PostOrder? ==> DescentEnds(g, t, rank)
  {
    var r := Run(g, t, ord, rank, st, m);
    emitted + r.emitted == goal.emitted && r.last == goal.last
  }

  /** One pull moves its node from what is owed to what was taken. */
  lemma OwedStep(g: Graph, t: Tracker, ord: Order, rank: Node -> nat, st: State, m: nat, emitted: seq<Node>, goal: Trace, out: Option<Node>, st': State)
    requires ord.PostOrder? ==> DescentEnds(g, t, rank)
    requires m > 0 && Owed(g, t, ord, rank, st, m, emitted, goal) && Pulled(g, t, ord, rank, st, out, st')
    ensures Owed(g, t, ord, rank, st', m - 1, emitted + OutSeq(out), goal)
  {
    RunStep(g, t, ord, rank, st, m);
  }

  /**
   * A stream that has not ended still owes a pull; one that has ended owes nothing: what
   * was taken is all there is.
   */
  lemma {:induction false} OwedEnds(g: Graph, t: Tracker, ord: Order, rank: Node -> nat, st: State, m: nat, emitted: seq<Node>, goal: Trace)
    requires ord.PostOrder? ==> DescentEnds(g, t, rank)
    requires Owed(g, t, ord, rank, st, m, emitted, goal) && goal.last.horizon == []
    ensures st.horizon != [] ==> m > 0
    ensures st.horizon == [] ==> emitted == goal.emitted && st == goal.last
    decreases m
  {
    if st.horizon == [] && m > 0 {
      RunStep(g, t, ord, rank, st, m);
      OwedEnds(g, t, ord, rank, st, m - 1, emitted, goal);
    }
  }

  ghost predicate Pulled(g: Graph, t: Tracker, ord: Order, rank: Node -> nat, st: State, out: Option<Node>, st': State)
    requires ord.PostOrder? ==> DescentEnds(g, t, rank)
  {
    var p := Next(g, t, ord, rank, st);
    out == p.out && st' == p.next
  }
}
