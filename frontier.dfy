/**
 * One traversal session as values: the horizon of sibling cursors, the post-order stack
 * of deferred parents and the tracker's backing set, and the three step routines that
 * each produce one pull of the lazy stream.
 */
module Frontier {
  import opened Graphs
  import opened Trackers

  datatype RawCursor = RawCursor(elems: seq<Node>, pos: nat)

  /**
   * A sibling cursor: the stream of one node's successors (or of the roots) and how many
   * of its elements have been consumed.
   */
  type Cursor = c: RawCursor | c.pos <= |c.elems| witness RawCursor([], 0)

  function Start(s: seq<Node>): Cursor
  {
    RawCursor(s, 0)
  }

  /** What the cursor has not yet handed out. */
  function Rest(c: Cursor): seq<Node>
  {
    c.elems[c.pos..]
  }

  /** A cursor that has not run out hands out its next candidate, then the rest. */
  lemma RestCons(c: Cursor)
    requires c.pos < |c.elems|
    ensures Rest(c) == [c.elems[c.pos]] + Rest(RawCursor(c.elems, c.pos + 1))
  {
  }

  /** Every node the cursors of `h` stream, consumed or not. */
  function CursorNodes(h: seq<Cursor>): set<Node>
  {
    set c, x | c in h && x in c.elems :: x
  }

  /**
   * Where a successor cursor goes: on top of the stack (`Deque::push`, pre-order) or at
   * the back of the queue (`Queue::add`, breadth-first).
   */
  datatype InsertionOrder = PushFront | AddBack

  function Insert(o: InsertionOrder, h: seq<Cursor>, c: Cursor): seq<Cursor>
  {
    match o
    case PushFront => [c] + h
    case AddBack => h + [c]
  }

  /**
   * Inserting keeps the waiting cursors and their order: a pushed cursor is served next,
   * an added one after every cursor already waiting.
   */
  lemma InsertPlaces(o: InsertionOrder, h: seq<Cursor>, c: Cursor)
    ensures var r := Insert(o, h, c);
            && |r| == |h| + 1 && multiset(r) == multiset(h) + multiset{c}
            && (o.PushFront? ==> r[0] == c && r[1..] == h)
            && (o.AddBack? ==> r[..|h|] == h && r[|h|] == c)
  {
  }

  /** The three orders a walker offers. */
  datatype Order = BreadthFirst | PreOrder | PostOrder

  /**
   * A session's state: the horizon (front first), the stack of deferred parents used by
   * post-order (top first) and the tracker's backing set.
   */
  datatype State = State(horizon: seq<Cursor>, post: seq<Node>, seen: set<Node>)

  /** What one `visitNext` leaves: the accepted candidate if any, the advanced cursor, the set. */
  datatype Visit = Visit(found: Option<Node>, cursor: Cursor, seen: set<Node>)

  /**
   * One pull: the node it yields (`None` for Java's null), the new state, and the nodes
   * whose successors were requested during the pull, in order.
   */
  datatype Pull = Pull(out: Option<Node>, next: State, expanded: seq<Node>)

  /** A fresh session over `roots`, sharing the walker's backing set `seen`. */
  function Begin(roots: seq<Node>, seen: set<Node>): State
  {
    State([Start(roots)], [], seen)
  }

  /**
   * `visitNext`: advances the front cursor until the tracker accepts a candidate or the
   * cursor runs out; the accepted candidate is the last element consumed.
   */
  function VisitNext(t: Tracker, c: Cursor, seen: set<Node>): (v: Visit)
    decreases |c.elems| - c.pos
    ensures v.cursor.elems == c.elems && c.pos <= v.cursor.pos
    ensures v.found.None? ==> v.cursor.pos == |c.elems|
    ensures v.found.Some? ==> c.pos < v.cursor.pos && v.found.value == c.elems[v.cursor.pos - 1]
    ensures seen <= v.seen
  {
    if c.pos == |c.elems| then Visit(None, c, seen)
    else
      var x := c.elems[c.pos];
      var advanced: Cursor := RawCursor(c.elems, c.pos + 1);
      var (ok, seen') := Test(t, seen, x);
      if ok then Visit(Some(x), advanced, seen') else VisitNext(t, advanced, seen')
  }

  /** The candidates `visitNext` passed over before it stopped. */
  function Skipped(c: Cursor, v: Visit): seq<Node>
    requires c.elems == v.cursor.elems && c.pos <= v.cursor.pos
    requires v.found.Some? ==> c.pos < v.cursor.pos
  {
    c.elems[c.pos..if v.found.Some? then v.cursor.pos - 1 else v.cursor.pos]
  }

  /**
   * Under a tracker without state, `visitNext` skips exactly the candidates the predicate
   * rejects and stops at the first one it accepts.
   */
  lemma {:induction false} VisitNextStateless(t: Tracker, c: Cursor, seen: set<Node>)
    requires !t.FirstVisit?
    ensures var v := VisitNext(t, c, seen);
            && v.seen == seen
            && (v.found.Some? ==> Keeps(t, v.found.value))
            && forall x | x in Skipped(c, v) :: !Keeps(t, x)
    decreases |c.elems| - c.pos
  {
    if c.pos < |c.elems| && !Keeps(t, c.elems[c.pos]) {
      var advanced: Cursor := RawCursor(c.elems, c.pos + 1);
      VisitNextStateless(t, advanced, seen);
      var v := VisitNext(t, c, seen);
      assert Skipped(c, v) == [c.elems[c.pos]] + Skipped(advanced, v);
    }
  }

  /**
   * Under the graph preset, `visitNext` skips only candidates already in the set and
   * adds to the set exactly the candidate it accepts.
   */
  lemma {:induction false} VisitNextFirstVisit(c: Cursor, seen: set<Node>)
    ensures var v := VisitNext(FirstVisit, c, seen);
            && v.seen == seen + Elems(OutSeq(v.found))
            && (v.found.Some? ==> v.found.value !in seen)
            && Elems(Skipped(c, v)) <= seen
    decreases |c.elems| - c.pos
  {
    if c.pos < |c.elems| && c.elems[c.pos] in seen {
      var advanced: Cursor := RawCursor(c.elems, c.pos + 1);
      VisitNextFirstVisit(advanced, seen + {c.elems[c.pos]});
      var v := VisitNext(FirstVisit, c, seen);
      assert seen + {c.elems[c.pos]} == seen;
      assert Skipped(c, v) == [c.elems[c.pos]] + Skipped(advanced, v);
    }
  }

  /** The tree preset never prunes: `visitNext` takes the very next candidate. */
  lemma VisitNextAcceptAll(c: Cursor, seen: set<Node>)
    ensures var v := VisitNext(AcceptAll, c, seen);
            v.found == (if c.pos < |c.elems| then Some(c.elems[c.pos]) else None)
            && Skipped(c, v) == []
  {
  }

  /**
   * The horizon after cursor `c` yielded `x` in front of the cursors `rest`: `c` is
   * resumed, and the successor cursor of `x`, unless its stream is null, is inserted on
   * top (pre-order) or at the back (breadth-first).
   */
  function Expand(g: Graph, o: InsertionOrder, x: Node, c: Cursor, rest: seq<Cursor>): seq<Cursor>
  {
    match Successors(g, x)
    case None => [c] + rest
    case Some(kids) => Insert(o, [c] + rest, Start(kids))
  }

  /**
   * `removeFromTop`: one pull of pre-order or breadth-first. It returns at most one node,
   * requests the successors of that node only, and returns null exactly when it has
   * emptied the horizon.
   */
  function RemoveFromTop(g: Graph, t: Tracker, o: InsertionOrder, st: State): (p: Pull)
    requires st.horizon != []
    decreases |st.horizon|
    ensures p.next.post == st.post
    ensures p.out.None? <==> p.next.horizon == []
    ensures p.expanded == OutSeq(p.out)
    ensures st.seen <= p.next.seen
  {
    var h := st.horizon;
    var v := VisitNext(t, h[0], st.seen);
    if v.found.Some? then
      Pull(v.found, State(Expand(g, o, v.found.value, v.cursor, h[1..]), st.post, v.seen), [v.found.value])
    else if |h| == 1 then
      Pull(None, State([], st.post, v.seen), [])
    else
      RemoveFromTop(g, t, o, State(h[1..], st.post, v.seen))
  }

  /** A top-down pull whose first visit finds a node yields it and expands it in place. */
  lemma RemoveFromTopFound(g: Graph, t: Tracker, o: InsertionOrder, st: State)
    requires st.horizon != []
    requires VisitNext(t, st.horizon[0], st.seen).found.Some?
    ensures var v := VisitNext(t, st.horizon[0], st.seen);
            RemoveFromTop(g, t, o, st)
              == Pull(v.found, State(Expand(g, o, v.found.value, v.cursor, st.horizon[1..]), st.post, v.seen), [v.found.value])
  {
  }

  /**
   * The cursors a yielding top-down pull leaves: the front cursors it found exhausted are
   * gone, the cursor that yielded the node is resumed, the successor cursor is placed by
   * the insertion order, and every cursor below is untouched and in its old order.
   */
  lemma {:induction false} RemoveFromTopPlaces(g: Graph, t: Tracker, o: InsertionOrder, st: State) returns (c: Cursor, j: nat)
    requires st.horizon != [] && RemoveFromTop(g, t, o, st).out.Some?
    decreases |st.horizon|
    ensures var p := RemoveFromTop(g, t, o, st);
            && 1 <= j <= |st.horizon|
            && 0 < c.pos && c.elems[c.pos - 1] == p.out.value
            && c.elems == st.horizon[j - 1].elems
            && p.next.horizon == Expand(g, o, p.out.value, c, st.horizon[j..])
  {
    var h := st.horizon;
    var v := VisitNext(t, h[0], st.seen);
    if v.found.Some? {
      RemoveFromTopFound(g, t, o, st);
      c, j := v.cursor, 1;
    } else {
      var st1 := State(h[1..], st.post, v.seen);
      assert RemoveFromTop(g, t, o, st) == RemoveFromTop(g, t, o, st1);
      var j1;
      c, j1 := RemoveFromTopPlaces(g, t, o, st1);
      j := j1 + 1;
      assert h[1..][j1..] == h[j..];
      assert h[1..][j1 - 1] == h[j - 1];
    }
  }

  /** A cursor with candidates still to hand out. */
  predicate HasLeft(c: Cursor)
  {
    c.pos < |c.elems|
  }

  /** The cursors of a horizon that still have candidates, in order. */
  function Live(h: seq<Cursor>): seq<Cursor>
  {
    if h == [] then []
    else if HasLeft(h[0]) then [h[0]] + Live(h[1..])
    else Live(h[1..])
  }

  lemma {:induction false} LiveAppend(a: seq<Cursor>, b: seq<Cursor>)
    ensures Live(a + b) == Live(a) + Live(b)
  {
    if a != [] {
      assert (a + b)[0] == a[0] && (a + b)[1..] == a[1..] + b;
      LiveAppend(a[1..], b);
      if HasLeft(a[0]) {
        assert [a[0]] + (Live(a[1..]) + Live(b)) == ([a[0]] + Live(a[1..])) + Live(b);
      }
    } else {
      assert a + b == b;
    }
  }

  /** Post-order sessions keep one horizon cursor more than deferred parents, until they end. */
  ghost predicate Shaped(st: State)
  {
    |st.horizon| == |st.post| + 1 || (st.horizon == [] && st.post == [])
  }

  /** The last node whose successors were requested had a null stream: it was emitted as a leaf. */
  predicate LeafEmitted(g: Graph, p: Pull)
  {
    p.expanded != [] && Successors(g, p.expanded[|p.expanded| - 1]).None?
  }

  /** What makes the descent loop of post-order stop: a deduplicating tracker, or an acyclic graph. */
  ghost predicate DescentEnds(g: Graph, t: Tracker, rank: Node -> nat)
  {
    t.FirstVisit? || RankedBy(g, rank)
  }

  /** Nodes a deduplicating tracker could still accept. */
  function DescentPool(g: Graph, t: Tracker, st: State): set<Node>
  {
    if t.FirstVisit? then (Listed(g) + CursorNodes(st.horizon)) - st.seen else {}
  }

  /** A bound on the ranks still ahead on the front cursor. */
  function DescentBound(t: Tracker, rank: Node -> nat, st: State): nat
  {
    if t.FirstVisit? || st.horizon == [] then 0 else Bound(rank, Rest(st.horizon[0]))
  }

  /** Pushing a successor cursor and resuming the front one adds no node beyond the graph's. */
  lemma PushedNodes(g: Graph, x: Node, kids: seq<Node>, c: Cursor, h: seq<Cursor>)
    requires h != [] && c.elems == h[0].elems && Successors(g, x) == Some(kids)
    ensures CursorNodes([Start(kids), c] + h[1..]) <= Listed(g) + CursorNodes(h)
  {
    ChildrenListed(g, x);
    assert Children(g, x) == kids;
    forall y | y in CursorNodes([Start(kids), c] + h[1..])
      ensures y in Listed(g) + CursorNodes(h)
    {
      var d :| d in [Start(kids), c] + h[1..] && y in d.elems;
      if d == Start(kids) {
        assert y in Elems(kids);
      } else if d == c {
        assert h[0] in h;
      } else {
        assert d in h;
      }
    }
  }

  lemma PoolShrinks(g: Graph, st: State, x: Node, kids: seq<Node>)
    requires st.horizon != []
    requires VisitNext(FirstVisit, st.horizon[0], st.seen).found == Some(x)
    requires Successors(g, x) == Some(kids)
    ensures var v := VisitNext(FirstVisit, st.horizon[0], st.seen);
            var st' := State([Start(kids), v.cursor] + st.horizon[1..], [x] + st.post, v.seen);
            DescentPool(g, FirstVisit, st') < DescentPool(g, FirstVisit, st)
  {
    var c := st.horizon[0];
    var v := VisitNext(FirstVisit, c, st.seen);
    var st' := State([Start(kids), v.cursor] + st.horizon[1..], [x] + st.post, v.seen);
    VisitNextFirstVisit(c, st.seen);
    assert x in v.seen;
    assert c.elems[v.cursor.pos - 1] == x;
    assert c in st.horizon && x in c.elems;
    assert x in CursorNodes(st.horizon);
    PushedNodes(g, x, kids, v.cursor, st.horizon);
    assert x in DescentPool(g, FirstVisit, st);
  }

  lemma BoundShrinks(g: Graph, t: Tracker, rank: Node -> nat, st: State, x: Node, kids: seq<Node>)
    requires st.horizon != [] && !t.FirstVisit? && RankedBy(g, rank)
    requires VisitNext(t, st.horizon[0], st.seen).found == Some(x)
    requires Successors(g, x) == Some(kids)
    ensures var v := VisitNext(t, st.horizon[0], st.seen);
            var st' := State([Start(kids), v.cursor] + st.horizon[1..], [x] + st.post, v.seen);
            DescentBound(t, rank, st') < DescentBound(t, rank, st)
  {
    var c := st.horizon[0];
    var v := VisitNext(t, c, st.seen);
    var i := v.cursor.pos - 1;
    ChildrenBound(g, rank, x);
    assert Children(g, x) == kids;
    assert x in Rest(c) by {
      assert Rest(c)[i - c.pos] == x;
    }
    BoundAbove(rank, Rest(c), x);
  }

  /** Each descent of post-order consumes a fresh node or climbs down the ranks. */
  lemma DescentShrinks(g: Graph, t: Tracker, rank: Node -> nat, st: State, x: Node, kids: seq<Node>)
    requires st.horizon != [] && DescentEnds(g, t, rank)
    requires VisitNext(t, st.horizon[0], st.seen).found == Some(x)
    requires Successors(g, x) == Some(kids)
    ensures var v := VisitNext(t, st.horizon[0], st.seen);
            var st' := State([Start(kids), v.cursor] + st.horizon[1..], [x] + st.post, v.seen);
            if t.FirstVisit? then DescentPool(g, t, st') < DescentPool(g, t, st)
            else DescentPool(g, t, st') == DescentPool(g, t, st)
                 && DescentBound(t, rank, st') < DescentBound(t, rank, st)
  {
    if t.FirstVisit? {
      PoolShrinks(g, st, x, kids);
    } else {
      BoundShrinks(g, t, rank, st, x, kids);
    }
  }

  /**
   * `removeFromBottom`: one pull of post-order. It descends while the front cursor yields
   * accepted candidates, deferring each node whose successor stream is not null onto the
   * post stack; a node with a null stream is emitted at once. When the front cursor runs
   * out it is popped and the most recently deferred parent, whose successors have all been
   * emitted, is emitted; an empty stack yields null, which happens only when the roots
   * cursor is popped.
   */
  function RemoveFromBottom(g: Graph, t: Tracker, rank: Node -> nat, st: State): (p: Pull)
    requires st.horizon != []
    requires DescentEnds(g, t, rank)
    decreases DescentPool(g, t, st), DescentBound(t, rank, st)
    ensures st.seen <= p.next.seen
  {
    var h := st.horizon;
    var v := VisitNext(t, h[0], st.seen);
    match v.found
    case Some(x) =>
      (match Successors(g, x)
       case None =>
         Pull(Some(x), State([v.cursor] + h[1..], st.post, v.seen), [x])
       case Some(kids) =>
         DescentShrinks(g, t, rank, st, x, kids);
         var p := RemoveFromBottom(g, t, rank, State([Start(kids), v.cursor] + h[1..], [x] + st.post, v.seen));
         Pull(p.out, p.next, [x] + p.expanded))
    case None =>
      var popped := PollFirst(st.post);
      Pull(popped.0, State(h[1..], popped.1, v.seen), [])
  }

  /** `Deque::pollFirst`: the top of the stack and what remains, or null on an empty stack. */
  function PollFirst(s: seq<Node>): (Option<Node>, seq<Node>)
  {
    if s == [] then (None, []) else (Some(s[0]), s[1..])
  }

  /** The nodes a post-order pull pushed onto the stack: all it expanded but an emitted leaf. */
  function Deferred(g: Graph, p: Pull): seq<Node>
  {
    if LeafEmitted(g, p) then p.expanded[..|p.expanded| - 1] else p.expanded
  }

  /**
   * Post-order defers every expanded node whose successor stream is not null, in the
   * order found, onto the stack `post`. The pull then emits either the leaf it stopped at
   * (a node with a null stream) or, once the front cursor is exhausted and popped, the
   * top of the stack: the deepest deferred parent, all of whose accepted successors
   * precede it.
   */
  ghost predicate DefersOnto(g: Graph, p: Pull, post: seq<Node>)
  {
    var stack := Reversed(Deferred(g, p)) + post;
    && (forall x | x in Deferred(g, p) :: Successors(g, x).Some?)
    && if LeafEmitted(g, p) then p.out == Some(p.expanded[|p.expanded| - 1]) && p.next.post == stack
       else (p.out, p.next.post) == PollFirst(stack)
  }

  lemma DefersCons(g: Graph, p: Pull, x: Node, post: seq<Node>)
    requires DefersOnto(g, p, [x] + post) && Successors(g, x).Some?
    ensures DefersOnto(g, Pull(p.out, p.next, [x] + p.expanded), post)
  {
    var q := Pull(p.out, p.next, [x] + p.expanded);
    assert LeafEmitted(g, q) == LeafEmitted(g, p);
    assert Deferred(g, q) == [x] + Deferred(g, p);
    assert Reversed(Deferred(g, q)) + post == Reversed(Deferred(g, p)) + ([x] + post);
  }

  lemma {:induction false} RemoveFromBottomDefers(g: Graph, t: Tracker, rank: Node -> nat, st: State)
    requires st.horizon != [] && DescentEnds(g, t, rank)
    decreases DescentPool(g, t, st), DescentBound(t, rank, st)
    ensures DefersOnto(g, RemoveFromBottom(g, t, rank, st), st.post)
  {
    var h := st.horizon;
    var v := VisitNext(t, h[0], st.seen);
    var p := RemoveFromBottom(g, t, rank, st);
    assert Reversed([]) == [];
    if v.found.Some? && Successors(g, v.found.value).Some? {
      var x := v.found.value;
      var kids := Successors(g, x).value;
      DescentShrinks(g, t, rank, st, x, kids);
      var st1 := State([Start(kids), v.cursor] + h[1..], [x] + st.post, v.seen);
      RemoveFromBottomDefers(g, t, rank, st1);
      var p1 := RemoveFromBottom(g, t, rank, st1);
      DefersCons(g, p1, x, st.post);
    } else if v.found.Some? {
      assert p.expanded == [v.found.value];
      assert LeafEmitted(g, p);
    } else {
      assert p.expanded == [] && Deferred(g, p) == [];
      assert !LeafEmitted(g, p);
      assert Reversed(Deferred(g, p)) + st.post == st.post;
      assert (p.out, p.next.post) == PollFirst(st.post);
    }
  }

  /**
   * A post-order session holds one cursor more than deferred parents; it yields null
   * exactly when the pull pops the roots cursor with the stack empty, which ends it.
   */
  lemma {:induction false} RemoveFromBottomShaped(g: Graph, t: Tracker, rank: Node -> nat, st: State)
    requires st.horizon != [] && DescentEnds(g, t, rank)
    requires Shaped(st)
    decreases DescentPool(g, t, st), DescentBound(t, rank, st)
    ensures var p := RemoveFromBottom(g, t, rank, st);
            Shaped(p.next) && (p.out.None? <==> p.next.horizon == [])
  {
    var h := st.horizon;
    var v := VisitNext(t, h[0], st.seen);
    if v.found.Some? && Successors(g, v.found.value).Some? {
      var x := v.found.value;
      var kids := Successors(g, x).value;
      DescentShrinks(g, t, rank, st, x, kids);
      RemoveFromBottomShaped(g, t, rank, State([Start(kids), v.cursor] + h[1..], [x] + st.post, v.seen));
    }
  }

  /**
   * One element of a session's stream. The stream runs while the horizon is not empty;
   * each pull runs the order's step routine, whose null result is filtered out.
   */
  function Next(g: Graph, t: Tracker, ord: Order, rank: Node -> nat, st: State): (p: Pull)
    requires ord.PostOrder? ==> DescentEnds(g, t, rank)
    ensures st.seen <= p.next.seen
    ensures st.horizon == [] ==> p.out.None? && p.next == st
  {
    if st.horizon == [] then Pull(None, st, [])
    else
      match ord
      case BreadthFirst => RemoveFromTop(g, t, AddBack, st)
      case PreOrder => RemoveFromTop(g, t, PushFront, st)
      case PostOrder => RemoveFromBottom(g, t, rank, st)
  }

  /** The shape every session keeps: post-order's balance, and no stack for the other orders. */
  ghost predicate SessionShape(ord: Order, st: State)
  {
    if ord.PostOrder? then Shaped(st) else st.post == []
  }

  /**
   * A step routine returns null only on the pull that empties the horizon, so filtering
   * out nulls drops nothing but the end of the stream, and the stream ends exactly when
   * the horizon is empty.
   */
  lemma NextEndsOnlyWhenEmpty(g: Graph, t: Tracker, ord: Order, rank: Node -> nat, st: State)
    requires ord.PostOrder? ==> DescentEnds(g, t, rank)
    requires SessionShape(ord, st) && st.horizon != []
    ensures var p := Next(g, t, ord, rank, st);
            SessionShape(ord, p.next) && (p.out.None? <==> p.next.horizon == [])
  {
    if ord.PostOrder? {
      RemoveFromBottomShaped(g, t, rank, st);
    }
  }

  /** The first pulls of a session: what they emitted, the state they left, what they expanded. */
  datatype Trace = Trace(emitted: seq<Node>, last: State, expanded: seq<Node>)

  /**
   * `n` pulls of a session's stream, starting from `st`. Once the horizon is empty the
   * stream has ended and further pulls yield nothing.
   */
  function Run(g: Graph, t: Tracker, ord: Order, rank: Node -> nat, st: State, n: nat): (r: Trace)
    requires ord.PostOrder? ==> DescentEnds(g, t, rank)
    ensures st.seen <= r.last.seen
    decreases n
  {
    if n == 0 then Trace([], st, [])
    else
      var p := Next(g, t, ord, rank, st);
      var r := Run(g, t, ord, rank, p.next, n - 1);
      Trace(OutSeq(p.out) + r.emitted, r.last, p.expanded + r.expanded)
  }

  lemma RunStep(g: Graph, t: Tracker, ord: Order, rank: Node -> nat, st: State, n: nat)
    requires ord.PostOrder? ==> DescentEnds(g, t, rank)
    requires n > 0
    ensures var p := Next(g, t, ord, rank, st);
            var r := Run(g, t, ord, rank, p.next, n - 1);
            Run(g, t, ord, rank, st, n) == Trace(OutSeq(p.out) + r.emitted, r.last, p.expanded + r.expanded)
  {
  }

  /** Under a tracker without state a top-down pull leaves the backing set as it was. */
  lemma {:induction false} RemoveFromTopStateless(g: Graph, t: Tracker, o: InsertionOrder, st: State)
    requires st.horizon != [] && !t.FirstVisit?
    decreases |st.horizon|
    ensures RemoveFromTop(g, t, o, st).next.seen == st.seen
  {
    var h := st.horizon;
    VisitNextStateless(t, h[0], st.seen);
    var v := VisitNext(t, h[0], st.seen);
    if v.found.None? && |h| > 1 {
      RemoveFromTopStateless(g, t, o, State(h[1..], st.post, v.seen));
    }
  }

  /** Under a tracker without state a post-order pull leaves the backing set as it was. */
  lemma {:induction false} RemoveFromBottomStateless(g: Graph, t: Tracker, rank: Node -> nat, st: State)
    requires st.horizon != [] && !t.FirstVisit? && DescentEnds(g, t, rank)
    decreases DescentPool(g, t, st), DescentBound(t, rank, st)
    ensures RemoveFromBottom(g, t, rank, st).next.seen == st.seen
  {
    var h := st.horizon;
    VisitNextStateless(t, h[0], st.seen);
    var v := VisitNext(t, h[0], st.seen);
    if v.found.Some? && Successors(g, v.found.value).Some? {
      var x := v.found.value;
      var kids := Successors(g, x).value;
      DescentShrinks(g, t, rank, st, x, kids);
      RemoveFromBottomStateless(g, t, rank, State([Start(kids), v.cursor] + h[1..], [x] + st.post, v.seen));
    }
  }

  lemma NextStateless(g: Graph, t: Tracker, ord: Order, rank: Node -> nat, st: State)
    requires !t.FirstVisit? && (ord.PostOrder? ==> DescentEnds(g, t, rank))
    ensures Next(g, t, ord, rank, st).next.seen == st.seen
  {
    if st.horizon != [] {
      match ord {
        case BreadthFirst => RemoveFromTopStateless(g, t, AddBack, st);
        case PreOrder => RemoveFromTopStateless(g, t, PushFront, st);
        case PostOrder => RemoveFromBottomStateless(g, t, rank, st);
      }
    }
  }

  /**
   * A walker whose tracker keeps no state (the tree preset, or a pure caller predicate)
   * never changes its backing set, however many elements its streams are pulled for.
   */
  lemma {:induction false} RunStateless(g: Graph, t: Tracker, ord: Order, rank: Node -> nat, st: State, n: nat)
    requires !t.FirstVisit? && (ord.PostOrder? ==> DescentEnds(g, t, rank))
    decreases n
    ensures Run(g, t, ord, rank, st, n).last.seen == st.seen
  {
    if n > 0 {
      NextStateless(g, t, ord, rank, st);
      RunStateless(g, t, ord, rank, Next(g, t, ord, rank, st).next, n - 1);
    }
  }
}
