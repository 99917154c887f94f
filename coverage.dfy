/**
 * What a finished graph-walker session yields, from below: every root and every successor
 * of a yielded node was yielded by the session or was already in the walker's set when it
 * started. Since the set grows by exactly the nodes yielded, the session yields every node
 * reachable from the roots through nodes the walker had not seen before.
 */
module GraphCoverage {
  import opened Graphs
  import opened Trackers
  import opened Frontier
  import GraphMode

  /** The candidates the cursors of a horizon have yet to hand out. */
  function Pending(h: seq<Cursor>): set<Node>
  {
    if h == [] then {} else Elems(Rest(h[0])) + Pending(h[1..])
  }

  lemma {:induction false} PendingAppend(a: seq<Cursor>, b: seq<Cursor>)
    ensures Pending(a + b) == Pending(a) + Pending(b)
  {
    if a != [] {
      assert (a + b)[0] == a[0] && (a + b)[1..] == a[1..] + b;
      PendingAppend(a[1..], b);
    } else {
      assert a + b == b;
    }
  }

  /** The successors of the nodes of `a`. */
  function ChildSet(g: Graph, a: set<Node>): set<Node>
  {
    set x, y | x in a && y in Children(g, x) :: y
  }

  lemma ChildSetOne(g: Graph, x: Node)
    ensures ChildSet(g, {x}) == Elems(Children(g, x))
  {
    forall y | y in Elems(Children(g, x)) ensures y in ChildSet(g, {x}) {
      assert x in {x} && y in Children(g, x);
    }
  }

  lemma ChildSetNone(g: Graph)
    ensures ChildSet(g, {}) == {}
  {
  }

  lemma ChildSetUnion(g: Graph, a: set<Node>, b: set<Node>)
    ensures ChildSet(g, a + b) == ChildSet(g, a) + ChildSet(g, b)
  {
  }

  /** Every node of `need` has been tested, or sits on a cursor that will hand it out. */
  ghost predicate Covered(need: set<Node>, st: State)
  {
    need <= st.seen + Pending(st.horizon)
  }

  /** The candidates a graph walker's visit passes over all land in the set. */
  lemma {:induction false} VisitCovers(c: Cursor, seen: set<Node>)
    decreases |c.elems| - c.pos
    ensures var v := VisitNext(FirstVisit, c, seen);
            Elems(Rest(c)) <= v.seen + Elems(Rest(v.cursor))
  {
    if c.pos < |c.elems| {
      var x := c.elems[c.pos];
      var advanced: Cursor := RawCursor(c.elems, c.pos + 1);
      RestCons(c);
      assert Elems(Rest(c)) == {x} + Elems(Rest(advanced));
      if x in seen {
        VisitCovers(advanced, seen + {x});
      }
    }
  }

  /** Resuming after `x`: the horizon's pending candidates gain exactly `x`'s successors. */
  lemma ExpandPending(g: Graph, o: InsertionOrder, x: Node, c: Cursor, rest: seq<Cursor>)
    ensures Pending(Expand(g, o, x, c, rest)) == Elems(Children(g, x)) + Elems(Rest(c)) + Pending(rest)
  {
    PendingAppend([c], rest);
    if Successors(g, x).Some? {
      var k := Start(Successors(g, x).value);
      assert Rest(k) == Children(g, x);
      PendingAppend([k], [c] + rest);
      PendingAppend([c] + rest, [k]);
    }
  }

  /**
   * A top-down pull of a graph walker keeps covered what was covered, and covers the
   * successors of the node it accepts.
   */
  lemma {:induction false} TopCovers(g: Graph, o: InsertionOrder, st: State, need: set<Node>)
    requires st.horizon != [] && Covered(need, st)
    decreases |st.horizon|
    ensures var p := RemoveFromTop(g, FirstVisit, o, st);
            Covered(need + ChildSet(g, p.next.seen - st.seen), p.next)
  {
    var h := st.horizon;
    var v := VisitNext(FirstVisit, h[0], st.seen);
    VisitCovers(h[0], st.seen);
    VisitNextFirstVisit(h[0], st.seen);
    assert Pending(h) == Elems(Rest(h[0])) + Pending(h[1..]);
    if v.found.Some? {
      var x := v.found.value;
      assert v.seen - st.seen == {x};
      ChildSetOne(g, x);
      ExpandPending(g, o, x, v.cursor, h[1..]);
    } else {
      assert v.seen == st.seen && Rest(v.cursor) == [];
      if |h| > 1 {
        TopCovers(g, o, State(h[1..], st.post, v.seen), need);
      } else {
        ChildSetNone(g);
      }
    }
  }

  /** A post-order pull that stops at once, at a leaf or an exhausted cursor. */
  lemma BottomStopCovers(g: Graph, rank: Node -> nat, st: State, need: set<Node>)
    requires st.horizon != [] && Covered(need, st)
    requires var v := VisitNext(FirstVisit, st.horizon[0], st.seen);
             v.found.None? || Successors(g, v.found.value).None?
    ensures var p := RemoveFromBottom(g, FirstVisit, rank, st);
            Covered(need + ChildSet(g, p.next.seen - st.seen), p.next)
  {
    var h := st.horizon;
    var v := VisitNext(FirstVisit, h[0], st.seen);
    VisitCovers(h[0], st.seen);
    VisitNextFirstVisit(h[0], st.seen);
    assert Pending(h) == Elems(Rest(h[0])) + Pending(h[1..]);
    if v.found.Some? {
      var x := v.found.value;
      assert v.seen - st.seen == {x};
      ChildSetOne(g, x);
      assert Pending([v.cursor] + h[1..]) == Elems(Rest(v.cursor)) + Pending(h[1..]);
    } else {
      assert v.seen == st.seen && Rest(v.cursor) == [];
      ChildSetNone(g);
    }
  }

  /** Descending into `x` covers what was covered, and `x`'s successors too. */
  lemma DescendCovers(g: Graph, st: State, need: set<Node>, x: Node, kids: seq<Node>)
    requires st.horizon != [] && Covered(need, st)
    requires VisitNext(FirstVisit, st.horizon[0], st.seen).found == Some(x)
    requires Successors(g, x) == Some(kids)
    ensures var v := VisitNext(FirstVisit, st.horizon[0], st.seen);
            && v.seen == st.seen + {x} && x !in st.seen
            && Covered(need + Elems(kids), State([Start(kids), v.cursor] + st.horizon[1..], [x] + st.post, v.seen))
  {
    var h := st.horizon;
    var v := VisitNext(FirstVisit, h[0], st.seen);
    VisitCovers(h[0], st.seen);
    VisitNextFirstVisit(h[0], st.seen);
    assert Pending(h) == Elems(Rest(h[0])) + Pending(h[1..]);
    var h' := [Start(kids), v.cursor] + h[1..];
    assert h'[1..] == [v.cursor] + h[1..];
    assert ([v.cursor] + h[1..])[1..] == h[1..];
    assert Pending(h') == Elems(kids) + (Elems(Rest(v.cursor)) + Pending(h[1..]));
  }

  /** The successors of `x`, accepted before the rest of the pull, join what it covers. */
  lemma GrowCovered(g: Graph, need: set<Node>, x: Node, seen0: set<Node>, seen1: set<Node>, next: State)
    requires seen1 == seen0 + {x} && x !in seen0 && seen1 <= next.seen
    requires Covered(need + Elems(Children(g, x)) + ChildSet(g, next.seen - seen1), next)
    ensures Covered(need + ChildSet(g, next.seen - seen0), next)
  {
    assert next.seen - seen0 == {x} + (next.seen - seen1);
    ChildSetUnion(g, {x}, next.seen - seen1);
    ChildSetOne(g, x);
  }

  /**
   * A post-order pull of a graph walker keeps covered what was covered, and covers the
   * successors of every node it accepts on the way down.
   */
  lemma {:induction false} BottomCovers(g: Graph, rank: Node -> nat, st: State, need: set<Node>)
    requires st.horizon != [] && Covered(need, st)
    decreases DescentPool(g, FirstVisit, st), DescentBound(FirstVisit, rank, st)
    ensures var p := RemoveFromBottom(g, FirstVisit, rank, st);
            Covered(need + ChildSet(g, p.next.seen - st.seen), p.next)
  {
    var h := st.horizon;
    var v := VisitNext(FirstVisit, h[0], st.seen);
    if v.found.Some? && Successors(g, v.found.value).Some? {
      var x := v.found.value;
      var kids := Successors(g, x).value;
      DescentShrinks(g, FirstVisit, rank, st, x, kids);
      DescendCovers(g, st, need, x, kids);
      var st' := State([Start(kids), v.cursor] + h[1..], [x] + st.post, v.seen);
      BottomCovers(g, rank, st', need + Elems(kids));
      var p := RemoveFromBottom(g, FirstVisit, rank, st');
      assert Children(g, x) == kids;
      GrowCovered(g, need, x, st.seen, st'.seen, p.next);
    } else {
      BottomStopCovers(g, rank, st, need);
    }
  }

  lemma NextCovers(g: Graph, ord: Order, rank: Node -> nat, st: State, need: set<Node>)
    requires Covered(need, st)
    ensures var next := GraphMode.StepState(g, ord, rank, st);
            Covered(need + ChildSet(g, next.seen - st.seen), next)
  {
    if st.horizon == [] {
      ChildSetNone(g);
    } else {
      match ord {
        case BreadthFirst => TopCovers(g, AddBack, st, need);
        case PreOrder => TopCovers(g, PushFront, st, need);
        case PostOrder => BottomCovers(g, rank, st, need);
      }
    }
  }

  /**
   * The invariant of a graph-walker session that started with the set `base`: the roots, and
   * the successors of every node accepted since, have each been tested or sit on a cursor.
   */
  ghost predicate Closed(g: Graph, base: set<Node>, roots: set<Node>, st: State)
  {
    var reach := st.seen + Pending(st.horizon);
    roots <= reach && forall x | x in st.seen - base :: Elems(Children(g, x)) <= reach
  }

  /** Every pull of a graph walker keeps a session closed. */
  lemma NextKeepsClosed(g: Graph, ord: Order, rank: Node -> nat, base: set<Node>, roots: set<Node>, st: State)
    requires Closed(g, base, roots, st)
    ensures Closed(g, base, roots, GraphMode.StepState(g, ord, rank, st))
  {
    var next := GraphMode.StepState(g, ord, rank, st);
    var need := st.seen + Pending(st.horizon);
    NextCovers(g, ord, rank, st, need);
    forall x | x in next.seen - base
      ensures Elems(Children(g, x)) <= next.seen + Pending(next.horizon)
    {
      if x !in st.seen {
        forall y | y in Children(g, x) ensures y in ChildSet(g, next.seen - st.seen) {
          assert x in next.seen - st.seen;
        }
      }
    }
  }

  /** A run closed after its first pull is closed. */
  lemma RunClosedStep(g: Graph, ord: Order, rank: Node -> nat, base: set<Node>, roots: set<Node>,
                      st: State, n: nat, next: State)
    requires n > 0 && next == GraphMode.StepState(g, ord, rank, st)
    requires Closed(g, base, roots, Run(g, FirstVisit, ord, rank, next, n - 1).last)
    ensures Closed(g, base, roots, Run(g, FirstVisit, ord, rank, st, n).last)
  {
    RunStep(g, FirstVisit, ord, rank, st, n);
  }

  /** So does every run of pulls. */
  lemma {:induction false} RunKeepsClosed(g: Graph, ord: Order, rank: Node -> nat, base: set<Node>, roots: set<Node>,
                                          st: State, n: nat)
    requires Closed(g, base, roots, st)
    ensures Closed(g, base, roots, Run(g, FirstVisit, ord, rank, st, n).last)
    decreases n
  {
    if n > 0 {
      var next := GraphMode.StepState(g, ord, rank, st);
      NextKeepsClosed(g, ord, rank, base, roots, st);
      RunKeepsClosed(g, ord, rank, base, roots, next, n - 1);
      RunClosedStep(g, ord, rank, base, roots, st, n, next);
    }
  }

  /** A closed session whose horizon and post stack are empty has yielded what it set out to. */
  lemma SessionCloses(g: Graph, seen: set<Node>, roots: seq<Node>, emitted: seq<Node>, expanded: seq<Node>, last: State)
    requires last.horizon == [] && last.post == []
    requires GraphMode.Records(seen, expanded, last.seen) && GraphMode.Balance([], emitted, expanded, [])
    requires Closed(g, seen, Elems(roots), last)
    ensures Elems(emitted) == last.seen - seen
    ensures Elems(roots) <= Elems(emitted) + seen
    ensures forall x | x in emitted :: Elems(Children(g, x)) <= Elems(emitted) + seen
  {
    assert Elems(emitted + []) == Elems([]) + Elems(expanded) by {
      assert emitted + [] == emitted;
    }
    assert Pending(last.horizon) == {};
  }

  /**
   * A graph-walker session from `roots` ends, yields exactly the nodes it adds to the set,
   * and is closed: every root and every successor of a yielded node is yielded or was in
   * the set already.
   */
  lemma GraphSessionCovers(g: Graph, ord: Order, rank: Node -> nat, roots: seq<Node>, seen: set<Node>) returns (n: nat)
    ensures var r := Run(g, FirstVisit, ord, rank, Begin(roots, seen), n);
            && r.last.horizon == []
            && Elems(r.emitted) == r.last.seen - seen
            && Elems(roots) <= Elems(r.emitted) + seen
            && forall x | x in r.emitted :: Elems(Children(g, x)) <= Elems(r.emitted) + seen
  {
    var st := Begin(roots, seen);
    n := GraphMode.GraphSessionEnds(g, ord, rank, st);
    var r := Run(g, FirstVisit, ord, rank, st, n);
    GraphMode.RunRecords(g, ord, rank, st, n);
    assert Pending(st.horizon) == Elems(roots) by {
      assert Rest(st.horizon[0]) == roots && st.horizon[1..] == [];
    }
    RunKeepsClosed(g, ord, rank, seen, Elems(roots), st, n);
    SessionCloses(g, seen, roots, r.emitted, r.expanded, r.last);
  }
}
