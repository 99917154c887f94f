/**
 * The graph preset: the tracker is a set's `add`, and that set belongs to the walker, so
 * every session the walker starts shares it. A node is then accepted, yielded and expanded
 * at most once over the walker's lifetime, and over a finite successor function every
 * session ends.
 */
module GraphMode {
  import opened Graphs
  import opened Trackers
  import opened Frontier

  /** A sequence has as many distinct elements as entries exactly when no node occurs twice. */
  lemma {:induction false} DistinctCard(s: seq<Node>)
    ensures |Elems(s)| <= |s|
    ensures Distinct(s) <==> |Elems(s)| == |s|
  {
    if s == [] {
      assert Elems(s) == {};
    } else {
      var x, rest := s[0], s[1..];
      DistinctCard(rest);
      assert s == [x] + rest;
      assert Elems(s) == {x} + Elems(rest);
      assert multiset(s)[x] == 1 + multiset(rest)[x];
      if x in rest {
        assert x in Elems(rest);
        assert multiset(s)[x] >= 2;
      } else {
        assert x !in Elems(rest);
        forall y ensures multiset(s)[y] == multiset([x])[y] + multiset(rest)[y] {
        }
      }
    }
  }

  /**
   * Nodes expanded from the set `before`: each one new and expanded once (as many distinct
   * nodes as expansions), and the set afterwards is exactly `before` with them added.
   */
  ghost predicate Records(before: set<Node>, expanded: seq<Node>, after: set<Node>)
  {
    |Elems(expanded)| == |expanded| && Elems(expanded) !! before && after == before + Elems(expanded)
  }

  lemma RecordsOne(before: set<Node>, x: Node)
    requires x !in before
    ensures Records(before, [x], before + {x})
  {
    assert Elems([x]) == {x};
  }

  lemma RecordsNone(before: set<Node>)
    ensures Records(before, [], before)
  {
    assert Elems([]) == {};
  }

  /** Two pulls that each record their nodes record them all. */
  lemma RecordsAppend(before: set<Node>, a: seq<Node>, mid: set<Node>, b: seq<Node>, after: set<Node>)
    requires Records(before, a, mid) && Records(mid, b, after)
    ensures Records(before, a + b, after)
  {
    assert Elems(a + b) == Elems(a) + Elems(b);
    assert Elems(a) * Elems(b) == {};
  }

  /** A pull's net effect on the stack: what it emitted and kept are what it had and expanded. */
  ghost predicate Conserves(post: seq<Node>, p: Pull)
  {
    multiset(OutSeq(p.out)) + multiset(p.next.post) == multiset(post) + multiset(p.expanded)
  }

  /**
   * Pulls that started with the stack `post0`, emitted `emitted` and expanded `expanded`,
   * and left the stack `post1`: the nodes emitted or still deferred are those deferred
   * before or expanded since, and no more of them.
   */
  ghost predicate Balance(post0: seq<Node>, emitted: seq<Node>, expanded: seq<Node>, post1: seq<Node>)
  {
    Elems(emitted + post1) == Elems(post0) + Elems(expanded) && |emitted| + |post1| == |post0| + |expanded|
  }

  lemma BalanceChain(post0: seq<Node>, e1: seq<Node>, x1: seq<Node>, post1: seq<Node>,
                     e2: seq<Node>, x2: seq<Node>, post2: seq<Node>)
    requires Balance(post0, e1, x1, post1) && Balance(post1, e2, x2, post2)
    ensures Balance(post0, e1 + e2, x1 + x2, post2)
  {
    assert (e1 + e2) + post2 == e1 + (e2 + post2);
    assert Elems(e1 + (e2 + post2)) == Elems(e1) + Elems(e2 + post2);
    assert Elems(e1 + post1) == Elems(e1) + Elems(post1);
    assert Elems(x1 + x2) == Elems(x1) + Elems(x2);
  }

  /** A pull that keeps every node it does not emit is in balance. */
  lemma ConservesBalance(post: seq<Node>, p: Pull)
    requires Conserves(post, p)
    ensures Balance(post, OutSeq(p.out), p.expanded, p.next.post)
  {
    var e := OutSeq(p.out);
    assert multiset(e + p.next.post) == multiset(post + p.expanded);
    assert |multiset(e + p.next.post)| == |multiset(post + p.expanded)|;
    forall y ensures y in e + p.next.post <==> y in post + p.expanded {
      assert y in e + p.next.post <==> y in multiset(e + p.next.post);
      assert y in post + p.expanded <==> y in multiset(post + p.expanded);
    }
    assert Elems(post + p.expanded) == Elems(post) + Elems(p.expanded);
  }

  /** Under the graph preset a top-down pull expands only a node not seen before, and records it. */
  lemma {:induction false} RemoveFromTopRecords(g: Graph, o: InsertionOrder, st: State)
    requires st.horizon != []
    decreases |st.horizon|
    ensures var p := RemoveFromTop(g, FirstVisit, o, st);
            Records(st.seen, p.expanded, p.next.seen)
  {
    var h := st.horizon;
    var v := VisitNext(FirstVisit, h[0], st.seen);
    VisitNextFirstVisit(h[0], st.seen);
    if v.found.Some? {
      RemoveFromTopFound(g, FirstVisit, o, st);
      RecordsOne(st.seen, v.found.value);
    } else if |h| == 1 {
      RecordsNone(st.seen);
    } else {
      var st1 := State(h[1..], st.post, v.seen);
      assert RemoveFromTop(g, FirstVisit, o, st) == RemoveFromTop(g, FirstVisit, o, st1);
      RemoveFromTopRecords(g, o, st1);
    }
  }

  /**
   * Under the graph preset the descent of a post-order pull expands only nodes not seen
   * before, each once, and records them.
   */
  lemma {:induction false} RemoveFromBottomRecords(g: Graph, rank: Node -> nat, st: State)
    requires st.horizon != []
    decreases DescentPool(g, FirstVisit, st), DescentBound(FirstVisit, rank, st)
    ensures var p := RemoveFromBottom(g, FirstVisit, rank, st);
            Records(st.seen, p.expanded, p.next.seen)
  {
    var h := st.horizon;
    var v := VisitNext(FirstVisit, h[0], st.seen);
    VisitNextFirstVisit(h[0], st.seen);
    if v.found.Some? && Successors(g, v.found.value).Some? {
      var x := v.found.value;
      var kids := Successors(g, x).value;
      DescentShrinks(g, FirstVisit, rank, st, x, kids);
      var st1 := State([Start(kids), v.cursor] + h[1..], [x] + st.post, v.seen);
      RemoveFromBottomRecords(g, rank, st1);
      var p1 := RemoveFromBottom(g, FirstVisit, rank, st1);
      RecordsOne(st.seen, x);
      RecordsAppend(st.seen, [x], v.seen, p1.expanded, p1.next.seen);
    } else if v.found.Some? {
      RecordsOne(st.seen, v.found.value);
    } else {
      RecordsNone(st.seen);
    }
  }

  /** Popping the top of a stack loses nothing: the popped node and the rest make up the stack. */
  lemma PollFirstConserves(stack: seq<Node>)
    ensures multiset(OutSeq(PollFirst(stack).0)) + multiset(PollFirst(stack).1) == multiset(stack)
  {
    if stack != [] {
      assert stack == [stack[0]] + stack[1..];
    }
  }

  /** Emitting the last expanded node and deferring the others keeps them all. */
  lemma LeafConserves(d: seq<Node>, x: Node, post: seq<Node>)
    ensures multiset([x]) + multiset(Reversed(d) + post) == multiset(post) + multiset(d + [x])
  {
    ReversedMultiset(d);
  }

  /** A pull that defers its nodes onto `post` keeps on the stack all it did not emit. */
  lemma DefersConserves(g: Graph, p: Pull, post: seq<Node>)
    requires DefersOnto(g, p, post)
    ensures Conserves(post, p)
  {
    var d := Deferred(g, p);
    if LeafEmitted(g, p) {
      var n := |p.expanded|;
      assert p.expanded == d + [p.expanded[n - 1]];
      LeafConserves(d, p.expanded[n - 1], post);
    } else {
      var stack := Reversed(d) + post;
      PollFirstConserves(stack);
      ReversedMultiset(d);
      assert multiset(stack) == multiset(post) + multiset(p.expanded);
    }
  }

  /** The stack a post-order pull leaves holds what it had and deferred, minus what it emitted. */
  lemma RemoveFromBottomConserves(g: Graph, t: Tracker, rank: Node -> nat, st: State)
    requires st.horizon != [] && DescentEnds(g, t, rank)
    ensures Conserves(st.post, RemoveFromBottom(g, t, rank, st))
  {
    RemoveFromBottomDefers(g, t, rank, st);
    DefersConserves(g, RemoveFromBottom(g, t, rank, st), st.post);
  }

  /**
   * Pulls that took a session from `before` to `after`, yielding `emitted` and expanding
   * `expanded`: every expanded node was new and is now recorded, and the stack holds what
   * it held and what was deferred, minus what was emitted.
   */
  ghost predicate Accounts(before: State, emitted: seq<Node>, expanded: seq<Node>, after: State)
  {
    && Records(before.seen, expanded, after.seen)
    && Balance(before.post, emitted, expanded, after.post)
  }

  lemma AccountsChain(s0: State, e1: seq<Node>, x1: seq<Node>, s1: State, e2: seq<Node>, x2: seq<Node>, s2: State)
    requires Accounts(s0, e1, x1, s1) && Accounts(s1, e2, x2, s2)
    ensures Accounts(s0, e1 + e2, x1 + x2, s2)
  {
    RecordsAppend(s0.seen, x1, s1.seen, x2, s2.seen);
    BalanceChain(s0.post, e1, x1, s1.post, e2, x2, s2.post);
  }

  /** One pull of a graph walker's session: its nodes are recorded and its stack conserved. */
  lemma NextRecords(g: Graph, ord: Order, rank: Node -> nat, st: State)
    ensures var p := Next(g, FirstVisit, ord, rank, st);
            Accounts(st, OutSeq(p.out), p.expanded, p.next)
  {
    var p := Next(g, FirstVisit, ord, rank, st);
    if st.horizon == [] {
      RecordsNone(st.seen);
    } else if ord.PostOrder? {
      RemoveFromBottomRecords(g, rank, st);
      RemoveFromBottomConserves(g, FirstVisit, rank, st);
    } else {
      RemoveFromTopRecords(g, if ord.PreOrder? then PushFront else AddBack, st);
    }
    ConservesBalance(st.post, p);
  }

  /** The accounts of the first `n` pulls of a graph walker's session from `st`. */
  ghost predicate RunAccounted(g: Graph, ord: Order, rank: Node -> nat, st: State, n: nat)
  {
    var w := Run(g, FirstVisit, ord, rank, st, n);
    Accounts(st, w.emitted, w.expanded, w.last)
  }

  /** The accounts of a first pull and of the pulls after it are the accounts of the run. */
  lemma RunAccountsLift(g: Graph, ord: Order, rank: Node -> nat, st: State, n: nat, p: Pull, r: Trace)
    requires n > 0 && p == Next(g, FirstVisit, ord, rank, st) && r == Run(g, FirstVisit, ord, rank, p.next, n - 1)
    requires Accounts(st, OutSeq(p.out) + r.emitted, p.expanded + r.expanded, r.last)
    ensures RunAccounted(g, ord, rank, st, n)
  {
    RunStep(g, FirstVisit, ord, rank, st, n);
  }

  /** A run's accounts follow from those of its first pull and of the pulls after it. */
  lemma RunAccountsStep(g: Graph, ord: Order, rank: Node -> nat, st: State, n: nat, next: State)
    requires n > 0 && next == StepState(g, ord, rank, st)
    requires RunAccounted(g, ord, rank, next, n - 1)
    ensures RunAccounted(g, ord, rank, st, n)
  {
    var p := Next(g, FirstVisit, ord, rank, st);
    var r := Run(g, FirstVisit, ord, rank, p.next, n - 1);
    NextRecords(g, ord, rank, st);
    AccountsChain(st, OutSeq(p.out), p.expanded, p.next, r.emitted, r.expanded, r.last);
    RunAccountsLift(g, ord, rank, st, n, p, r);
  }

  /** The state a graph walker's session is in after one more pull. */
  function StepState(g: Graph, ord: Order, rank: Node -> nat, st: State): State
  {
    Next(g, FirstVisit, ord, rank, st).next
  }

  /*
   * The induction behind `RunRecords`, one lemma per order: with the order fixed, each
   * unfolding of `Next` settles on that order's step routine alone.
   */
  lemma {:induction false} RunRecordsBreadthFirst(g: Graph, rank: Node -> nat, st: State, n: nat)
    ensures RunAccounted(g, Order.BreadthFirst, rank, st, n)
    decreases n
  {
    if n == 0 {
      RecordsNone(st.seen);
      assert st.post == [] + st.post;
    } else {
      var next := StepState(g, Order.BreadthFirst, rank, st);
      RunRecordsBreadthFirst(g, rank, next, n - 1);
      RunAccountsStep(g, Order.BreadthFirst, rank, st, n, next);
    }
  }

  lemma {:induction false} RunRecordsPreOrder(g: Graph, rank: Node -> nat, st: State, n: nat)
    ensures RunAccounted(g, Order.PreOrder, rank, st, n)
    decreases n
  {
    if n == 0 {
      RecordsNone(st.seen);
      assert st.post == [] + st.post;
    } else {
      var next := StepState(g, Order.PreOrder, rank, st);
      RunRecordsPreOrder(g, rank, next, n - 1);
      RunAccountsStep(g, Order.PreOrder, rank, st, n, next);
    }
  }

  lemma {:induction false} RunRecordsPostOrder(g: Graph, rank: Node -> nat, st: State, n: nat)
    ensures RunAccounted(g, Order.PostOrder, rank, st, n)
    decreases n
  {
    if n == 0 {
      RecordsNone(st.seen);
      assert st.post == [] + st.post;
    } else {
      var next := StepState(g, Order.PostOrder, rank, st);
      RunRecordsPostOrder(g, rank, next, n - 1);
      RunAccountsStep(g, Order.PostOrder, rank, st, n, next);
    }
  }

  /** Any number of pulls of a graph walker's session record their nodes and conserve the stack. */
  lemma RunRecords(g: Graph, ord: Order, rank: Node -> nat, st: State, n: nat)
    ensures RunAccounted(g, ord, rank, st, n)
  {
    match ord {
      case BreadthFirst => RunRecordsBreadthFirst(g, rank, st, n);
      case PreOrder => RunRecordsPreOrder(g, rank, st, n);
      case PostOrder => RunRecordsPostOrder(g, rank, st, n);
    }
  }

  /** A node emitted by a stream that started with an empty stack was expanded by it, once. */
  lemma EmittedWereExpanded(emitted: seq<Node>, expanded: seq<Node>, post: seq<Node>)
    requires Balance([], emitted, expanded, post) && |Elems(expanded)| == |expanded|
    ensures Distinct(emitted) && Elems(emitted) <= Elems(expanded)
  {
    assert Elems([]) == {};
    DistinctCard(emitted + post);
    forall y ensures multiset(emitted)[y] <= 1 {
      assert multiset(emitted + post)[y] == multiset(emitted)[y] + multiset(post)[y];
    }
  }

  /**
   * A graph walker's session yields each node at most once, never a node the walker had
   * already accepted when the session started, and leaves every yielded node in the set.
   */
  lemma GraphSessionOnce(g: Graph, ord: Order, rank: Node -> nat, roots: seq<Node>, seen: set<Node>, n: nat)
    ensures var r := Run(g, FirstVisit, ord, rank, Begin(roots, seen), n);
            && Distinct(r.emitted)
            && Elems(r.emitted) !! seen
            && Elems(r.emitted) <= r.last.seen
  {
    var r := Run(g, FirstVisit, ord, rank, Begin(roots, seen), n);
    RunRecords(g, ord, rank, Begin(roots, seen), n);
    EmittedWereExpanded(r.emitted, r.expanded, r.last.post);
  }

  /**
   * Two sessions of one graph walker, one after the other: the second yields nothing the
   * first yielded, so together they yield each node at most once.
   */
  lemma SequentialSessionsOnce(g: Graph, ord1: Order, ord2: Order, rank: Node -> nat,
                               roots1: seq<Node>, roots2: seq<Node>, seen: set<Node>, n1: nat, n2: nat)
    ensures var r1 := Run(g, FirstVisit, ord1, rank, Begin(roots1, seen), n1);
            var r2 := Run(g, FirstVisit, ord2, rank, Begin(roots2, r1.last.seen), n2);
            Distinct(r1.emitted + r2.emitted) && Elems(r1.emitted + r2.emitted) !! seen
  {
    var r1 := Run(g, FirstVisit, ord1, rank, Begin(roots1, seen), n1);
    var r2 := Run(g, FirstVisit, ord2, rank, Begin(roots2, r1.last.seen), n2);
    GraphSessionOnce(g, ord1, rank, roots1, seen, n1);
    GraphSessionOnce(g, ord2, rank, roots2, r1.last.seen, n2);
    var e1, e2 := r1.emitted, r2.emitted;
    assert Elems(e1 + e2) == Elems(e1) + Elems(e2);
    forall y ensures multiset(e1 + e2)[y] <= 1 {
      assert multiset(e1 + e2)[y] == multiset(e1)[y] + multiset(e2)[y];
      if y in e1 {
        assert y in r1.last.seen && y !in Elems(e2);
      }
    }
  }

  /**
   * Two sessions of one graph walker whose streams are pulled in some interleaving, both
   * testing against the walker's set: their states, the set, and what they yielded and
   * expanded so far.
   */
  datatype Sessions = Sessions(a: State, b: State, seen: set<Node>, emitted: seq<Node>, expanded: seq<Node>)

  /** Pulls the sessions in the order `schedule` gives: `true` pulls the first, `false` the second. */
  function Interleave(g: Graph, ordA: Order, ordB: Order, rank: Node -> nat,
                      a: State, b: State, seen: set<Node>, schedule: seq<bool>): (r: Sessions)
    decreases |schedule|
    ensures seen <= r.seen
  {
    if schedule == [] then Sessions(a, b, seen, [], [])
    else if schedule[0] then
      var p := Next(g, FirstVisit, ordA, rank, a.(seen := seen));
      var r := Interleave(g, ordA, ordB, rank, p.next, b, p.next.seen, schedule[1..]);
      r.(emitted := OutSeq(p.out) + r.emitted, expanded := p.expanded + r.expanded)
    else
      var p := Next(g, FirstVisit, ordB, rank, b.(seen := seen));
      var r := Interleave(g, ordA, ordB, rank, a, p.next, p.next.seen, schedule[1..]);
      r.(emitted := OutSeq(p.out) + r.emitted, expanded := p.expanded + r.expanded)
  }

  /** A pull of one session leaves the other session's stack alone. */
  lemma BalanceBeside(post: seq<Node>, e: seq<Node>, x: seq<Node>, post': seq<Node>, other: seq<Node>)
    requires Balance(post, e, x, post')
    ensures Balance(post + other, e, x, post' + other)
    ensures Balance(other + post, e, x, other + post')
  {
    assert e + (post' + other) == (e + post') + other;
    assert Elems((e + post') + other) == Elems(e + post') + Elems(other);
    assert Elems(post + other) == Elems(post) + Elems(other);
    assert Elems(e + (other + post')) == Elems(e) + Elems(other) + Elems(post');
    assert Elems(e + post') == Elems(e) + Elems(post');
    assert Elems(other + post) == Elems(other) + Elems(post);
  }

  /** The stacks of both sessions together. */
  function Stacks(r: Sessions): seq<Node>
  {
    r.a.post + r.b.post
  }

  lemma {:induction false} InterleaveRecords(g: Graph, ordA: Order, ordB: Order, rank: Node -> nat,
                                             a: State, b: State, seen: set<Node>, schedule: seq<bool>)
    decreases |schedule|
    ensures var r := Interleave(g, ordA, ordB, rank, a, b, seen, schedule);
            Records(seen, r.expanded, r.seen) && Balance(a.post + b.post, r.emitted, r.expanded, Stacks(r))
  {
    if schedule == [] {
      RecordsNone(seen);
    } else if schedule[0] {
      var p := Next(g, FirstVisit, ordA, rank, a.(seen := seen));
      NextRecords(g, ordA, rank, a.(seen := seen));
      InterleaveRecords(g, ordA, ordB, rank, p.next, b, p.next.seen, schedule[1..]);
      var r := Interleave(g, ordA, ordB, rank, p.next, b, p.next.seen, schedule[1..]);
      RecordsAppend(seen, p.expanded, p.next.seen, r.expanded, r.seen);
      BalanceBeside(a.post, OutSeq(p.out), p.expanded, p.next.post, b.post);
      BalanceChain(a.post + b.post, OutSeq(p.out), p.expanded, p.next.post + b.post, r.emitted, r.expanded, Stacks(r));
    } else {
      var p := Next(g, FirstVisit, ordB, rank, b.(seen := seen));
      NextRecords(g, ordB, rank, b.(seen := seen));
      InterleaveRecords(g, ordA, ordB, rank, a, p.next, p.next.seen, schedule[1..]);
      var r := Interleave(g, ordA, ordB, rank, a, p.next, p.next.seen, schedule[1..]);
      RecordsAppend(seen, p.expanded, p.next.seen, r.expanded, r.seen);
      BalanceBeside(b.post, OutSeq(p.out), p.expanded, p.next.post, a.post);
      BalanceChain(a.post + b.post, OutSeq(p.out), p.expanded, a.post + p.next.post, r.emitted, r.expanded, Stacks(r));
    }
  }

  /**
   * However the streams of two sessions of one graph walker are interleaved, together they
   * yield each node at most once, and never a node accepted before either started.
   */
  lemma InterleavedSessionsOnce(g: Graph, ordA: Order, ordB: Order, rank: Node -> nat,
                                rootsA: seq<Node>, rootsB: seq<Node>, seen: set<Node>, schedule: seq<bool>)
    ensures var r := Interleave(g, ordA, ordB, rank, Begin(rootsA, seen), Begin(rootsB, seen), seen, schedule);
            Distinct(r.emitted) && Elems(r.emitted) !! seen
  {
    var r := Interleave(g, ordA, ordB, rank, Begin(rootsA, seen), Begin(rootsB, seen), seen, schedule);
    InterleaveRecords(g, ordA, ordB, rank, Begin(rootsA, seen), Begin(rootsB, seen), seen, schedule);
    assert Begin(rootsA, seen).post + Begin(rootsB, seen).post == [];
    EmittedWereExpanded(r.emitted, r.expanded, Stacks(r));
  }

  /** The nodes the cursors of two horizons stream. */
  lemma CursorNodesAppend(a: seq<Cursor>, b: seq<Cursor>)
    ensures CursorNodes(a + b) == CursorNodes(a) + CursorNodes(b)
  {
    forall y | y in CursorNodes(a + b) ensures y in CursorNodes(a) + CursorNodes(b) {
      var d :| d in a + b && y in d.elems;
      if d in a {
        assert y in CursorNodes(a);
      } else {
        assert y in CursorNodes(b);
      }
    }
    forall y | y in CursorNodes(a) + CursorNodes(b) ensures y in CursorNodes(a + b) {
      if y in CursorNodes(a) {
        var d :| d in a && y in d.elems;
        assert d in a + b;
      } else {
        var d :| d in b && y in d.elems;
        assert d in a + b;
      }
    }
  }

  lemma CursorNodesOne(c: Cursor)
    ensures CursorNodes([c]) == Elems(c.elems)
  {
    forall y | y in Elems(c.elems) ensures y in CursorNodes([c]) {
      assert c in [c];
    }
  }

  lemma CursorNodesHead(h: seq<Cursor>)
    requires h != []
    ensures CursorNodes(h) == Elems(h[0].elems) + CursorNodes(h[1..])
  {
    assert h == [h[0]] + h[1..];
    CursorNodesAppend([h[0]], h[1..]);
    CursorNodesOne(h[0]);
  }

  /**
   * A pull from the horizon `h` leaves cursors, and expands nodes, only among the nodes
   * the graph's successor streams list and the nodes `h` streams.
   */
  ghost predicate Within(g: Graph, h: seq<Cursor>, p: Pull)
  {
    CursorNodes(p.next.horizon) + Elems(p.expanded) <= Listed(g) + CursorNodes(h)
  }

  /** Resuming a cursor and inserting a successor cursor stays among the listed nodes. */
  lemma ExpandWithin(g: Graph, o: InsertionOrder, x: Node, c: Cursor, rest: seq<Cursor>)
    ensures CursorNodes(Expand(g, o, x, c, rest)) <= Listed(g) + Elems(c.elems) + CursorNodes(rest)
  {
    CursorNodesAppend([c], rest);
    CursorNodesOne(c);
    match Successors(g, x)
    case None =>
    case Some(kids) =>
      ChildrenListed(g, x);
      assert Children(g, x) == kids;
      CursorNodesOne(Start(kids));
      match o
      case PushFront => CursorNodesAppend([Start(kids)], [c] + rest);
      case AddBack => CursorNodesAppend([c] + rest, [Start(kids)]);
  }

  lemma {:induction false} RemoveFromTopWithin(g: Graph, t: Tracker, o: InsertionOrder, st: State)
    requires st.horizon != []
    decreases |st.horizon|
    ensures Within(g, st.horizon, RemoveFromTop(g, t, o, st))
  {
    var h := st.horizon;
    var v := VisitNext(t, h[0], st.seen);
    CursorNodesHead(h);
    if v.found.Some? {
      RemoveFromTopFound(g, t, o, st);
      var x := v.found.value;
      assert x in Elems(h[0].elems) by {
        assert h[0].elems[v.cursor.pos - 1] == x;
      }
      assert Elems([x]) == {x};
      ExpandWithin(g, o, x, v.cursor, h[1..]);
    } else if |h| == 1 {
      assert CursorNodes([]) == {} && Elems([]) == {};
    } else {
      var st1 := State(h[1..], st.post, v.seen);
      assert RemoveFromTop(g, t, o, st) == RemoveFromTop(g, t, o, st1);
      RemoveFromTopWithin(g, t, o, st1);
    }
  }

  lemma {:induction false} RemoveFromBottomWithin(g: Graph, rank: Node -> nat, st: State)
    requires st.horizon != []
    decreases DescentPool(g, FirstVisit, st), DescentBound(FirstVisit, rank, st)
    ensures Within(g, st.horizon, RemoveFromBottom(g, FirstVisit, rank, st))
  {
    var h := st.horizon;
    var v := VisitNext(FirstVisit, h[0], st.seen);
    CursorNodesHead(h);
    if v.found.Some? {
      var x := v.found.value;
      assert x in Elems(h[0].elems) by {
        assert h[0].elems[v.cursor.pos - 1] == x;
      }
      if Successors(g, x).Some? {
        var kids := Successors(g, x).value;
        DescentShrinks(g, FirstVisit, rank, st, x, kids);
        var st1 := State([Start(kids), v.cursor] + h[1..], [x] + st.post, v.seen);
        RemoveFromBottomWithin(g, rank, st1);
        PushedNodes(g, x, kids, v.cursor, h);
        var p1 := RemoveFromBottom(g, FirstVisit, rank, st1);
        assert Elems([x] + p1.expanded) == {x} + Elems(p1.expanded);
      } else {
        assert Elems([x]) == {x};
        CursorNodesAppend([v.cursor], h[1..]);
        CursorNodesOne(v.cursor);
      }
    } else {
      assert Elems([]) == {};
    }
  }

  /** What a graph walker's session could still yield or defer: twice the pool, plus the stack. */
  function Remaining(g: Graph, st: State): nat
  {
    2 * |DescentPool(g, FirstVisit, st)| + |st.post|
  }

  lemma SubsetCard(a: set<Node>, b: set<Node>)
    requires a <= b
    ensures |a| <= |b|
  {
    assert b == a + (b - a);
    assert a * (b - a) == {};
  }

  /** A pull that expands nodes `e` out of the pool, and adds no node to it, shrinks it by them. */
  lemma PoolStep(listed: set<Node>, nodes: set<Node>, nodes': set<Node>, seen: set<Node>, seen': set<Node>, e: set<Node>)
    requires nodes' + e <= listed + nodes && e !! seen && seen' == seen + e
    ensures |(listed + nodes') - seen'| + |e| <= |(listed + nodes) - seen|
  {
    var pool := (listed + nodes) - seen;
    assert e <= pool;
    assert (listed + nodes') - seen' <= pool - e;
    SubsetCard((listed + nodes') - seen', pool - e);
    assert pool == (pool - e) + e;
  }

  /** Every pull of a graph walker's session that yields a node leaves less to do. */
  lemma NextShrinks(g: Graph, ord: Order, rank: Node -> nat, st: State)
    requires st.horizon != [] && Next(g, FirstVisit, ord, rank, st).out.Some?
    ensures Remaining(g, Next(g, FirstVisit, ord, rank, st).next) < Remaining(g, st)
  {
    var p := Next(g, FirstVisit, ord, rank, st);
    NextRecords(g, ord, rank, st);
    if ord.PostOrder? {
      RemoveFromBottomWithin(g, rank, st);
    } else {
      RemoveFromTopWithin(g, FirstVisit, if ord.PreOrder? then PushFront else AddBack, st);
    }
    PoolStep(Listed(g), CursorNodes(st.horizon), CursorNodes(p.next.horizon), st.seen, p.next.seen, Elems(p.expanded));
  }

  /**
   * Over a finite successor function every session of a graph walker ends, whatever the
   * order: after some number of pulls its horizon is empty.
   */
  lemma {:induction false} GraphSessionEnds(g: Graph, ord: Order, rank: Node -> nat, st: State) returns (n: nat)
    requires SessionShape(ord, st)
    decreases Remaining(g, st)
    ensures Run(g, FirstVisit, ord, rank, st, n).last.horizon == []
    ensures Run(g, FirstVisit, ord, rank, st, n).last.post == []
  {
    if st.horizon == [] {
      n := 0;
    } else {
      var p := Next(g, FirstVisit, ord, rank, st);
      NextEndsOnlyWhenEmpty(g, FirstVisit, ord, rank, st);
      RunStep(g, FirstVisit, ord, rank, st, 1);
      if p.out.None? {
        n := 1;
      } else {
        NextShrinks(g, ord, rank, st);
        var m := GraphSessionEnds(g, ord, rank, p.next);
        n := m + 1;
        RunStep(g, FirstVisit, ord, rank, st, n);
      }
    }
  }
}
