/**
 * Pre-order sessions of a walker whose tracker keeps no state yield exactly the reference
 * pre-order of their roots, one node per pull, and then end.
 */
module PreOrderCorrect {
  import opened Graphs
  import opened Trackers
  import opened Frontier
  import opened Orders

  /** What a pre-order horizon still owes: each cursor's remaining forest, top cursor first. */
  ghost function PrePending(g: Graph, rank: Node -> nat, t: Tracker, h: seq<Cursor>): seq<Node>
    requires RankedBy(g, rank) && !t.FirstVisit?
    decreases |h|
  {
    if h == [] then [] else PreOrderOf(g, rank, t, Rest(h[0])) + PrePending(g, rank, t, h[1..])
  }

  /**
   * `visitNext` splits a cursor's remaining forest into the node it finds, that node's
   * subtrees, and the forest after it: the candidates it skips contribute nothing.
   */
  lemma {:induction false} VisitNextPre(g: Graph, rank: Node -> nat, t: Tracker, c: Cursor, seen: set<Node>)
    requires RankedBy(g, rank) && !t.FirstVisit?
    decreases |c.elems| - c.pos
    ensures var v := VisitNext(t, c, seen);
            PreOrderOf(g, rank, t, Rest(c))
              == OutSeq(v.found) + PreOrderOf(g, rank, t, ChildrenOf(g, v.found)) + PreOrderOf(g, rank, t, Rest(v.cursor))
  {
    if c.pos < |c.elems| {
      var x := c.elems[c.pos];
      var advanced: Cursor := RawCursor(c.elems, c.pos + 1);
      assert Rest(c)[0] == x && Rest(c)[1..] == Rest(advanced);
      if !Keeps(t, x) {
        VisitNextPre(g, rank, t, advanced, Test(t, seen, x).1);
      }
    }
  }

  lemma PrePendingCons(g: Graph, rank: Node -> nat, t: Tracker, c: Cursor, rest: seq<Cursor>)
    requires RankedBy(g, rank) && !t.FirstVisit?
    ensures PrePending(g, rank, t, [c] + rest) == PreOrderOf(g, rank, t, Rest(c)) + PrePending(g, rank, t, rest)
  {
    assert ([c] + rest)[1..] == rest;
  }

  /** Pushing the successor cursor in front puts the subtrees of `x` before the rest. */
  lemma ExpandPre(g: Graph, rank: Node -> nat, t: Tracker, x: Node, c: Cursor, rest: seq<Cursor>)
    requires RankedBy(g, rank) && !t.FirstVisit?
    ensures PrePending(g, rank, t, Expand(g, PushFront, x, c, rest))
            == PreOrderOf(g, rank, t, Children(g, x)) + PreOrderOf(g, rank, t, Rest(c)) + PrePending(g, rank, t, rest)
  {
    PrePendingCons(g, rank, t, c, rest);
    match Successors(g, x) {
      case None =>
        assert PreOrderOf(g, rank, t, Children(g, x)) == [];
      case Some(kids) =>
        PrePendingCons(g, rank, t, Start(kids), [c] + rest);
        assert Rest(Start(kids)) == kids;
    }
  }

  lemma PrePendingHead(g: Graph, rank: Node -> nat, t: Tracker, h: seq<Cursor>)
    requires RankedBy(g, rank) && !t.FirstVisit? && h != []
    ensures PrePending(g, rank, t, h) == PreOrderOf(g, rank, t, Rest(h[0])) + PrePending(g, rank, t, h[1..])
  {
  }

  lemma Reassociate(x: Node, a: seq<Node>, b: seq<Node>, c: seq<Node>)
    ensures [x] + a + b + c == [x] + (a + b + c)
  {
  }

  /** The node a visit finds is owed first, then its subtrees, then what it was owed after. */
  lemma FoundOwes(g: Graph, rank: Node -> nat, t: Tracker, h: seq<Cursor>, seen: set<Node>, x: Node, c: Cursor)
    requires RankedBy(g, rank) && !t.FirstVisit? && h != []
    requires VisitNext(t, h[0], seen).found == Some(x) && VisitNext(t, h[0], seen).cursor == c
    ensures PrePending(g, rank, t, h) == [x] + PrePending(g, rank, t, Expand(g, PushFront, x, c, h[1..]))
  {
    var v := VisitNext(t, h[0], seen);
    var kids, later, below := PreOrderOf(g, rank, t, Children(g, x)), PreOrderOf(g, rank, t, Rest(c)), PrePending(g, rank, t, h[1..]);
    VisitNextPre(g, rank, t, h[0], seen);
    assert OutSeq(v.found) == [x] && ChildrenOf(g, v.found) == Children(g, x);
    PrePendingHead(g, rank, t, h);
    ExpandPre(g, rank, t, x, c, h[1..]);
    Reassociate(x, kids, later, below);
  }

  /** A pull whose first visit finds a node yields it and owes its subtrees next. */
  lemma PullFoundPre(g: Graph, rank: Node -> nat, t: Tracker, st: State)
    requires RankedBy(g, rank) && !t.FirstVisit? && st.horizon != []
    requires VisitNext(t, st.horizon[0], st.seen).found.Some?
    ensures var p := RemoveFromTop(g, t, PushFront, st);
            PrePending(g, rank, t, st.horizon) == OutSeq(p.out) + PrePending(g, rank, t, p.next.horizon)
  {
    var v := VisitNext(t, st.horizon[0], st.seen);
    RemoveFromTopFound(g, t, PushFront, st);
    FoundOwes(g, rank, t, st.horizon, st.seen, v.found.value, v.cursor);
  }

  /** A pull whose first visit exhausts the top cursor owes what the cursors below owe. */
  lemma PullPoppedPre(g: Graph, rank: Node -> nat, t: Tracker, st: State)
    requires RankedBy(g, rank) && !t.FirstVisit? && st.horizon != []
    requires VisitNext(t, st.horizon[0], st.seen).found.None?
    ensures PrePending(g, rank, t, st.horizon) == PrePending(g, rank, t, st.horizon[1..])
  {
    var h := st.horizon;
    VisitNextPre(g, rank, t, h[0], st.seen);
    PrePendingHead(g, rank, t, h);
  }

  /** One pre-order pull yields the head of what the horizon owes and leaves the rest owed. */
  lemma {:induction false} RemoveFromTopPre(g: Graph, rank: Node -> nat, t: Tracker, st: State)
    requires RankedBy(g, rank) && !t.FirstVisit? && st.horizon != []
    decreases |st.horizon|
    ensures var p := RemoveFromTop(g, t, PushFront, st);
            PrePending(g, rank, t, st.horizon) == OutSeq(p.out) + PrePending(g, rank, t, p.next.horizon)
  {
    var h := st.horizon;
    var v := VisitNext(t, h[0], st.seen);
    if v.found.Some? {
      PullFoundPre(g, rank, t, st);
    } else {
      PullPoppedPre(g, rank, t, st);
      if |h| > 1 {
        var st1 := State(h[1..], st.post, v.seen);
        assert RemoveFromTop(g, t, PushFront, st) == RemoveFromTop(g, t, PushFront, st1);
        RemoveFromTopPre(g, rank, t, st1);
      }
    }
  }

  lemma NextPre(g: Graph, rank: Node -> nat, t: Tracker, st: State)
    requires RankedBy(g, rank) && !t.FirstVisit?
    ensures var p := Next(g, t, PreOrder, rank, st);
            PrePending(g, rank, t, st.horizon) == OutSeq(p.out) + PrePending(g, rank, t, p.next.horizon)
  {
    if st.horizon != [] {
      RemoveFromTopPre(g, rank, t, st);
    }
  }

  /** Whatever a session emits, followed by what it still owes, is what it owed at the start. */
  lemma {:induction false} PreOrderRun(g: Graph, rank: Node -> nat, t: Tracker, st: State, n: nat)
    requires RankedBy(g, rank) && !t.FirstVisit?
    decreases n
    ensures var r := Run(g, t, PreOrder, rank, st, n);
            r.emitted + PrePending(g, rank, t, r.last.horizon) == PrePending(g, rank, t, st.horizon)
  {
    if n > 0 {
      var p := Next(g, t, PreOrder, rank, st);
      NextPre(g, rank, t, st);
      PreOrderRun(g, rank, t, p.next, n - 1);
      var r1 := Run(g, t, PreOrder, rank, p.next, n - 1);
      RunStep(g, t, PreOrder, rank, st, n);
      Associative(OutSeq(p.out), r1.emitted, PrePending(g, rank, t, r1.last.horizon));
    }
  }

  /** Every pull yields a node until the horizon is empty, so the owed sequence bounds the pulls. */
  lemma {:induction false} PreOrderEnds(g: Graph, rank: Node -> nat, t: Tracker, st: State) returns (n: nat)
    requires RankedBy(g, rank) && !t.FirstVisit?
    decreases |PrePending(g, rank, t, st.horizon)|
    ensures Run(g, t, PreOrder, rank, st, n).last.horizon == []
  {
    if st.horizon == [] {
      n := 0;
    } else {
      var p := Next(g, t, PreOrder, rank, st);
      NextPre(g, rank, t, st);
      if p.out.None? {
        n := 1;
      } else {
        var m := PreOrderEnds(g, rank, t, p.next);
        n := m + 1;
      }
      RunStep(g, t, PreOrder, rank, st, n);
    }
  }

  lemma BeginOwesPreOrder(g: Graph, rank: Node -> nat, t: Tracker, roots: seq<Node>, seen: set<Node>)
    requires RankedBy(g, rank) && !t.FirstVisit?
    ensures PrePending(g, rank, t, Begin(roots, seen).horizon) == PreOrderOf(g, rank, t, roots)
  {
    assert Rest(Start(roots)) == roots;
  }

  /** Any number of pulls of `preOrderFrom(roots)` yields a prefix of the reference pre-order. */
  lemma PreOrderPrefix(g: Graph, rank: Node -> nat, t: Tracker, roots: seq<Node>, seen: set<Node>, n: nat)
    requires RankedBy(g, rank) && !t.FirstVisit?
    ensures Run(g, t, PreOrder, rank, Begin(roots, seen), n).emitted <= PreOrderOf(g, rank, t, roots)
  {
    PreOrderRun(g, rank, t, Begin(roots, seen), n);
    BeginOwesPreOrder(g, rank, t, roots, seen);
  }

  /** `preOrderFrom(roots)` ends, having yielded exactly the reference pre-order. */
  lemma PreOrderComplete(g: Graph, rank: Node -> nat, t: Tracker, roots: seq<Node>, seen: set<Node>) returns (n: nat)
    requires RankedBy(g, rank) && !t.FirstVisit?
    ensures var r := Run(g, t, PreOrder, rank, Begin(roots, seen), n);
            r.last.horizon == [] && r.emitted == PreOrderOf(g, rank, t, roots)
  {
    n := PreOrderEnds(g, rank, t, Begin(roots, seen));
    PreOrderRun(g, rank, t, Begin(roots, seen), n);
    BeginOwesPreOrder(g, rank, t, roots, seen);
  }
}
