/**
 * Breadth-first sessions of a walker whose tracker keeps no state yield exactly the
 * reference level order of their roots, one node per pull, and then end.
 */
module BreadthFirstCorrect {
  import opened Graphs
  import opened Trackers
  import opened Frontier
  import opened Orders

  /** The candidates a horizon still holds, front cursor first, in queue order. */
  function Flat(h: seq<Cursor>): seq<Node>
  {
    if h == [] then [] else Rest(h[0]) + Flat(h[1..])
  }

  lemma {:induction false} FlatAppend(a: seq<Cursor>, b: seq<Cursor>)
    ensures Flat(a + b) == Flat(a) + Flat(b)
  {
    if a != [] {
      assert (a + b)[0] == a[0] && (a + b)[1..] == a[1..] + b;
      FlatAppend(a[1..], b);
      Associative(Rest(a[0]), Flat(a[1..]), Flat(b));
    } else {
      assert a + b == b;
    }
  }

  /**
   * What a breadth-first session still owes when the queue holds `q` and its first `s`
   * candidates are the rest of the level being yielded: each of those in turn, kept or
   * dropped, a kept one enqueueing its children; then the levels grown from the queue.
   */
  ghost function BfsPending(g: Graph, rank: Node -> nat, t: Tracker, q: seq<Node>, s: nat): seq<Node>
    requires RankedBy(g, rank) && !t.FirstVisit?
    decreases s
  {
    if s == 0 || q == [] then LevelsFrom(g, rank, t, q)
    else if Keeps(t, q[0]) then [q[0]] + BfsPending(g, rank, t, q[1..] + Children(g, q[0]), s - 1)
    else BfsPending(g, rank, t, q[1..], s - 1)
  }

  /**
   * Yielding a whole level ahead of a queue `rest` yields the kept nodes of the level and
   * then the levels grown from `rest` followed by the level's children.
   */
  lemma {:induction false} LevelCatchUp(g: Graph, rank: Node -> nat, t: Tracker, level: seq<Node>, rest: seq<Node>)
    requires RankedBy(g, rank) && !t.FirstVisit?
    decreases |level|
    ensures BfsPending(g, rank, t, level + rest, |level|)
            == Kept(t, level) + LevelsFrom(g, rank, t, rest + NextLevel(g, t, level))
  {
    if level == [] {
      assert level + rest == rest && rest + [] == rest;
    } else {
      var x := level[0];
      var tail := level[1..];
      assert (level + rest)[0] == x && (level + rest)[1..] == tail + rest;
      if Keeps(t, x) {
        var kids := Children(g, x);
        LevelCatchUp(g, rank, t, tail, rest + kids);
        Associative(tail, rest, kids);
        Associative(rest, kids, NextLevel(g, t, tail));
        Associative([x], Kept(t, tail), LevelsFrom(g, rank, t, rest + (kids + NextLevel(g, t, tail))));
      } else {
        LevelCatchUp(g, rank, t, tail, rest);
        assert Kept(t, level) == Kept(t, tail) && NextLevel(g, t, level) == NextLevel(g, t, tail);
      }
    }
  }

  /** When no level is under way, the whole queue is the next level. */
  lemma Resplit(g: Graph, rank: Node -> nat, t: Tracker, q: seq<Node>)
    requires RankedBy(g, rank) && !t.FirstVisit?
    ensures BfsPending(g, rank, t, q, 0) == BfsPending(g, rank, t, q, |q|)
  {
    if q != [] {
      LevelCatchUp(g, rank, t, q, []);
      assert q + [] == q && [] + NextLevel(g, t, q) == NextLevel(g, t, q);
    }
  }

  /** Yielding the front candidate of the level under way enqueues its children. */
  lemma ConsumeKept(g: Graph, rank: Node -> nat, t: Tracker, x: Node, rest: seq<Node>, s: nat)
    requires RankedBy(g, rank) && !t.FirstVisit? && 0 < s && Keeps(t, x)
    ensures BfsPending(g, rank, t, [x] + rest, s) == [x] + BfsPending(g, rank, t, rest + Children(g, x), s - 1)
  {
    assert ([x] + rest)[0] == x && ([x] + rest)[1..] == rest;
  }

  /** A candidate the tracker rejects is dropped, and nothing of its subtree is enqueued. */
  lemma ConsumeSkipped(g: Graph, rank: Node -> nat, t: Tracker, x: Node, rest: seq<Node>, s: nat)
    requires RankedBy(g, rank) && !t.FirstVisit? && 0 < s && !Keeps(t, x)
    ensures BfsPending(g, rank, t, [x] + rest, s) == BfsPending(g, rank, t, rest, s - 1)
  {
    assert ([x] + rest)[0] == x && ([x] + rest)[1..] == rest;
  }

  /** One candidate of the front cursor, taken off the front of the queue. */
  lemma TakeCandidate(g: Graph, rank: Node -> nat, t: Tracker, c: Cursor, tail: seq<Node>, s: nat) returns (s': nat)
    requires RankedBy(g, rank) && !t.FirstVisit? && c.pos < |c.elems|
    ensures var x := c.elems[c.pos];
            var rest := Rest(RawCursor(c.elems, c.pos + 1)) + tail;
            && (Keeps(t, x) ==> BfsPending(g, rank, t, Rest(c) + tail, s) == [x] + BfsPending(g, rank, t, rest + Children(g, x), s'))
            && (!Keeps(t, x) ==> BfsPending(g, rank, t, Rest(c) + tail, s) == BfsPending(g, rank, t, rest, s'))
  {
    var q := Rest(c) + tail;
    var rest := Rest(RawCursor(c.elems, c.pos + 1)) + tail;
    RestCons(c);
    Associative([c.elems[c.pos]], Rest(RawCursor(c.elems, c.pos + 1)), tail);
    var s1 := if s == 0 then |q| else s;
    if s == 0 {
      Resplit(g, rank, t, q);
    }
    if Keeps(t, c.elems[c.pos]) {
      ConsumeKept(g, rank, t, c.elems[c.pos], rest, s1);
    } else {
      ConsumeSkipped(g, rank, t, c.elems[c.pos], rest, s1);
    }
    s' := s1 - 1;
  }

  /**
   * `visitNext` on the front cursor yields the first kept candidate of the level under way
   * and enqueues its children; the candidates it skips are dropped with their subtrees.
   */
  lemma {:induction false} VisitNextBfs(g: Graph, rank: Node -> nat, t: Tracker, c: Cursor, seen: set<Node>, tail: seq<Node>, s: nat)
      returns (s': nat)
    requires RankedBy(g, rank) && !t.FirstVisit?
    decreases |c.elems| - c.pos
    ensures var v := VisitNext(t, c, seen);
            var q' := Rest(v.cursor) + tail + ChildrenOf(g, v.found);
            BfsPending(g, rank, t, Rest(c) + tail, s) == OutSeq(v.found) + BfsPending(g, rank, t, q', s')
  {
    var v := VisitNext(t, c, seen);
    if c.pos == |c.elems| {
      assert Rest(c) + tail + [] == Rest(c) + tail;
      s' := s;
    } else {
      var x := c.elems[c.pos];
      var advanced: Cursor := RawCursor(c.elems, c.pos + 1);
      var seen' := Test(t, seen, x).1;
      var s1 := TakeCandidate(g, rank, t, c, tail, s);
      if Keeps(t, x) {
        s' := s1;
      } else {
        assert v == VisitNext(t, advanced, seen');
        s' := VisitNextBfs(g, rank, t, advanced, seen', tail, s1);
      }
    }
  }

  lemma FlatHead(h: seq<Cursor>)
    requires h != []
    ensures Flat(h) == Rest(h[0]) + Flat(h[1..])
  {
  }

  /** Adding the successor cursor at the back queues the node's children after everything else. */
  lemma ExpandBfs(g: Graph, x: Node, c: Cursor, rest: seq<Cursor>)
    ensures Flat(Expand(g, AddBack, x, c, rest)) == Rest(c) + Flat(rest) + Children(g, x)
  {
    FlatAppend([c], rest);
    assert Flat([c]) == Rest(c) + Flat([]);
    match Successors(g, x) {
      case None =>
        assert Rest(c) + Flat(rest) + [] == Rest(c) + Flat(rest);
      case Some(kids) =>
        FlatAppend([c] + rest, [Start(kids)]);
        assert Flat([Start(kids)]) == Rest(Start(kids)) + Flat([]);
        assert Rest(Start(kids)) == kids;
    }
  }

  /** One breadth-first pull yields the head of what the session owes and leaves the rest owed. */
  lemma {:induction false} RemoveFromTopBfs(g: Graph, rank: Node -> nat, t: Tracker, st: State, s: nat) returns (s': nat)
    requires RankedBy(g, rank) && !t.FirstVisit? && st.horizon != []
    decreases |st.horizon|
    ensures var p := RemoveFromTop(g, t, AddBack, st);
            BfsPending(g, rank, t, Flat(st.horizon), s) == OutSeq(p.out) + BfsPending(g, rank, t, Flat(p.next.horizon), s')
  {
    var h := st.horizon;
    var v := VisitNext(t, h[0], st.seen);
    FlatHead(h);
    var s1 := VisitNextBfs(g, rank, t, h[0], st.seen, Flat(h[1..]), s);
    if v.found.Some? {
      RemoveFromTopFound(g, t, AddBack, st);
      ExpandBfs(g, v.found.value, v.cursor, h[1..]);
      s' := s1;
    } else {
      assert Rest(v.cursor) + Flat(h[1..]) + ChildrenOf(g, v.found) == Flat(h[1..]);
      if |h| == 1 {
        s' := 0;
      } else {
        var st1 := State(h[1..], st.post, v.seen);
        assert RemoveFromTop(g, t, AddBack, st) == RemoveFromTop(g, t, AddBack, st1);
        s' := RemoveFromTopBfs(g, rank, t, st1, s1);
      }
    }
  }

  lemma NextBfs(g: Graph, rank: Node -> nat, t: Tracker, st: State, s: nat) returns (s': nat)
    requires RankedBy(g, rank) && !t.FirstVisit?
    ensures var p := Next(g, t, BreadthFirst, rank, st);
            BfsPending(g, rank, t, Flat(st.horizon), s) == OutSeq(p.out) + BfsPending(g, rank, t, Flat(p.next.horizon), s')
  {
    if st.horizon == [] {
      s' := s;
    } else {
      s' := RemoveFromTopBfs(g, rank, t, st, s);
    }
  }

  /** Whatever a session emits, followed by what it still owes, is what it owed at the start. */
  lemma {:induction false} BreadthFirstRun(g: Graph, rank: Node -> nat, t: Tracker, st: State, s: nat, n: nat) returns (s': nat)
    requires RankedBy(g, rank) && !t.FirstVisit?
    decreases n
    ensures var r := Run(g, t, BreadthFirst, rank, st, n);
            r.emitted + BfsPending(g, rank, t, Flat(r.last.horizon), s') == BfsPending(g, rank, t, Flat(st.horizon), s)
  {
    if n == 0 {
      s' := s;
      assert Run(g, t, BreadthFirst, rank, st, n) == Trace([], st, []);
    } else {
      RunStep(g, t, BreadthFirst, rank, st, n);
      var p := Next(g, t, BreadthFirst, rank, st);
      var s1 := NextBfs(g, rank, t, st, s);
      s' := BreadthFirstRun(g, rank, t, p.next, s1, n - 1);
      var r1 := Run(g, t, BreadthFirst, rank, p.next, n - 1);
      Chain(OutSeq(p.out), r1.emitted, BfsPending(g, rank, t, Flat(r1.last.horizon), s'),
            BfsPending(g, rank, t, Flat(p.next.horizon), s1), BfsPending(g, rank, t, Flat(st.horizon), s));
    }
  }

  /** Every pull yields a node until the horizon is empty, so the owed sequence bounds the pulls. */
  lemma {:induction false} BreadthFirstEnds(g: Graph, rank: Node -> nat, t: Tracker, st: State, s: nat) returns (n: nat)
    requires RankedBy(g, rank) && !t.FirstVisit?
    decreases |BfsPending(g, rank, t, Flat(st.horizon), s)|
    ensures Run(g, t, BreadthFirst, rank, st, n).last.horizon == []
  {
    if st.horizon == [] {
      n := 0;
    } else {
      var p := Next(g, t, BreadthFirst, rank, st);
      var s1 := NextBfs(g, rank, t, st, s);
      if p.out.None? {
        n := 1;
      } else {
        var m := BreadthFirstEnds(g, rank, t, p.next, s1);
        n := m + 1;
      }
      RunStep(g, t, BreadthFirst, rank, st, n);
    }
  }

  lemma BeginFlat(roots: seq<Node>, seen: set<Node>)
    ensures Flat(Begin(roots, seen).horizon) == roots
  {
    assert Flat([Start(roots)]) == Rest(Start(roots)) + Flat([]);
    assert Rest(Start(roots)) == roots;
  }

  /** Any number of pulls of `breadthFirstFrom(roots)` yields a prefix of the reference level order. */
  lemma BreadthFirstPrefix(g: Graph, rank: Node -> nat, t: Tracker, roots: seq<Node>, seen: set<Node>, n: nat)
    requires RankedBy(g, rank) && !t.FirstVisit?
    ensures Run(g, t, BreadthFirst, rank, Begin(roots, seen), n).emitted <= LevelsFrom(g, rank, t, roots)
  {
    BeginFlat(roots, seen);
    var s' := BreadthFirstRun(g, rank, t, Begin(roots, seen), 0, n);
  }

  /** `breadthFirstFrom(roots)` ends, having yielded exactly the reference level order. */
  lemma BreadthFirstComplete(g: Graph, rank: Node -> nat, t: Tracker, roots: seq<Node>, seen: set<Node>) returns (n: nat)
    requires RankedBy(g, rank) && !t.FirstVisit?
    ensures var r := Run(g, t, BreadthFirst, rank, Begin(roots, seen), n);
            r.last.horizon == [] && r.emitted == LevelsFrom(g, rank, t, roots)
  {
    BeginFlat(roots, seen);
    n := BreadthFirstEnds(g, rank, t, Begin(roots, seen), 0);
    var s' := BreadthFirstRun(g, rank, t, Begin(roots, seen), 0, n);
  }
}
