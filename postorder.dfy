/**
 * Post-order sessions of a walker whose tracker keeps no state yield exactly the reference
 * post-order of their roots, one node per pull, and then end.
 */
module PostOrderCorrect {
  import opened Graphs
  import opened Trackers
  import opened Frontier
  import opened Orders

  /**
   * What a post-order session still owes: the remaining forest of each cursor, each
   * followed by the deferred parent of that cursor's nodes, deepest cursor first.
   */
  ghost function PostPending(g: Graph, rank: Node -> nat, t: Tracker, h: seq<Cursor>, post: seq<Node>): seq<Node>
    requires RankedBy(g, rank) && !t.FirstVisit?
    decreases |h|
  {
    if h == [] then []
    else
      var popped := PollFirst(post);
      PostOrderOf(g, rank, t, Rest(h[0])) + (OutSeq(popped.0) + PostPending(g, rank, t, h[1..], popped.1))
  }

  lemma PostPendingHead(g: Graph, rank: Node -> nat, t: Tracker, h: seq<Cursor>, post: seq<Node>)
    requires RankedBy(g, rank) && !t.FirstVisit? && h != []
    ensures var popped := PollFirst(post);
            PostPending(g, rank, t, h, post)
              == PostOrderOf(g, rank, t, Rest(h[0])) + (OutSeq(popped.0) + PostPending(g, rank, t, h[1..], popped.1))
  {
  }

  lemma PostPendingCons(g: Graph, rank: Node -> nat, t: Tracker, c: Cursor, rest: seq<Cursor>, post: seq<Node>)
    requires RankedBy(g, rank) && !t.FirstVisit?
    ensures var popped := PollFirst(post);
            PostPending(g, rank, t, [c] + rest, post)
              == PostOrderOf(g, rank, t, Rest(c)) + (OutSeq(popped.0) + PostPending(g, rank, t, rest, popped.1))
  {
    assert ([c] + rest)[1..] == rest;
  }

  /**
   * `visitNext` splits a cursor's remaining forest into the subtrees of the node it finds,
   * that node, and the forest after it: the candidates it skips contribute nothing.
   */
  lemma {:induction false} VisitNextPost(g: Graph, rank: Node -> nat, t: Tracker, c: Cursor, seen: set<Node>)
    requires RankedBy(g, rank) && !t.FirstVisit?
    decreases |c.elems| - c.pos
    ensures var v := VisitNext(t, c, seen);
            PostOrderOf(g, rank, t, Rest(c))
              == PostOrderOf(g, rank, t, ChildrenOf(g, v.found)) + OutSeq(v.found) + PostOrderOf(g, rank, t, Rest(v.cursor))
  {
    if c.pos < |c.elems| {
      var x := c.elems[c.pos];
      var advanced: Cursor := RawCursor(c.elems, c.pos + 1);
      assert Rest(c)[0] == x && Rest(c)[1..] == Rest(advanced);
      if !Keeps(t, x) {
        VisitNextPost(g, rank, t, advanced, Test(t, seen, x).1);
      }
    }
  }

  lemma Shift(sub: seq<Node>, mid: seq<Node>, after: seq<Node>, below: seq<Node>)
    requires sub == []
    ensures (sub + mid + after) + below == mid + (after + below)
  {
  }

  lemma Nest(sub: seq<Node>, mid: seq<Node>, after: seq<Node>, below: seq<Node>)
    ensures sub + (mid + (after + below)) == ((sub + mid) + after) + below
  {
  }

  /** A pull that meets a node with a null stream yields it at once. */
  lemma PullLeafPost(g: Graph, rank: Node -> nat, t: Tracker, st: State)
    requires RankedBy(g, rank) && !t.FirstVisit? && st.horizon != []
    requires var v := VisitNext(t, st.horizon[0], st.seen);
             v.found.Some? && Successors(g, v.found.value).None?
    ensures var p := RemoveFromBottom(g, t, rank, st);
            PostPending(g, rank, t, st.horizon, st.post) == OutSeq(p.out) + PostPending(g, rank, t, p.next.horizon, p.next.post)
  {
    var h := st.horizon;
    var v := VisitNext(t, h[0], st.seen);
    var x := v.found.value;
    assert RemoveFromBottom(g, t, rank, st) == Pull(Some(x), State([v.cursor] + h[1..], st.post, v.seen), [x]);
    VisitNextPost(g, rank, t, h[0], st.seen);
    PostPendingHead(g, rank, t, h, st.post);
    PostPendingCons(g, rank, t, v.cursor, h[1..], st.post);
    assert ChildrenOf(g, v.found) == [];
    var popped := PollFirst(st.post);
    Shift(PostOrderOf(g, rank, t, ChildrenOf(g, v.found)), OutSeq(v.found), PostOrderOf(g, rank, t, Rest(v.cursor)),
          OutSeq(popped.0) + PostPending(g, rank, t, h[1..], popped.1));
  }

  /**
   * Descending into a node with a stream defers the node: what is owed is unchanged, its
   * subtrees now come from the new front cursor and the node from the top of the stack.
   */
  lemma DescendPost(g: Graph, rank: Node -> nat, t: Tracker, st: State, x: Node, kids: seq<Node>)
    requires RankedBy(g, rank) && !t.FirstVisit? && st.horizon != []
    requires VisitNext(t, st.horizon[0], st.seen).found == Some(x)
    requires Successors(g, x) == Some(kids)
    ensures var v := VisitNext(t, st.horizon[0], st.seen);
            var resumed := [v.cursor] + st.horizon[1..];
            PostPending(g, rank, t, [Start(kids)] + resumed, [x] + st.post)
              == PostPending(g, rank, t, st.horizon, st.post)
  {
    var h := st.horizon;
    var v := VisitNext(t, h[0], st.seen);
    var resumed := [v.cursor] + h[1..];
    VisitNextPost(g, rank, t, h[0], st.seen);
    assert ChildrenOf(g, v.found) == kids;
    assert Rest(Start(kids)) == kids;
    assert PollFirst([x] + st.post) == (Some(x), st.post);
    PostPendingCons(g, rank, t, Start(kids), resumed, [x] + st.post);
    PostPendingCons(g, rank, t, v.cursor, h[1..], st.post);
    PostPendingHead(g, rank, t, h, st.post);
    var popped := PollFirst(st.post);
    Nest(PostOrderOf(g, rank, t, kids), [x], PostOrderOf(g, rank, t, Rest(v.cursor)),
         OutSeq(popped.0) + PostPending(g, rank, t, h[1..], popped.1));
  }

  /** A pull that exhausts the front cursor pops it and yields the deferred parent. */
  lemma PullPopPost(g: Graph, rank: Node -> nat, t: Tracker, st: State)
    requires RankedBy(g, rank) && !t.FirstVisit? && st.horizon != []
    requires VisitNext(t, st.horizon[0], st.seen).found.None?
    ensures var p := RemoveFromBottom(g, t, rank, st);
            PostPending(g, rank, t, st.horizon, st.post) == OutSeq(p.out) + PostPending(g, rank, t, p.next.horizon, p.next.post)
  {
    var h := st.horizon;
    var v := VisitNext(t, h[0], st.seen);
    var popped := PollFirst(st.post);
    assert RemoveFromBottom(g, t, rank, st) == Pull(popped.0, State(h[1..], popped.1, v.seen), []);
    VisitNextPost(g, rank, t, h[0], st.seen);
    PostPendingHead(g, rank, t, h, st.post);
  }

  /** One post-order pull yields the head of what the session owes and leaves the rest owed. */
  lemma {:induction false} RemoveFromBottomPost(g: Graph, rank: Node -> nat, t: Tracker, st: State)
    requires RankedBy(g, rank) && !t.FirstVisit? && st.horizon != []
    decreases DescentPool(g, t, st), DescentBound(t, rank, st)
    ensures var p := RemoveFromBottom(g, t, rank, st);
            PostPending(g, rank, t, st.horizon, st.post) == OutSeq(p.out) + PostPending(g, rank, t, p.next.horizon, p.next.post)
  {
    var v := VisitNext(t, st.horizon[0], st.seen);
    if v.found.None? {
      PullPopPost(g, rank, t, st);
    } else if Successors(g, v.found.value).None? {
      PullLeafPost(g, rank, t, st);
    } else {
      var x := v.found.value;
      var kids := Successors(g, x).value;
      var st1 := State([Start(kids), v.cursor] + st.horizon[1..], [x] + st.post, v.seen);
      DescentShrinks(g, t, rank, st, x, kids);
      DescendPost(g, rank, t, st, x, kids);
      assert [Start(kids), v.cursor] + st.horizon[1..] == [Start(kids)] + ([v.cursor] + st.horizon[1..]);
      var p1 := RemoveFromBottom(g, t, rank, st1);
      assert RemoveFromBottom(g, t, rank, st) == Pull(p1.out, p1.next, [x] + p1.expanded);
      RemoveFromBottomPost(g, rank, t, st1);
    }
  }

  lemma NextPost(g: Graph, rank: Node -> nat, t: Tracker, st: State)
    requires RankedBy(g, rank) && !t.FirstVisit?
    ensures var p := Next(g, t, PostOrder, rank, st);
            PostPending(g, rank, t, st.horizon, st.post) == OutSeq(p.out) + PostPending(g, rank, t, p.next.horizon, p.next.post)
  {
    if st.horizon != [] {
      RemoveFromBottomPost(g, rank, t, st);
    }
  }

  /** Whatever a session emits, followed by what it still owes, is what it owed at the start. */
  lemma {:induction false} PostOrderRun(g: Graph, rank: Node -> nat, t: Tracker, st: State, n: nat)
    requires RankedBy(g, rank) && !t.FirstVisit?
    decreases n
    ensures var r := Run(g, t, PostOrder, rank, st, n);
            r.emitted + PostPending(g, rank, t, r.last.horizon, r.last.post) == PostPending(g, rank, t, st.horizon, st.post)
  {
    if n > 0 {
      var p := Next(g, t, PostOrder, rank, st);
      NextPost(g, rank, t, st);
      PostOrderRun(g, rank, t, p.next, n - 1);
      var r1 := Run(g, t, PostOrder, rank, p.next, n - 1);
      RunStep(g, t, PostOrder, rank, st, n);
      Associative(OutSeq(p.out), r1.emitted, PostPending(g, rank, t, r1.last.horizon, r1.last.post));
    }
  }

  /**
   * Every pull of a balanced session yields a node until the horizon is empty, so the owed
   * sequence bounds the pulls.
   */
  lemma {:induction false} PostOrderEnds(g: Graph, rank: Node -> nat, t: Tracker, st: State) returns (n: nat)
    requires RankedBy(g, rank) && !t.FirstVisit? && Shaped(st)
    decreases |PostPending(g, rank, t, st.horizon, st.post)|
    ensures Run(g, t, PostOrder, rank, st, n).last.horizon == []
  {
    if st.horizon == [] {
      n := 0;
    } else {
      var p := Next(g, t, PostOrder, rank, st);
      NextPost(g, rank, t, st);
      NextEndsOnlyWhenEmpty(g, t, PostOrder, rank, st);
      if p.out.None? {
        n := 1;
      } else {
        var m := PostOrderEnds(g, rank, t, p.next);
        n := m + 1;
      }
      RunStep(g, t, PostOrder, rank, st, n);
    }
  }

  lemma BeginOwesPostOrder(g: Graph, rank: Node -> nat, t: Tracker, roots: seq<Node>, seen: set<Node>)
    requires RankedBy(g, rank) && !t.FirstVisit?
    ensures PostPending(g, rank, t, Begin(roots, seen).horizon, Begin(roots, seen).post) == PostOrderOf(g, rank, t, roots)
  {
    assert Rest(Start(roots)) == roots;
  }

  /** Any number of pulls of `postOrderFrom(roots)` yields a prefix of the reference post-order. */
  lemma PostOrderPrefix(g: Graph, rank: Node -> nat, t: Tracker, roots: seq<Node>, seen: set<Node>, n: nat)
    requires RankedBy(g, rank) && !t.FirstVisit?
    ensures Run(g, t, PostOrder, rank, Begin(roots, seen), n).emitted <= PostOrderOf(g, rank, t, roots)
  {
    PostOrderRun(g, rank, t, Begin(roots, seen), n);
    BeginOwesPostOrder(g, rank, t, roots, seen);
  }

  /** `postOrderFrom(roots)` ends, having yielded exactly the reference post-order. */
  lemma PostOrderComplete(g: Graph, rank: Node -> nat, t: Tracker, roots: seq<Node>, seen: set<Node>) returns (n: nat)
    requires RankedBy(g, rank) && !t.FirstVisit?
    ensures var r := Run(g, t, PostOrder, rank, Begin(roots, seen), n);
            r.last.horizon == [] && r.emitted == PostOrderOf(g, rank, t, roots)
  {
    n := PostOrderEnds(g, rank, t, Begin(roots, seen));
    PostOrderRun(g, rank, t, Begin(roots, seen), n);
    BeginOwesPostOrder(g, rank, t, roots, seen);
  }
}
