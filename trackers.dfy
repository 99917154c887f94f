/**
 * The tracker: the predicate a walker consults before it yields and expands a node.
 */
module Trackers {
  import opened Graphs

  /**
   * The three ways to configure a walker: the tree walker's constant `true`, the graph
   * walker's `HashSet::add`, and a caller-supplied predicate (modelled as a pure one).
   */
  datatype Tracker = AcceptAll | FirstVisit | Custom(accepts: Node -> bool)

  /** One `tracker.test(n)`: the verdict, and the backing set as the test leaves it. */
  function Test(t: Tracker, seen: set<Node>, n: Node): (bool, set<Node>)
  {
    match t
    case AcceptAll => (true, seen)
    case FirstVisit => (n !in seen, seen + {n})
    case Custom(p) => (p(n), seen)
  }

  /**
   * The graph preset's `add` reports whether it changed the set, and afterwards the set
   * holds `n`; the other presets leave the set alone and answer as their predicate does.
   */
  lemma TestReports(t: Tracker, seen: set<Node>, n: Node)
    ensures var r := Test(t, seen, n);
            && (t.FirstVisit? ==> r.1 == seen + {n} && (r.0 <==> r.1 != seen))
            && (!t.FirstVisit? ==> r.1 == seen && r.0 == Keeps(t, n))
  {
  }

  /** The verdict of a tracker that keeps no state. */
  function Keeps(t: Tracker, n: Node): bool
    requires !t.FirstVisit?
  {
    match t
    case AcceptAll => true
    case Custom(p) => p(n)
  }

  /**
   * The nodes accepted when `xs` are tested one after another, starting from the backing
   * set `seen`; this is every `tracker.test` a walker makes over its lifetime, whichever
   * traversal makes it.
   */
  function Accepted(t: Tracker, seen: set<Node>, xs: seq<Node>): seq<Node>
    decreases |xs|
  {
    if xs == [] then []
    else
      var (ok, seen') := Test(t, seen, xs[0]);
      (if ok then [xs[0]] else []) + Accepted(t, seen', xs[1..])
  }

  /** The tree preset never prunes: every candidate is accepted. */
  lemma {:induction false} AcceptAllNeverPrunes(seen: set<Node>, xs: seq<Node>)
    ensures Accepted(AcceptAll, seen, xs) == xs
  {
    if xs != [] {
      AcceptAllNeverPrunes(seen, xs[1..]);
    }
  }

  /** The graph preset accepts exactly the tested nodes that were not in the set before. */
  lemma {:induction false} FirstVisitAcceptsNew(seen: set<Node>, xs: seq<Node>)
    ensures Elems(Accepted(FirstVisit, seen, xs)) == Elems(xs) - seen
    decreases |xs|
  {
    if xs != [] {
      var x := xs[0];
      FirstVisitAcceptsNew(seen + {x}, xs[1..]);
      assert xs == [x] + xs[1..];
      assert Elems(xs) == {x} + Elems(xs[1..]);
      var rest := Accepted(FirstVisit, seen + {x}, xs[1..]);
      assert Elems([x] + rest) == {x} + Elems(rest);
    }
  }

  /**
   * The graph preset accepts a node at most once over the walker's whole lifetime, however
   * often it is tested.
   */
  lemma {:induction false} FirstVisitAcceptsOnce(seen: set<Node>, xs: seq<Node>)
    ensures Distinct(Accepted(FirstVisit, seen, xs))
    decreases |xs|
  {
    if xs != [] {
      var x := xs[0];
      FirstVisitAcceptsOnce(seen + {x}, xs[1..]);
      var rest := Accepted(FirstVisit, seen + {x}, xs[1..]);
      if x !in seen {
        FirstVisitAcceptsNew(seen + {x}, xs[1..]);
        assert x !in Elems(rest);
        assert multiset(rest)[x] == 0;
        forall y ensures multiset([x] + rest)[y] <= 1 {
          assert multiset([x] + rest)[y] == multiset([x])[y] + multiset(rest)[y];
        }
      }
    }
  }
}
