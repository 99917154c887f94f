/**
 * Nodes, successor functions and the small helpers every part of the walker model shares.
 */
module Graphs {

  /** A node is an opaque caller value; integers stand for it here and have no null. */
  type Node = int

  datatype Option<T> = None | Some(value: T)

  /** The outcome of checking a varargs root list: the roots, or the position of the first null. */
  datatype Result<T> = Ok(value: T) | NullRoot(index: nat)

  /**
   * The successor function as a finite map. `None` is a successor function that returns
   * null; a node outside the map has no successors either.
   */
  type Graph = map<Node, Option<seq<Node>>>

  function Successors(g: Graph, n: Node): Option<seq<Node>>
  {
    if n in g then g[n] else None
  }

  /** The children a node really has: a null stream and an empty stream both mean none. */
  function Children(g: Graph, n: Node): seq<Node>
  {
    match Successors(g, n)
    case None => []
    case Some(kids) => kids
  }

  function Elems(s: seq<Node>): set<Node>
  {
    set x | x in s
  }

  /** Every node that some successor stream of `g` mentions. */
  function Listed(g: Graph): set<Node>
  {
    set n, k | n in g && k in Children(g, n) :: k
  }

  lemma ChildrenListed(g: Graph, n: Node)
    ensures Elems(Children(g, n)) <= Listed(g)
  {
    forall k | k in Children(g, n)
      ensures k in Listed(g)
    {
      assert n in g;
    }
  }

  function OutSeq(o: Option<Node>): seq<Node>
  {
    match o
    case None => []
    case Some(x) => [x]
  }

  function Reversed(s: seq<Node>): (r: seq<Node>)
    ensures |r| == |s|
  {
    if s == [] then [] else Reversed(s[1..]) + [s[0]]
  }

  lemma {:induction false} ReversedMultiset(s: seq<Node>)
    ensures multiset(Reversed(s)) == multiset(s)
  {
    if s != [] {
      ReversedMultiset(s[1..]);
      assert s == [s[0]] + s[1..];
    }
  }

  /*
   * Regrouping steps as lemmas of their own: a call hands the prover one instance, where an
   * inline assertion of the same equation has it search the whole proof context.
   */
  lemma Associative(a: seq<Node>, b: seq<Node>, c: seq<Node>)
    ensures (a + b) + c == a + (b + c)
  {
  }

  /** Two steps of "emitted so far, then still owed" compose. */
  lemma Chain(first: seq<Node>, later: seq<Node>, owed: seq<Node>, mid: seq<Node>, whole: seq<Node>)
    requires whole == first + mid && later + owed == mid
    ensures (first + later) + owed == whole
  {
  }

  /** No node occurs twice. */
  ghost predicate Distinct(s: seq<Node>)
  {
    forall x :: multiset(s)[x] <= 1
  }

  /**
   * `rank` strictly decreases along every successor edge, so the graph has no cycle and
   * no infinite path: the finite, acyclic structures a tree walker is meant for.
   */
  ghost predicate RankedBy(g: Graph, rank: Node -> nat)
  {
    forall n, k | k in Children(g, n) :: rank(k) < rank(n)
  }

  /** One more than the largest rank in `s`; 0 when `s` is empty. */
  function Bound(rank: Node -> nat, s: seq<Node>): nat
  {
    if s == [] then 0
    else
      var rest := Bound(rank, s[1..]);
      if rank(s[0]) + 1 < rest then rest else rank(s[0]) + 1
  }

  lemma {:induction false} BoundAbove(rank: Node -> nat, s: seq<Node>, x: Node)
    requires x in s
    ensures rank(x) < Bound(rank, s)
  {
    if s[0] != x {
      BoundAbove(rank, s[1..], x);
    }
  }

  lemma {:induction false} BoundBelow(rank: Node -> nat, s: seq<Node>, r: nat)
    requires forall x | x in s :: rank(x) < r
    ensures Bound(rank, s) <= r
  {
    if s != [] {
      var y := s[0];
      assert y in s;
      assert rank(y) < r;
      forall x | x in s[1..] ensures rank(x) < r {
        assert x in s;
      }
      BoundBelow(rank, s[1..], r);
      assert rank(s[0]) + 1 <= r;
    }
  }

  lemma ChildrenBound(g: Graph, rank: Node -> nat, n: Node)
    requires RankedBy(g, rank)
    ensures Bound(rank, Children(g, n)) <= rank(n)
  {
    BoundBelow(rank, Children(g, n), rank(n));
  }

  lemma {:induction false} BoundTail(rank: Node -> nat, s: seq<Node>, k: nat)
    requires k <= |s|
    ensures Bound(rank, s[k..]) <= Bound(rank, s)
  {
    if k > 0 {
      BoundTail(rank, s[1..], k - 1);
      assert s[1..][k - 1..] == s[k..];
    }
  }

  /**
   * The varargs entry points copy their arguments into a list, failing on the first
   * null before any traversal starts.
   */
  function NonNullList(values: seq<Option<Node>>): (r: Result<seq<Node>>)
    ensures r.Ok? <==> forall i | 0 <= i < |values| :: values[i].Some?
    ensures r.Ok? ==> |r.value| == |values| && forall i | 0 <= i < |values| :: values[i] == Some(r.value[i])
    ensures r.NullRoot? ==> r.index < |values| && values[r.index].None?
                            && forall i | 0 <= i < r.index :: values[i].Some?
  {
    if values == [] then Ok([])
    else if values[0].None? then NullRoot(0)
    else
      match NonNullList(values[1..])
      case Ok(rest) => Ok([values[0].value] + rest)
      case NullRoot(i) => NullRoot(i + 1)
  }
}
