# Walker: lazy tree and graph traversal, modelled in Dafny

`Walker` walks a tree or a graph given only a successor function. It yields the nodes as
a lazy stream in breadth-first order, depth-first pre-order or depth-first post-order.
Before it yields a node and asks for that node's successors, it consults a tracker
predicate. There are three presets:
- the tree walker accepts every node;
- the graph walker accepts a node only the first time it is offered. Its backing set
  lives as long as the walker, so later traversals of the same walker skip nodes that
  earlier ones already visited;
- a custom walker uses a predicate the caller supplies.

A traversal keeps a *horizon* of sibling cursors, one per successor stream still being
read. Breadth-first treats the horizon as a queue and pre-order treats it as a stack.
Post-order also keeps a stack of *deferred parents*: nodes whose children must be emitted
before them.

The model has two layers.

- **Values.** The modules `Graphs`, `Trackers` and `Frontier` describe one session as data:
  - cursors, the horizon, the post stack and the tracker's set;
  - each step routine (`visitNext`, `removeFromTop`, `removeFromBottom`) as a function
    that performs one pull of the stream.
- **Objects.** `WalkerModel` has a `Walker` class and a `Traversal` class that change
  their fields in place, with the same loops as the source. Each method is proved to
  leave exactly the state, and return exactly the node, that the matching function
  computes.

The proved properties are stated about those functions.

- **Orders.** `PreOrderCorrect`, `PostOrderCorrect` and `BreadthFirstCorrect` cover a
  tracker without state on a finite acyclic graph. Every prefix of a session's output is
  a prefix of the reference order. The session ends after yielding exactly that order,
  and a rejected node prunes its whole subtree.
- **Graph walker.** `GraphMode` shows that no node is yielded twice:
  - within one session;
  - across sessions run one after the other;
  - across two sessions pulled in any interleaving.

  No session yields a node an earlier session already visited, and every session ends.
- **Coverage.** `GraphCoverage` shows that a finished graph-walker session misses
  nothing. Every root, and every successor of a node it yields, was yielded by the session
  or was already in the set when it began. The set grows by exactly the nodes yielded.
- **Null streams.** `NullStreams` shows that a null successor stream and an empty one
  produce the same output, pull for pull, under any tracker.
- **Stateless trackers.** A walker whose tracker keeps no state leaves its set alone, so
  consuming its streams leaves the walker as it was.
- **Scenarios.** `Scenarios` works through a four-node tree in each order, both with
  the tree preset and with a predicate that prunes a subtree. It also walks a cycle of two
  nodes with the graph preset.

Nodes are integers, so there is no null node. The successor function is a finite map from
a node to `Some(children)` or to `None` (the function returned null). A node missing from
the map means `None`.

## Model

Source paths are relative to the repository root.

| member | source | states |
|---|---|---|
| Graphs.NonNullList | core/src/main/java/com/google/mu/util/stream/Walker.java:280-283 | A root list is accepted exactly when no value is null, and then it holds the values in order. Otherwise the failure names the first null position, with every earlier value non-null. |
| Trackers.AcceptAllNeverPrunes | core/src/main/java/com/google/mu/util/stream/Walker.java:67-70 | The tree walker's predicate accepts every node offered to it, in order. |
| Trackers.TestReports | core/src/main/java/com/google/mu/util/stream/Walker.java:131-134 | One `tracker.test`: the graph preset's `HashSet::add` puts the node in the set and answers whether the set changed. The tree preset and a custom predicate leave the set alone and answer as the predicate does. |
| Trackers.FirstVisitAcceptsNew | core/src/main/java/com/google/mu/util/stream/Walker.java:97-100 | The graph walker's `HashSet::add` accepts exactly the offered nodes that were not in the set before. |
| Trackers.FirstVisitAcceptsOnce | core/src/main/java/com/google/mu/util/stream/Walker.java:76-78 | Over any sequence of offers, the graph walker's set accepts each node at most once. |
| Frontier.InsertPlaces | core/src/main/java/com/google/mu/util/stream/Walker.java:220-228 | Inserting a successor cursor keeps every waiting cursor in its order and adds exactly that cursor. `Deque::push` puts it in front, to be served next. `Queue::add` puts it behind every cursor already waiting. |
| Frontier.VisitNext | core/src/main/java/com/google/mu/util/stream/Walker.java:269-277 | `visitNext` only advances the front cursor and never shrinks the set. No result means the cursor ran out. A found node is the last element the cursor consumed. |
| Frontier.VisitNextStateless | core/src/main/java/com/google/mu/util/stream/Walker.java:269-277 | With a tracker that keeps no state, `visitNext` skips exactly the candidates the predicate rejects, stops at the first it accepts, and changes no set. |
| Frontier.VisitNextFirstVisit | core/src/main/java/com/google/mu/util/stream/Walker.java:269-277 | With the graph walker, `visitNext` skips only nodes already in the set. It accepts a node not in the set, and adds to the set exactly the node it accepts. |
| Frontier.VisitNextAcceptAll | core/src/main/java/com/google/mu/util/stream/Walker.java:269-277 | With the tree walker, `visitNext` takes the very next candidate and skips nothing. |
| Frontier.RemoveFromTop | core/src/main/java/com/google/mu/util/stream/Walker.java:240-253 | One top-down pull leaves the post stack alone and never shrinks the set. It requests the successors of the yielded node only, and returns null exactly when the horizon is left empty. |
| Frontier.RemoveFromTopPlaces | core/src/main/java/com/google/mu/util/stream/Walker.java:240-253 | A yielding pull discards the exhausted front cursors and resumes the cursor that yielded the node. The successor cursor goes on top (pre-order) or at the back (breadth-first), and every cursor below keeps its order. |
| Frontier.DescentShrinks | core/src/main/java/com/google/mu/util/stream/Walker.java:256-264 | Each descent of post-order either uses up a node the graph walker had not seen, or, on an acyclic graph, moves strictly down in rank. So the descent loop ends. |
| Frontier.RemoveFromBottom | core/src/main/java/com/google/mu/util/stream/Walker.java:255-267 | One post-order pull never shrinks the set. It terminates under the graph walker or on an acyclic graph. |
| Frontier.RemoveFromBottomDefers | core/src/main/java/com/google/mu/util/stream/Walker.java:255-267 | Post-order pushes every expanded node with a non-null stream onto the post stack, in order. It then yields either the leaf it stopped at (a null stream) or, after popping the exhausted cursor, the top of the stack. |
| Frontier.RemoveFromBottomShaped | core/src/main/java/com/google/mu/util/stream/Walker.java:255-267 | A post-order session holds one more cursor than deferred parents. A pull returns null exactly when it pops the roots cursor with an empty stack. |
| Frontier.Next | core/src/main/java/com/google/mu/util/stream/Walker.java:233-237 | One element of the stream: nothing changes once the horizon is empty. Otherwise the order's step routine runs. |
| Frontier.NextEndsOnlyWhenEmpty | core/src/main/java/com/google/mu/util/stream/Walker.java:233-237 | A step routine returns null only on the pull that empties the horizon. So filtering out nulls drops only the end of the stream. |
| Frontier.Run | core/src/main/java/com/google/mu/util/stream/Walker.java:233-237 | Any number of pulls never shrinks the tracker's set. |
| Frontier.RunStateless | core/src/main/java/com/google/mu/util/stream/Walker.java:58-59 | Any number of pulls under a tracker without state leave the set exactly as it was, so the walker keeps no memory between traversals. |
| PreOrderCorrect.PreOrderRun | core/src/main/java/com/google/mu/util/stream/Walker.java:225-228 | Under a tracker without state on an acyclic graph, the nodes a pre-order session yields, followed by what its horizon still owes, are always what it owed at the start. |
| PreOrderCorrect.PreOrderPrefix | core/src/main/java/com/google/mu/util/stream/Walker.java:157-158 | Any number of pulls of `preOrderFrom(roots)` yields a prefix of the reference pre-order: each accepted node before its subtrees, subtrees in stream order, rejected nodes pruned. |
| PreOrderCorrect.PreOrderComplete | core/src/main/java/com/google/mu/util/stream/Walker.java:157-158 | A pre-order session ends, and by then it has yielded exactly the reference pre-order. |
| PreOrderCorrect.PreOrderEnds | core/src/main/java/com/google/mu/util/stream/Walker.java:225-228 | From any state, some number of pre-order pulls empties the horizon. |
| PostOrderCorrect.PostOrderRun | core/src/main/java/com/google/mu/util/stream/Walker.java:230-234 | The nodes a post-order session yields, followed by what its cursors and deferred parents still owe, are always what it owed at the start. |
| PostOrderCorrect.PostOrderPrefix | core/src/main/java/com/google/mu/util/stream/Walker.java:184-185 | Any number of pulls of `postOrderFrom(roots)` yields a prefix of the reference post-order: each accepted node after its subtrees. |
| PostOrderCorrect.PostOrderComplete | core/src/main/java/com/google/mu/util/stream/Walker.java:184-185 | A post-order session ends, and by then it has yielded exactly the reference post-order. |
| PostOrderCorrect.PostOrderEnds | core/src/main/java/com/google/mu/util/stream/Walker.java:230-234 | From any balanced post-order state, some number of pulls empties the horizon. |
| BreadthFirstCorrect.BreadthFirstRun | core/src/main/java/com/google/mu/util/stream/Walker.java:220-223 | The nodes a breadth-first session yields, followed by the level order its queue still owes, are always what it owed at the start. |
| BreadthFirstCorrect.BreadthFirstPrefix | core/src/main/java/com/google/mu/util/stream/Walker.java:207-208 | Any number of pulls of `breadthFirstFrom(roots)` yields a prefix of the reference level order: level by level, each level in stream order. |
| BreadthFirstCorrect.BreadthFirstComplete | core/src/main/java/com/google/mu/util/stream/Walker.java:207-208 | A breadth-first session ends, and by then it has yielded exactly the reference level order. |
| BreadthFirstCorrect.BreadthFirstEnds | core/src/main/java/com/google/mu/util/stream/Walker.java:220-223 | From any state, some number of breadth-first pulls empties the queue. |
| GraphMode.NextRecords | core/src/main/java/com/google/mu/util/stream/Walker.java:233-237 | For the graph walker, each pull adds to the set exactly the nodes it expands, all new and distinct. Those nodes end up yielded or on the post stack, with nothing lost or duplicated. |
| GraphMode.RunRecords | core/src/main/java/com/google/mu/util/stream/Walker.java:233-237 | The same accounting holds over any number of pulls of one session. |
| GraphMode.GraphSessionOnce | core/src/main/java/com/google/mu/util/stream/Walker.java:76-78 | A graph-walker session yields no node twice and no node in the set when it began, and it remembers every node it yields. |
| GraphMode.SequentialSessionsOnce | core/src/main/java/com/google/mu/util/stream/Walker.java:76-78 | Two sessions of one graph walker, the second started after the first, together yield no node twice and none seen before either began. |
| GraphMode.Interleave | core/src/main/java/com/google/mu/util/stream/Walker.java:80-85 | Pulling two sessions of one graph walker in any interleaving never shrinks their shared set. |
| GraphMode.InterleaveRecords | core/src/main/java/com/google/mu/util/stream/Walker.java:80-85 | Under any interleaving, the shared set grows by exactly the distinct new nodes expanded. Each of those is yielded by one session or is on its post stack. |
| GraphMode.InterleavedSessionsOnce | core/src/main/java/com/google/mu/util/stream/Walker.java:80-85 | Two sessions of one graph walker, pulled in any interleaving, together yield no node twice and none seen before. |
| GraphMode.RemoveFromTopWithin | core/src/main/java/com/google/mu/util/stream/Walker.java:240-253 | A top-down pull introduces and expands only nodes named by the graph or already on the horizon. |
| GraphMode.RemoveFromBottomWithin | core/src/main/java/com/google/mu/util/stream/Walker.java:255-267 | A post-order pull introduces and expands only nodes named by the graph or already on the horizon. |
| GraphMode.NextShrinks | core/src/main/java/com/google/mu/util/stream/Walker.java:233-237 | Each non-null pull of the graph walker lowers a measure that counts unseen reachable nodes and deferred parents. |
| GraphCoverage.NextKeepsClosed | core/src/main/java/com/google/mu/util/stream/Walker.java:240-267 | Every pull of the graph walker keeps a session closed. The roots, and the successors of every node accepted since the session began, are each in the set or still pending on a cursor. |
| GraphCoverage.RunKeepsClosed | core/src/main/java/com/google/mu/util/stream/Walker.java:233-237 | Any number of pulls keep the session closed. |
| GraphCoverage.GraphSessionCovers | core/src/main/java/com/google/mu/util/stream/Walker.java:72-78 | A graph-walker session ends having added to the set exactly the nodes it yields. Every root and every successor of a yielded node was yielded or was in the set before the session began. |
| GraphMode.GraphSessionEnds | core/src/main/java/com/google/mu/util/stream/Walker.java:97-100 | Every session of the graph walker ends, whatever the graph's cycles: some number of pulls empties the horizon. |
| NullStreams.NullMeansNoChildren | core/src/main/java/com/google/mu/util/stream/Walker.java:65 | Replacing a node's null stream with an empty one changes no node's children. |
| NullStreams.SameChildrenDepthFirst | core/src/main/java/com/google/mu/util/stream/Walker.java:65 | Successor functions that agree on every node's children have the same reference pre-order and post-order. |
| NullStreams.SameChildrenLevels | core/src/main/java/com/google/mu/util/stream/Walker.java:65 | Successor functions that agree on every node's children have the same reference level order. |
| NullStreams.SessionComplete | core/src/main/java/com/google/mu/util/stream/Walker.java:220-237 | A session of any order, under a tracker without state on an acyclic graph, ends having yielded that order's reference sequence. |
| NullStreams.TopNullAsEmpty | core/src/main/java/com/google/mu/util/stream/Walker.java:240-253 | A top-down pull under any tracker, where a node's successor stream is null, yields and expands what it does when the stream is empty. The two horizons then differ only by exhausted cursors. |
| NullStreams.BottomNullAsEmpty | core/src/main/java/com/google/mu/util/stream/Walker.java:255-267 | A post-order pull returns the same node and leaves the same state, whether a node's successor stream is null or empty: it yields a leaf at once, or descends into the empty cursor and pops it. |
| NullStreams.RunNullAsEmpty | core/src/main/java/com/google/mu/util/stream/Walker.java:233-237 | Any number of pulls of either order, under any tracker, yield and expand the same nodes with a null stream as with an empty one. The sets match, and so do the horizons up to exhausted cursors. |
| NullStreams.NullStreamSameAsEmpty | core/src/main/java/com/google/mu/util/stream/Walker.java:94-95 | Under any tracker, including the graph walker on a cyclic graph, a session where some node's successor function returns null yields, pull for pull, exactly what it yields when the function returns an empty stream instead. It leaves the same set and the same live cursors. Post-order needs its descent to end. |
| Scenarios.TreeOrders | core/src/main/java/com/google/mu/util/stream/Walker.java:35-36 | On the tree 0 → [1, 2], 1 → [3], the tree preset's reference orders from root 0 are pre-order [0, 1, 3, 2], post-order [3, 1, 2, 0] and breadth-first [0, 1, 2, 3]. Node 3's null stream counts as no children. |
| Scenarios.PrunedOrders | core/src/main/java/com/google/mu/util/stream/Walker.java:103-106 | On the same tree, a predicate that rejects node 1 also skips its child 3. Every order then yields only 0 and 2: [0, 2] in pre-order and breadth-first, [2, 0] in post-order. |
| Scenarios.CycleSessions | core/src/main/java/com/google/mu/util/stream/Walker.java:72-78 | On the cycle 0 → [1], 1 → [0], a graph-walker session from 0 yields both nodes once and then returns null: [0, 1] in pre-order and breadth-first, [1, 0] in post-order, after three pulls. |
| Scenarios.TreeSession | core/src/main/java/com/google/mu/util/stream/Walker.java:55-70 | A tree walker's session from root 0 of that tree ends, in each order, having yielded exactly those nodes in that order, whatever the backing set holds. |
| WalkerModel.Walker.TreeWalker | core/src/main/java/com/google/mu/util/stream/Walker.java:67-70 | The tree preset accepts every node and starts with an empty set. |
| WalkerModel.Walker.GraphWalker | core/src/main/java/com/google/mu/util/stream/Walker.java:97-100 | The graph preset accepts first visits and starts with an empty set. |
| WalkerModel.Walker.CustomWalker | core/src/main/java/com/google/mu/util/stream/Walker.java:131-135 | The custom walker uses the caller's predicate. |
| WalkerModel.Walker.Test | core/src/main/java/com/google/mu/util/stream/Walker.java:272 | `tracker.test`: the graph preset's set gains the tested node, and the verdict says whether it was new. The other trackers change nothing. |
| WalkerModel.Walker.BreadthFirstFrom | core/src/main/java/com/google/mu/util/stream/Walker.java:207-209 | A fresh traversal of this walker, in breadth-first order, whose session starts from the roots and the walker's set. |
| WalkerModel.Walker.PreOrderFrom | core/src/main/java/com/google/mu/util/stream/Walker.java:157-159 | A fresh traversal in pre-order, starting from the roots. |
| WalkerModel.Walker.PostOrderFrom | core/src/main/java/com/google/mu/util/stream/Walker.java:184-186 | A fresh traversal in post-order, starting from the roots with an empty post stack. |
| WalkerModel.Walker.From | core/src/main/java/com/google/mu/util/stream/Walker.java:146-148 | A varargs entry point fails with the first null argument's position before any traversal exists. Otherwise it starts a fresh traversal of the arguments in order. |
| WalkerModel.Walker.TraversalFrom | core/src/main/java/com/google/mu/util/stream/Walker.java:157-209 | The `Iterable` entry point of each order starts a fresh traversal of that order. |
| WalkerModel.Walker.Walk | core/src/main/java/com/google/mu/util/stream/Walker.java:54-70 | Under a tracker without state on an acyclic graph, consuming a whole stream yields exactly the order's reference sequence and leaves the walker's set unchanged. |
| WalkerModel.Walker.WalkGraph | core/src/main/java/com/google/mu/util/stream/Walker.java:76-85 | Consuming a whole graph-walker stream ends. It yields no node twice and no node the walker's set held before. The set grows by exactly the yielded nodes. Every root and every successor of a yielded node was yielded or was already in the set. |
| WalkerModel.Traversal.constructor | core/src/main/java/com/google/mu/util/stream/Walker.java:211-213 | A new traversal of a walker has an empty horizon. |
| WalkerModel.Traversal.BreadthFirst | core/src/main/java/com/google/mu/util/stream/Walker.java:220-223 | The roots cursor is added to the empty queue. |
| WalkerModel.Traversal.PreOrder | core/src/main/java/com/google/mu/util/stream/Walker.java:225-228 | The roots cursor is pushed onto the empty stack. |
| WalkerModel.Traversal.PostOrder | core/src/main/java/com/google/mu/util/stream/Walker.java:230-234 | The roots cursor is pushed, and the post stack starts empty. |
| WalkerModel.Traversal.VisitNext | core/src/main/java/com/google/mu/util/stream/Walker.java:269-277 | The loop advances the front cursor in place and tests candidates against the walker's tracker. It leaves the cursor, set, verdict and `visited` that `Frontier.VisitNext` computes. |
| WalkerModel.Traversal.RemoveFromTop | core/src/main/java/com/google/mu/util/stream/Walker.java:240-253 | The do-while loop returns the node, and leaves the horizon and set, that `Frontier.RemoveFromTop` computes. |
| WalkerModel.Traversal.RemoveFromBottom | core/src/main/java/com/google/mu/util/stream/Walker.java:255-267 | The descent loop ends under the graph walker or on an acyclic graph. It returns the node, and leaves the horizon, post stack and set, that `Frontier.RemoveFromBottom` computes. |
| WalkerModel.Traversal.Pull | core/src/main/java/com/google/mu/util/stream/Walker.java:233-237 | One element of `whileNotEmpty(horizon).map(step)`: what `Frontier.Next` computes. |
| WalkerModel.Traversal.Take | core/src/main/java/com/google/mu/util/stream/Walker.java:233-237 | Consuming `n` pulls collects the non-null nodes `Frontier.Run` yields and leaves its final state. |
| WalkerModel.Traversal.Drain | core/src/main/java/com/google/mu/util/stream/Walker.java:233-237 | Consuming the stream to its end, when `k` pulls reach that end, yields what those pulls yield and leaves the horizon empty. |

## Left out

- The `Stream` machinery is not modelled: `whileNotEmpty`, laziness, spliterators, short-circuiting and parallel streams. A stream is its `Traversal`; consuming it is `Pull`, `Take` or `Drain`. The `order` field stands for the pipeline each entry point builds.
- Streams are always finite sequences. The source allows infinite graphs and infinite successor streams.
- Concurrency is not modelled, including walkers whose tracker is a concurrent set shared by threads.
- A custom tracker is a pure predicate. A custom tracker with side effects other than the graph preset's set is not modelled.
- Null elements inside a successor stream, and the exceptions they raise, are not modelled, because nodes are integers. A null varargs root is modelled as a failed `Result`.
- The `Iterable` overloads and the varargs overloads share one method per order. `Walker.From` covers the varargs case through `NonNullList`.
- WalkerModel.Traversal.RemoveFromBottom: requires that the descent ends: the graph walker's tracker, or an acyclic graph (a rank that drops along every edge). The source loops forever in post-order when a tree walker meets a cycle. A custom predicate that cuts every cycle also makes the descent end, but that case is not covered. For example, on 0 → [1], 1 → [0] with a predicate rejecting 1, `postOrderFrom(0)` yields [0] in the source; the model does not state it.
- WalkerModel.Walker.Walk: stated only for trackers without state on acyclic graphs. A tree walker on a cyclic graph need not end.
- WalkerModel.Walker.WalkGraph: does not compare the graph walker's output against a reference order. It states termination, no duplicates, disjointness from earlier visits and closure under successors. The cooperative raid of one graph by two interleaved streams is stated for duplicates only (`GraphMode.InterleavedSessionsOnce`), not for joint coverage.
- Post-order's stack is a field of `Traversal`. In the source it is a local captured by the stream.
