/**
  The breadth-first search engine: from a start configuration it expands
  configurations in first-in first-out order, trying the six moves on each,
  skips configurations whose key is already explored or queued, and on the
  first solved configuration it takes off the queue walks the parent indices
  back to the root to recover the moves and the configurations after each.
 */
module Solver {
  import opened Wrappers
  import opened CubeState
  import opened Frontier

  /** The result of a search: the moves from the start to a solved
      configuration with the configuration after each move, or the report
      that the frontier ran empty. */
  datatype Outcome = Solution(actions: seq<Move>, cells: seq<Cube>) | NoSolution

  /** The configuration reached from `s` by applying `ms` in order. */
  function Run(s: Cube, ms: seq<Move>): Cube
    decreases |ms|
  {
    if ms == [] then s else Turn(Run(s, ms[..|ms| - 1]), ms[|ms| - 1])
  }

  lemma RunSnoc(s: Cube, ms: seq<Move>, m: Move)
    ensures Run(s, ms + [m]) == Turn(Run(s, ms), m)
  {
    assert (ms + [m])[..|ms|] == ms;
  }

  function Reverse<T>(s: seq<T>): (r: seq<T>)
    ensures |r| == |s| && forall i :: 0 <= i < |s| ==> r[i] == s[|s| - 1 - i]
  {
    seq(|s|, i requires 0 <= i < |s| => s[|s| - 1 - i])
  }

  lemma ReverseSnoc<T>(s: seq<T>, x: T)
    ensures Reverse(s + [x]) == [x] + Reverse(s)
  {
  }

  // ---------------------------------------------------------------------------
  // The arena of expanded nodes and the paths it records
  // ---------------------------------------------------------------------------

  /** A node is the root (the start configuration, no move) or the result of
      its move applied to the configuration of a node in the arena. */
  ghost predicate ValidNode(tree: seq<Node>, start: Cube, n: Node)
  {
    match n.parent
    case None => n.action == None && n.state == start
    case Some(p) => p < |tree| && n.action.Some? && n.state == Turn(tree[p].state, n.action.value)
  }

  /** Node `i` of the arena is valid and points to an earlier one. */
  ghost predicate Linked(tree: seq<Node>, start: Cube, i: nat)
    requires i < |tree|
  {
    ValidNode(tree, start, tree[i]) && (tree[i].parent.Some? ==> tree[i].parent.value < i)
  }

  /** Every node of the arena is valid and points to an earlier one. */
  ghost predicate ValidTree(tree: seq<Node>, start: Cube)
  {
    forall i :: 0 <= i < |tree| ==> Linked(tree, start, i)
  }

  function Rank(n: Node): nat
  {
    match n.parent
    case None => 0
    case Some(p) => p + 1
  }

  /** The moves on the parent walk from the root to `n`, in start-to-node
      order; the walk stops at a parent index that does not lead back toward
      the root, which never happens in a valid arena. */
  ghost function PathTo(tree: seq<Node>, n: Node): seq<Move>
    decreases Rank(n)
  {
    match n.parent
    case None => []
    case Some(p) =>
      if p < |tree| && Rank(tree[p]) < Rank(n) && n.action.Some? then PathTo(tree, tree[p]) + [n.action.value] else []
  }

  /** Replaying a node's path from the start gives the node's configuration. */
  lemma {:induction false} PathReplays(tree: seq<Node>, start: Cube, n: Node)
    requires ValidTree(tree, start) && ValidNode(tree, start, n)
    ensures Run(start, PathTo(tree, n)) == n.state
    decreases Rank(n)
  {
    match n.parent
    case None =>
    case Some(p) =>
      assert Linked(tree, start, p);
      PathReplays(tree, start, tree[p]);
      RunSnoc(start, PathTo(tree, tree[p]), n.action.value);
  }

  /** Appending a valid node keeps the arena valid and every path unchanged. */
  lemma {:induction false} PathExtend(tree: seq<Node>, start: Cube, x: Node, n: Node)
    requires ValidTree(tree, start) && ValidNode(tree, start, x) && ValidNode(tree, start, n)
    ensures ValidTree(tree + [x], start) && ValidNode(tree + [x], start, n)
    ensures PathTo(tree + [x], n) == PathTo(tree, n)
    decreases Rank(n)
  {
    var t := tree + [x];
    forall i | 0 <= i < |t| ensures Linked(t, start, i) {
      if i < |tree| {
        assert Linked(tree, start, i);
        assert t[i] == tree[i];
        if tree[i].parent.Some? {
          assert t[tree[i].parent.value] == tree[tree[i].parent.value];
        }
      } else {
        assert t[i] == x;
        if x.parent.Some? {
          assert t[x.parent.value] == tree[x.parent.value];
        }
      }
    }
    if n.parent.Some? {
      assert t[n.parent.value] == tree[n.parent.value];
    }
    match n.parent
    case None =>
    case Some(p) =>
      assert Linked(tree, start, p);
      PathExtend(tree, start, x, tree[p]);
  }

  /** One step of the walk back to the root: the parent of `current` is valid,
      its path is one move shorter, and the collected moves, reversed, are the
      suffix of `path` after it. */
  lemma {:induction false} StepBack(tree: seq<Node>, start: Cube, current: Node, path: seq<Move>, actions: seq<Move>)
    requires ValidTree(tree, start) && ValidNode(tree, start, current) && current.parent.Some?
    requires |actions| <= |path|
    requires PathTo(tree, current) == path[..|path| - |actions|]
    requires Reverse(actions) == path[|path| - |actions|..]
    ensures |actions| < |path|
    ensures ValidNode(tree, start, tree[current.parent.value])
    ensures Rank(tree[current.parent.value]) < Rank(current)
    ensures PathTo(tree, tree[current.parent.value]) == path[..|path| - |actions| - 1]
    ensures Reverse(actions + [current.action.value]) == path[|path| - |actions| - 1..]
    ensures Run(start, path[..|path| - |actions|]) == current.state
  {
    var p, n, k := current.parent.value, |path|, |actions|;
    assert Linked(tree, start, p);
    PathReplays(tree, start, current);
    var prefix := PathTo(tree, tree[p]);
    assert path[..n - k] == prefix + [current.action.value];
    assert path[..n - k - 1] == prefix by {
      assert path[..n - k - 1] == path[..n - k][..n - k - 1];
    }
    assert path[n - k - 1..] == [current.action.value] + path[n - k..];
    ReverseSnoc(actions, current.action.value);
  }

  /** Walks the parent indices from `node` back to the root, collecting moves
      and configurations, then reverses both into start-to-node order. */
  method Reconstruct(ghost start: Cube, tree: seq<Node>, node: Node) returns (actions: seq<Move>, cells: seq<Cube>)
    requires ValidTree(tree, start) && ValidNode(tree, start, node)
    ensures actions == PathTo(tree, node)
    ensures |cells| == |actions|
    ensures forall i :: 0 <= i < |actions| ==> cells[i] == Run(start, actions[..i + 1])
  {
    ghost var path := PathTo(tree, node);
    ghost var n := |path|;
    actions, cells := [], [];
    var current := node;
    while current.parent.Some?
      invariant ValidNode(tree, start, current)
      invariant |cells| == |actions| <= n
      invariant PathTo(tree, current) == path[..n - |actions|]
      invariant Reverse(actions) == path[n - |actions|..]
      invariant forall j :: 0 <= j < |cells| ==> cells[j] == Run(start, path[..n - j])
      decreases Rank(current)
    {
      var p := current.parent.value;
      StepBack(tree, start, current, path, actions);
      actions := actions + [current.action.value];
      cells := cells + [current.state];
      current := tree[p];
    }
    assert |actions| == n;
    actions := Reverse(actions);
    cells := Reverse(cells);
  }

  // ---------------------------------------------------------------------------
  // The search invariants
  // ---------------------------------------------------------------------------

  /** The key set of the frontier is exactly the keys of the queued nodes. */
  ghost predicate KeysMatch(queue: seq<Node>, serials: set<Key>)
  {
    serials == set i | 0 <= i < |queue| :: Serialize(queue[i].state)
  }

  /** No configuration is queued twice. */
  ghost predicate Distinct(queue: seq<Node>)
  {
    forall i, j :: 0 <= i < j < |queue| ==> queue[i].state != queue[j].state
  }

  /** The key bookkeeping of the search: the frontier's key set matches the
      queue, the queue holds no configuration twice, and nothing queued is explored. */
  ghost predicate Bookkeeping(queue: seq<Node>, serials: set<Key>, explored: set<Key>)
  {
    KeysMatch(queue, serials) && Distinct(queue) && serials !! explored
  }

  /** Every node created so far is in the arena of expanded nodes or in the
      queue: the explored keys are exactly those of the arena, and no
      configuration occurs twice among all the nodes, so a configuration
      is queued at most once in the whole search. */
  ghost predicate History(tree: seq<Node>, queue: seq<Node>, explored: set<Key>)
  {
    explored == ArenaKeys(tree) && Distinct(tree + queue)
  }

  /** The keys of the expanded nodes. */
  ghost function ArenaKeys(tree: seq<Node>): set<Key>
  {
    set i | 0 <= i < |tree| :: Serialize(tree[i].state)
  }

  /** Depths along the queue never decrease and differ by at most one. */
  ghost predicate Fifo(depth: seq<nat>)
  {
    && (forall i, j :: 0 <= i <= j < |depth| ==> depth[i] <= depth[j])
    && (|depth| > 0 ==> depth[|depth| - 1] <= depth[0] + 1)
  }

  /** Every queued node is valid for the arena and `depth` records the length of its path. */
  ghost predicate Arena(start: Cube, tree: seq<Node>, queue: seq<Node>, depth: seq<nat>)
  {
    && ValidTree(tree, start)
    && |depth| == |queue|
    && forall i :: 0 <= i < |queue| ==>
         ValidNode(tree, start, queue[i]) && depth[i] == |PathTo(tree, queue[i])|
  }

  /** The configuration's key is in `keys`. */
  ghost predicate Known(s: Cube, keys: set<Key>)
  {
    Serialize(s) in keys
  }

  /** The start is explored or queued, no explored configuration is solved,
      and every move from an explored configuration leads to one explored or queued. */
  ghost predicate Closed(start: Cube, serials: set<Key>, explored: set<Key>)
  {
    && (Known(start, explored) || Known(start, serials))
    && (forall e: Cube :: Known(e, explored) ==> !Solved(e))
    && (forall e: Cube, m: Move :: Known(e, explored) ==>
          Known(Turn(e, m), explored) || Known(Turn(e, m), serials))
  }

  /** With `d` the depth of the front node: everything reachable in fewer than
      `d` moves is explored, and everything reachable in exactly `d` moves is
      explored or queued at depth `d`. */
  ghost predicate Levels(start: Cube, queue: seq<Node>, depth: seq<nat>, explored: set<Key>)
    requires |depth| == |queue|
  {
    |queue| > 0 ==>
      && (forall ms: seq<Move> {:trigger Run(start, ms)} :: |ms| < depth[0] ==> Known(Run(start, ms), explored))
      && (forall ms: seq<Move> {:trigger Run(start, ms)} :: |ms| == depth[0] ==>
            Known(Run(start, ms), explored)
            || exists i :: 0 <= i < |queue| && depth[i] == depth[0] && queue[i].state == Run(start, ms))
  }

  // ---------------------------------------------------------------------------
  // Termination: every queued key lies in a finite set closed under the moves
  // ---------------------------------------------------------------------------

  /** The colours occurring in a configuration. */
  ghost function Palette(s: Cube): set<Color>
  {
    set x | x in Cells(s)
  }

  ghost function Grids(C: set<Color>): set<Grid>
  {
    set a, b, c, d | a in C && b in C && c in C && d in C :: Grid(Row(a, b), Row(c, d))
  }

  ghost function Cubes(C: set<Color>): set<Cube>
  {
    set f, t, l, r, b, k | f in Grids(C) && t in Grids(C) && l in Grids(C)
      && r in Grids(C) && b in Grids(C) && k in Grids(C) :: Cube(f, t, l, r, b, k)
  }

  /** The keys of all configurations painted with the start's colours: a
      finite set that bounds the explored set. */
  ghost function KeySpace(start: Cube): set<Key>
  {
    set c | c in Cubes(Palette(start)) :: Serialize(c)
  }

  lemma InGrids(g: Grid, C: set<Color>)
    requires forall x :: x in Flat(g) ==> x in C
    ensures g in Grids(C)
  {
    assert g.r0.c0 == Flat(g)[0] && g.r0.c1 == Flat(g)[1] && g.r1.c0 == Flat(g)[2] && g.r1.c1 == Flat(g)[3];
    assert g == Grid(Row(g.r0.c0, g.r0.c1), Row(g.r1.c0, g.r1.c1));
  }

  /** A configuration whose cells are all drawn from `C` is one of `Cubes(C)`. */
  lemma {:induction false} InCubes(s: Cube, C: set<Color>)
    requires forall x :: x in Cells(s) ==> x in C
    ensures s in Cubes(C)
  {
    InGrids(s.front, C); InGrids(s.top, C); InGrids(s.left, C);
    InGrids(s.right, C); InGrids(s.bottom, C); InGrids(s.back, C);
    assert s == Cube(s.front, s.top, s.left, s.right, s.bottom, s.back);
  }

  /** Every cell of a configuration in `Cubes(C)` is drawn from `C`. */
  lemma {:induction false} CubeColours(s: Cube, C: set<Color>)
    requires s in Cubes(C)
    ensures forall x :: x in Cells(s) ==> x in C
  {
    var f, t, l, r, b, k :| f in Grids(C) && t in Grids(C) && l in Grids(C)
      && r in Grids(C) && b in Grids(C) && k in Grids(C) && s == Cube(f, t, l, r, b, k);
    forall x | x in Cells(s) ensures x in C {
      assert x in Flat(f) || x in Flat(t) || x in Flat(l) || x in Flat(r) || x in Flat(b) || x in Flat(k);
    }
  }

  /** A finite set of keys holding the start's key and closed under every
      move: no search from the start leaves it. */
  lemma {:induction false} KeySpaceBound(start: Cube) returns (space: set<Key>)
    ensures Known(start, space)
    ensures forall s: Cube, m: Move :: Known(s, space) ==> Known(Turn(s, m), space)
  {
    space := KeySpace(start);
    var C := Palette(start);
    InCubes(start, C);
    forall s: Cube, m: Move | Known(s, space) ensures Known(Turn(s, m), space) {
      var c :| c in Cubes(C) && Serialize(c) == Serialize(s);
      SerializeInjective(c, s);
      CubeColours(s, C);
      TurnKeepsColours(s, m);
      forall x | x in Cells(Turn(s, m)) ensures x in C {
        assert x in multiset(Cells(Turn(s, m)));
      }
      InCubes(Turn(s, m), C);
    }
  }

  // ---------------------------------------------------------------------------
  // Lemmas for the steps of the search
  // ---------------------------------------------------------------------------

  /** Taking the front node off the queue and its key out of the key set, and
      putting that key into the explored set, keeps the bookkeeping; in
      particular the key being removed is present. */
  lemma {:induction false} DequeueKeys(queue: seq<Node>, serials: set<Key>, explored: set<Key>)
    requires Bookkeeping(queue, serials, explored) && |queue| > 0
    ensures Serialize(queue[0].state) in serials
    ensures Bookkeeping(queue[1..], serials - {Serialize(queue[0].state)}, explored + {Serialize(queue[0].state)})
  {
    var key := Serialize(queue[0].state);
    var rest := queue[1..];
    forall k ensures k in serials - {key} <==> exists i :: 0 <= i < |rest| && k == Serialize(rest[i].state) {
      if k in serials - {key} {
        var i :| 0 <= i < |queue| && k == Serialize(queue[i].state);
        assert i != 0;
        assert rest[i - 1] == queue[i];
      }
      if exists i :: 0 <= i < |rest| && k == Serialize(rest[i].state) {
        var i :| 0 <= i < |rest| && k == Serialize(rest[i].state);
        assert rest[i] == queue[i + 1];
        SerializeInjective(queue[0].state, rest[i].state);
      }
    }
  }

  /** A queue holding one node has just that node's key. */
  lemma KeysOfOne(n: Node)
    ensures Bookkeeping([n], {Serialize(n.state)}, {})
  {
    assert [n][0] == n;
  }

  /** Queuing a node whose key is neither explored nor queued keeps the bookkeeping. */
  lemma {:induction false} EnqueueKeys(queue: seq<Node>, serials: set<Key>, explored: set<Key>, child: Node)
    requires Bookkeeping(queue, serials, explored)
    requires Serialize(child.state) !in serials && Serialize(child.state) !in explored
    ensures Bookkeeping(queue + [child], serials + {Serialize(child.state)}, explored)
  {
    var q := queue + [child];
    forall k ensures k in serials + {Serialize(child.state)} <==> exists i :: 0 <= i < |q| && k == Serialize(q[i].state) {
      if k in serials {
        var i :| 0 <= i < |queue| && k == Serialize(queue[i].state);
        assert q[i] == queue[i];
      }
      if k == Serialize(child.state) {
        assert q[|queue|] == child;
      }
      if exists i :: 0 <= i < |q| && k == Serialize(q[i].state) {
        var i :| 0 <= i < |q| && k == Serialize(q[i].state);
        if i < |queue| { assert q[i] == queue[i]; }
      }
    }
    forall i, j | 0 <= i < j < |q| ensures q[i].state != q[j].state {
      if j == |queue| {
        assert q[i] == queue[i];
        assert Serialize(queue[i].state) in serials;
      }
    }
  }

  /** Every configuration reachable from the start is explored once the
      frontier is empty. */
  lemma {:induction false} ReachExplored(start: Cube, explored: set<Key>, ms: seq<Move>)
    requires Closed(start, {}, explored)
    ensures Known(Run(start, ms), explored)
    decreases |ms|
  {
    if ms != [] {
      ReachExplored(start, explored, ms[..|ms| - 1]);
    }
  }

  /** An empty frontier means that no sequence of moves solves the start. */
  lemma {:induction false} Exhausted(start: Cube, explored: set<Key>)
    requires Closed(start, {}, explored)
    ensures forall ms: seq<Move> :: !Solved(Run(start, ms))
  {
    forall ms: seq<Move> ensures !Solved(Run(start, ms)) {
      ReachExplored(start, explored, ms);
    }
  }

  /** Nothing reachable in fewer moves than the front node's depth is solved. */
  lemma {:induction false} NoShorter(start: Cube, queue: seq<Node>, depth: seq<nat>, serials: set<Key>, explored: set<Key>)
    requires |queue| > 0 && |depth| == |queue|
    requires Levels(start, queue, depth, explored) && Closed(start, serials, explored)
    ensures forall ms: seq<Move> {:trigger Run(start, ms)} :: |ms| < depth[0] ==> !Solved(Run(start, ms))
  {
  }

  /** The depths stay in first-in first-out order when the front is taken off
      and children one level deeper are appended. */
  lemma {:induction false} FifoAfterExpand(depth: seq<nat>, depth': seq<nat>)
    requires Fifo(depth) && |depth| > 0
    requires |depth'| >= |depth| - 1 && depth'[..|depth| - 1] == depth[1..]
    requires forall i :: |depth| - 1 <= i < |depth'| ==> depth'[i] == depth[0] + 1
    ensures Fifo(depth')
  {
    forall i | 0 <= i < |depth| - 1 ensures depth'[i] == depth[i + 1] && depth[0] <= depth'[i] <= depth[0] + 1 {
      assert depth'[..|depth| - 1][i] == depth[1..][i];
    }
  }

  /** After expanding the front node `queue[0]`, appending it to the arena and
      queuing its children, every queued node is valid and its depth is its path length. */
  lemma {:induction false} ArenaAfterExpand(start: Cube, tree: seq<Node>, queue: seq<Node>, depth: seq<nat>,
                                            queue': seq<Node>, depth': seq<nat>)
    requires Arena(start, tree, queue, depth) && |queue| > 0
    requires |queue'| >= |queue| - 1 && |depth'| == |queue'|
    requires queue'[..|queue| - 1] == queue[1..] && depth'[..|queue| - 1] == depth[1..]
    requires forall i :: |queue| - 1 <= i < |queue'| ==>
      depth'[i] == depth[0] + 1 && queue'[i].parent == Some(|tree|) && queue'[i].action.Some?
      && queue'[i].state == Turn(queue[0].state, queue'[i].action.value)
    ensures Arena(start, tree + [queue[0]], queue', depth')
  {
    var x := queue[0];
    var t := tree + [x];
    PathExtend(tree, start, x, x);
    forall i | 0 <= i < |queue'|
      ensures ValidNode(t, start, queue'[i]) && depth'[i] == |PathTo(t, queue'[i])|
    {
      if i < |queue| - 1 {
        assert queue'[..|queue| - 1][i] == queue[1..][i];
        assert depth'[..|queue| - 1][i] == depth[1..][i];
        PathExtend(tree, start, x, queue'[i]);
      } else {
        assert t[|tree|] == x;
        assert PathTo(t, queue'[i]) == PathTo(t, x) + [queue'[i].action.value];
      }
    }
  }

  /** After the expansion of `queue[0]`, what was explored or queued is still
      explored or queued. */
  lemma {:induction false} KnownStaysKnown(queue: seq<Node>, serials: set<Key>, explored: set<Key>,
                                           queue': seq<Node>, serials': set<Key>, explored': set<Key>)
    requires |queue| > 0 && KeysMatch(queue, serials) && KeysMatch(queue', serials')
    requires explored' == explored + {Serialize(queue[0].state)}
    requires |queue'| >= |queue| - 1 && queue'[..|queue| - 1] == queue[1..]
    ensures forall k :: k in explored || k in serials ==> k in explored' || k in serials'
  {
    forall k | k in serials ensures k in explored' || k in serials' {
      var i :| 0 <= i < |queue| && k == Serialize(queue[i].state);
      if i > 0 {
        assert queue'[..|queue| - 1][i - 1] == queue[1..][i - 1];
      }
    }
  }

  /** The expansion of the unsolved front node keeps `Closed`. */
  lemma {:induction false} ClosedAfterExpand(start: Cube, queue: seq<Node>, serials: set<Key>, explored: set<Key>,
                                             queue': seq<Node>, serials': set<Key>, explored': set<Key>)
    requires |queue| > 0 && Closed(start, serials, explored)
    requires KeysMatch(queue, serials) && KeysMatch(queue', serials')
    requires !Solved(queue[0].state)
    requires explored' == explored + {Serialize(queue[0].state)}
    requires |queue'| >= |queue| - 1 && queue'[..|queue| - 1] == queue[1..]
    requires forall m: Move :: Known(Turn(queue[0].state, m), explored') || Known(Turn(queue[0].state, m), serials')
    ensures Closed(start, serials', explored')
  {
    var x := queue[0].state;
    KnownStaysKnown(queue, serials, explored, queue', serials', explored');
    forall e: Cube | Known(e, explored') ensures !Solved(e) {
      SerializeInjective(e, x);
    }
    forall e: Cube, m: Move | Known(e, explored')
      ensures Known(Turn(e, m), explored') || Known(Turn(e, m), serials')
    {
      SerializeInjective(e, x);
    }
  }

  /** A configuration explored or queued after the expansion is explored, or
      queued at some index; keys identify configurations. */
  lemma {:induction false} KnownAt(queue': seq<Node>, serials': set<Key>, explored': set<Key>, z: Cube)
    requires KeysMatch(queue', serials')
    requires Known(z, explored') || Known(z, serials')
    ensures Known(z, explored') || exists i :: 0 <= i < |queue'| && queue'[i].state == z
  {
    if Serialize(z) !in explored' {
      var i :| 0 <= i < |queue'| && Serialize(z) == Serialize(queue'[i].state);
      SerializeInjective(z, queue'[i].state);
    }
  }

  /** While the front level is not used up, the front node's successor in the
      queue is on the same level and `Levels` carries over. */
  lemma {:induction false} SameLevel(start: Cube, queue: seq<Node>, depth: seq<nat>, explored: set<Key>,
                                     queue': seq<Node>, depth': seq<nat>, explored': set<Key>)
    requires |queue| > 1 && |depth| == |queue| && |depth'| == |queue'| >= |queue| - 1
    requires Levels(start, queue, depth, explored)
    requires explored <= explored' && Serialize(queue[0].state) in explored'
    requires forall i :: 1 <= i < |queue| ==> queue'[i - 1] == queue[i] && depth'[i - 1] == depth[i]
    requires depth[1] == depth[0]
    ensures Levels(start, queue', depth', explored')
  {
    var d := depth[0];
    forall ms: seq<Move> | |ms| == d
      ensures Known(Run(start, ms), explored')
              || exists i :: 0 <= i < |queue'| && depth'[i] == depth'[0] && queue'[i].state == Run(start, ms)
    {
      if !Known(Run(start, ms), explored) {
        var i :| 0 <= i < |queue| && depth[i] == d && queue[i].state == Run(start, ms);
        if i > 0 {
          assert queue'[i - 1].state == Run(start, ms) && depth'[i - 1] == d;
        }
      }
    }
  }

  /** Once the front node is the last of its level, everything reachable in
      at most that many moves is explored after its expansion. */
  lemma {:induction false} LevelDone(start: Cube, queue: seq<Node>, depth: seq<nat>, explored: set<Key>, explored': set<Key>)
    requires |queue| > 0 && |depth| == |queue|
    requires Levels(start, queue, depth, explored)
    requires explored <= explored' && Serialize(queue[0].state) in explored'
    requires forall i :: 1 <= i < |queue| ==> depth[i] != depth[0]
    ensures forall ms: seq<Move> {:trigger Run(start, ms)} :: |ms| <= depth[0] ==> Known(Run(start, ms), explored')
  {
    forall ms: seq<Move> | |ms| <= depth[0] ensures Known(Run(start, ms), explored') {
      if |ms| == depth[0] && !Known(Run(start, ms), explored) {
        var i :| 0 <= i < |queue| && depth[i] == depth[0] && queue[i].state == Run(start, ms);
        assert i == 0;
      }
    }
  }

  /** When the queue holds only the next level, whose predecessors are all
      explored, `Levels` holds at that level. */
  lemma {:induction false} NextLevel(start: Cube, d: nat, queue': seq<Node>, depth': seq<nat>, serials': set<Key>, explored': set<Key>)
    requires |queue'| > 0 && |depth'| == |queue'|
    requires forall i :: 0 <= i < |depth'| ==> depth'[i] == d + 1
    requires forall ms: seq<Move> {:trigger Run(start, ms)} :: |ms| <= d ==> Known(Run(start, ms), explored')
    requires KeysMatch(queue', serials') && Closed(start, serials', explored')
    ensures Levels(start, queue', depth', explored')
  {
    forall ms: seq<Move> | |ms| == d + 1
      ensures Known(Run(start, ms), explored')
              || exists i :: 0 <= i < |queue'| && depth'[i] == depth'[0] && queue'[i].state == Run(start, ms)
    {
      var pre, m := ms[..d], ms[d];
      assert ms == pre + [m];
      RunSnoc(start, pre, m);
      var y := Run(start, pre);
      assert Known(y, explored');
      assert Known(Turn(y, m), explored') || Known(Turn(y, m), serials');
      KnownAt(queue', serials', explored', Turn(y, m));
    }
  }

  /** The expansion of the unsolved front node keeps `Levels`. */
  lemma {:induction false} LevelsAfterExpand(start: Cube, queue: seq<Node>, depth: seq<nat>, explored: set<Key>,
                                             queue': seq<Node>, depth': seq<nat>, serials': set<Key>, explored': set<Key>)
    requires |queue| > 0 && |depth| == |queue| && Fifo(depth)
    requires Levels(start, queue, depth, explored)
    requires KeysMatch(queue', serials') && Closed(start, serials', explored')
    requires explored' == explored + {Serialize(queue[0].state)}
    requires |queue'| >= |queue| - 1 && |depth'| == |queue'|
    requires queue'[..|queue| - 1] == queue[1..] && depth'[..|queue| - 1] == depth[1..]
    requires forall i :: |queue| - 1 <= i < |depth'| ==> depth'[i] == depth[0] + 1
    ensures Levels(start, queue', depth', explored')
  {
    forall i | 1 <= i < |queue| ensures queue'[i - 1] == queue[i] && depth'[i - 1] == depth[i] {
      assert queue'[..|queue| - 1][i - 1] == queue[1..][i - 1];
      assert depth'[..|queue| - 1][i - 1] == depth[1..][i - 1];
    }
    if |queue'| > 0 {
      if |queue| > 1 && depth[1] == depth[0] {
        SameLevel(start, queue, depth, explored, queue', depth', explored');
      } else {
        LevelDone(start, queue, depth, explored, explored');
        NextLevel(start, depth[0], queue', depth', serials', explored');
      }
    }
  }

  /** The depths after the expansion: the front entry taken off and `n`
      entries one deeper than it appended. */
  ghost function NextDepths(depth: seq<nat>, n: nat): (d: seq<nat>)
    requires |depth| > 0
    ensures |d| == |depth| - 1 + n && d[..|depth| - 1] == depth[1..]
    ensures forall i :: |depth| - 1 <= i < |d| ==> d[i] == depth[0] + 1
  {
    depth[1..] + seq(n, _ => depth[0] + 1)
  }

  /** Expanding the unsolved front node keeps every search invariant. */
  lemma {:induction false} AfterExpand(start: Cube, tree: seq<Node>, queue: seq<Node>, depth: seq<nat>,
                                       explored: set<Key>, serials: set<Key>, space: set<Key>,
                                       queue': seq<Node>, depth': seq<nat>, explored': set<Key>, serials': set<Key>)
    requires |queue| > 0 && Bookkeeping(queue, serials, explored)
    requires Arena(start, tree, queue, depth) && Fifo(depth)
    requires Closed(start, serials, explored) && Levels(start, queue, depth, explored)
    requires forall i :: 0 <= i < |queue| ==> Known(queue[i].state, space)
    requires forall s: Cube, m: Move :: Known(s, space) ==> Known(Turn(s, m), space)
    requires !Solved(queue[0].state)
    requires explored' == explored + {Serialize(queue[0].state)} && Bookkeeping(queue', serials', explored')
    requires History(tree, queue, explored)
    requires Appended(queue[1..], queue', |tree|, queue[0].state)
    requires depth' == NextDepths(depth, |queue'| - (|queue| - 1))
    requires forall m: Move :: Known(Turn(queue[0].state, m), explored') || Known(Turn(queue[0].state, m), serials')
    ensures Arena(start, tree + [queue[0]], queue', depth') && Fifo(depth')
    ensures Closed(start, serials', explored') && Levels(start, queue', depth', explored')
    ensures forall i :: 0 <= i < |queue'| ==> Known(queue'[i].state, space)
    ensures History(tree + [queue[0]], queue', explored')
  {
    HistoryAfterExpand(tree, queue, explored, queue', serials', explored');
    FifoAfterExpand(depth, depth');
    ArenaAfterExpand(start, tree, queue, depth, queue', depth');
    ClosedAfterExpand(start, queue, serials, explored, queue', serials', explored');
    LevelsAfterExpand(start, queue, depth, explored, queue', depth', serials', explored');
    forall i | 0 <= i < |queue'| ensures Known(queue'[i].state, space) {
      if i < |queue| - 1 {
        assert queue'[..|queue| - 1][i] == queue[1..][i];
      }
    }
  }

  /** Expanding the front node keeps the history: it moves from the queue to
      the arena, its key becomes explored, and the children queued are new
      configurations, none created before. */
  lemma {:induction false} HistoryAfterExpand(tree: seq<Node>, queue: seq<Node>, explored: set<Key>,
                                              queue': seq<Node>, serials': set<Key>, explored': set<Key>)
    requires |queue| > 0 && History(tree, queue, explored)
    requires explored' == explored + {Serialize(queue[0].state)}
    requires Bookkeeping(queue', serials', explored')
    ensures History(tree + [queue[0]], queue', explored')
  {
    var tree' := tree + [queue[0]];
    assert tree + queue == tree' + queue[1..];
    forall i | 0 <= i < |tree'| ensures tree'[i] == (tree + queue)[i] { }
    var keys := set i | 0 <= i < |tree'| :: Serialize(tree'[i].state);
    assert keys == explored' by {
      assert Serialize(tree'[|tree|].state) == Serialize(queue[0].state);
      forall k | k in explored' ensures k in keys {
        if k in explored {
          var i :| 0 <= i < |tree| && k == Serialize(tree[i].state);
          assert tree'[i] == tree[i];
        }
      }
      forall k | k in keys ensures k in explored' {
        var i :| 0 <= i < |tree'| && k == Serialize(tree'[i].state);
        if i < |tree| {
          assert tree'[i] == tree[i];
        }
      }
    }
    var all := tree' + queue';
    forall i, j | 0 <= i < j < |all| ensures all[i].state != all[j].state {
      if j < |tree'| {
        assert all[i] == (tree + queue)[i] && all[j] == (tree + queue)[j];
      } else if i >= |tree'| {
        assert all[i] == queue'[i - |tree'|] && all[j] == queue'[j - |tree'|];
      } else {
        assert all[i] == tree'[i] && all[j] == queue'[j - |tree'|];
        assert Serialize(all[i].state) in explored';
        assert Serialize(all[j].state) in serials';
      }
    }
  }

  /** An empty frontier: no sequence of moves, the empty one included, solves the start. */
  lemma {:induction false} FrontierRanOut(start: Cube, serials: set<Key>, explored: set<Key>)
    requires KeysMatch([], serials) && Closed(start, serials, explored)
    ensures forall ms: seq<Move> :: !Solved(Run(start, ms))
    ensures !Solved(start)
  {
    assert serials == {};
    Exhausted(start, explored);
    assert Run(start, []) == start;
  }

  /** The front node's path replays to its configuration and nothing shorter
      reaches a solved configuration; in particular a non-empty path means
      the start itself is not solved. */
  lemma {:induction false} FrontIsShortest(start: Cube, tree: seq<Node>, queue: seq<Node>, depth: seq<nat>,
                                           serials: set<Key>, explored: set<Key>)
    requires |queue| > 0 && Arena(start, tree, queue, depth)
    requires Levels(start, queue, depth, explored) && Closed(start, serials, explored)
    ensures Run(start, PathTo(tree, queue[0])) == queue[0].state
    ensures forall ms: seq<Move> {:trigger Run(start, ms)} :: |ms| < |PathTo(tree, queue[0])| ==> !Solved(Run(start, ms))
    ensures |PathTo(tree, queue[0])| > 0 ==> !Solved(start)
  {
    PathReplays(tree, start, queue[0]);
    NoShorter(start, queue, depth, serials, explored);
    assert Run(start, []) == start;
  }

  /** The search starts with the start configuration queued alone, at depth 0,
      with an empty arena and nothing explored. */
  lemma Initially(start: Cube, space: set<Key>)
    requires Known(start, space)
    ensures Bookkeeping([Node(start, None, None)], {Serialize(start)}, {})
    ensures Arena(start, [], [Node(start, None, None)], [0]) && Fifo([0])
    ensures Closed(start, {Serialize(start)}, {})
    ensures Levels(start, [Node(start, None, None)], [0], {})
    ensures forall i :: 0 <= i < |[Node(start, None, None)]| ==> Known([Node(start, None, None)][i].state, space)
    ensures History([], [Node(start, None, None)], {})
  {
    KeysOfOne(Node(start, None, None));
    assert forall ms: seq<Move> {:trigger Run(start, ms)} :: |ms| == 0 ==> Run(start, ms) == start;
  }

  /** Exploring one more key of the bounded key space leaves fewer unexplored. */
  lemma Shrinks(space: set<Key>, explored: set<Key>, key: Key)
    requires key in space && key !in explored
    ensures |space - (explored + {key})| < |space - explored|
  {
    assert space - (explored + {key}) == (space - explored) - {key};
  }

  // ---------------------------------------------------------------------------
  // The search
  // ---------------------------------------------------------------------------

  /** `after` is `before` with nodes appended, each the result of a move from
      configuration `x`, recorded with parent index `parent`. */
  ghost predicate Appended(before: seq<Node>, after: seq<Node>, parent: nat, x: Cube)
  {
    && |after| >= |before| && after[..|before|] == before
    && forall i :: |before| <= i < |after| ==>
         && after[i].parent == Some(parent) && after[i].action.Some?
         && after[i].state == Turn(x, after[i].action.value)
  }

  /** The configurations the six moves give from `x`, in the order of `Moves`. */
  ghost function Successors(x: Cube): (outs: seq<Cube>)
    ensures |outs| == |Moves|
    ensures forall k :: 0 <= k < |Moves| ==> outs[k] == Turn(x, Moves[k])
  {
    seq(|Moves|, k requires 0 <= k < |Moves| => Turn(x, Moves[k]))
  }

  /** The keys in `taken` together with those of the first `n` configurations
      of `outs`: what is explored or queued once the first `n` moves have been
      tried. */
  ghost function Seen(outs: seq<Cube>, taken: set<Key>, n: nat): set<Key>
    requires n <= |outs|
  {
    taken + set k | 0 <= k < n :: Serialize(outs[k])
  }

  /** The nodes queued when the first `n` moves of `Moves`, whose results are
      `outs`, are tried one after the other: a result is queued, with `parent`
      as its parent and its move as the action, when its key is not yet seen. */
  ghost function Children(outs: seq<Cube>, parent: nat, taken: set<Key>, n: nat): seq<Node>
    requires n <= |outs| <= |Moves|
  {
    if n == 0 then []
    else
      var front := Children(outs, parent, taken, n - 1);
      if Serialize(outs[n - 1]) in Seen(outs, taken, n - 1) then front
      else front + [Node(outs[n - 1], Some(parent), Some(Moves[n - 1]))]
  }

  /** Trying one more move adds exactly its result's key to what is seen. */
  lemma SeenStep(outs: seq<Cube>, taken: set<Key>, n: nat)
    requires n < |outs|
    ensures Seen(outs, taken, n + 1) == Seen(outs, taken, n) + {Serialize(outs[n])}
  {
    var a := set k | 0 <= k < n + 1 :: Serialize(outs[k]);
    var b := set k | 0 <= k < n :: Serialize(outs[k]);
    assert a == b + {Serialize(outs[n])};
  }

  /** Each node of `c` holds the result in `outs` of its own move, one of the
      first `n` of `Moves`, and is recorded with `parent`; the nodes follow the
      order of `Moves`. */
  ghost predicate InMoveOrder(c: seq<Node>, outs: seq<Cube>, parent: nat, n: nat)
    requires n <= |outs|
  {
    && (forall i :: 0 <= i < |c| ==>
          && c[i].parent == Some(parent) && c[i].action.Some?
          && MoveIndex(c[i].action.value) < n
          && c[i].state == outs[MoveIndex(c[i].action.value)])
    && (forall i, j :: 0 <= i < j < |c| ==> MoveIndex(c[i].action.value) < MoveIndex(c[j].action.value))
  }

  /** The queued children follow the order of `Moves`; each holds its own
      move's result and is recorded with `parent`. */
  lemma {:induction false} ChildrenInOrder(outs: seq<Cube>, parent: nat, taken: set<Key>, n: nat)
    requires n <= |outs| <= |Moves|
    ensures InMoveOrder(Children(outs, parent, taken, n), outs, parent, n)
  {
    if n > 0 {
      var c := Children(outs, parent, taken, n);
      var c' := Children(outs, parent, taken, n - 1);
      ChildrenInOrder(outs, parent, taken, n - 1);
      var m := Moves[n - 1];
      assert MoveIndex(m) == n - 1;
      if Serialize(outs[n - 1]) !in Seen(outs, taken, n - 1) {
        var child := Node(outs[n - 1], Some(parent), Some(m));
        assert c == c' + [child];
        assert forall i :: 0 <= i < |c'| ==> c[i] == c'[i];
        assert c[|c'|] == child;
      }
    }
  }

  /** Some node of `c` was reached by move `m`. */
  ghost predicate Queued(c: seq<Node>, m: Move)
  {
    exists i :: 0 <= i < |c| && c[i].action == Some(m)
  }

  /** Result `outs[k]` is the first of its configuration in `outs`, and its key
      is not in `taken`. */
  ghost predicate FirstFresh(outs: seq<Cube>, taken: set<Key>, k: nat)
    requires k < |outs|
  {
    Serialize(outs[k]) !in taken && forall j :: 0 <= j < k ==> outs[j] != outs[k]
  }

  /** The move just tried, `Moves[k]`, is queued exactly when its result is
      the first of its configuration and its key was not taken. */
  lemma LastChosen(outs: seq<Cube>, parent: nat, taken: set<Key>, k: nat)
    requires k < |outs| <= |Moves|
    ensures Queued(Children(outs, parent, taken, k + 1), Moves[k]) <==> FirstFresh(outs, taken, k)
  {
    var c := Children(outs, parent, taken, k + 1);
    var c' := Children(outs, parent, taken, k);
    ChildrenInOrder(outs, parent, taken, k);
    assert MoveIndex(Moves[k]) == k;
    assert forall i :: 0 <= i < |c'| ==> c'[i].action != Some(Moves[k]);
    var key := Serialize(outs[k]);
    if key !in Seen(outs, taken, k) {
      assert c == c' + [Node(outs[k], Some(parent), Some(Moves[k]))];
      assert c[|c'|].action == Some(Moves[k]);
      forall j | 0 <= j < k ensures outs[j] != outs[k] {
        assert Serialize(outs[j]) in Seen(outs, taken, k);
      }
    } else {
      assert c == c';
      if key !in taken {
        var j :| 0 <= j < k && key == Serialize(outs[j]);
        SerializeInjective(outs[j], outs[k]);
      }
    }
  }

  /** Move `Moves[k]` is queued exactly when its result's key was not taken
      before and no earlier move gives the same configuration: of two moves
      with the same result, the first one is recorded. Later moves leave that
      decision alone. */
  lemma {:induction false} ChildrenChosen(outs: seq<Cube>, parent: nat, taken: set<Key>, n: nat, k: nat)
    requires k < n <= |outs| <= |Moves|
    ensures Queued(Children(outs, parent, taken, n), Moves[k]) <==> FirstFresh(outs, taken, k)
  {
    if k == n - 1 {
      LastChosen(outs, parent, taken, k);
    } else {
      var c := Children(outs, parent, taken, n);
      var c' := Children(outs, parent, taken, n - 1);
      ChildrenChosen(outs, parent, taken, n - 1, k);
      assert Moves[n - 1] != Moves[k] by {
        assert MoveIndex(Moves[n - 1]) == n - 1 && MoveIndex(Moves[k]) == k;
      }
      assert c[..|c'|] == c';
      if i :| 0 <= i < |c| && c[i].action == Some(Moves[k]) {
        assert i < |c'| && c'[i] == c[i];
      }
      if i :| 0 <= i < |c'| && c'[i].action == Some(Moves[k]) {
        assert c[i] == c'[i];
      }
    }
  }

  /** `c` is what trying the moves of `Moves` in order queues, when `outs`
      are their results: the nodes follow `Moves` order, each holds its move's
      result and is recorded with `parent`, and a move is queued exactly when
      it is the first to reach a configuration whose key is not in `taken`. */
  ghost predicate QueuedInOrder(c: seq<Node>, outs: seq<Cube>, parent: nat, taken: set<Key>)
    requires |outs| == |Moves|
  {
    && InMoveOrder(c, outs, parent, |Moves|)
    && forall k :: 0 <= k < |Moves| ==> (Queued(c, Moves[k]) <==> FirstFresh(outs, taken, k))
  }

  /** The reference list of children meets that description. */
  lemma ChildrenQueuedInOrder(outs: seq<Cube>, parent: nat, taken: set<Key>)
    requires |outs| == |Moves|
    ensures QueuedInOrder(Children(outs, parent, taken, |Moves|), outs, parent, taken)
  {
    ChildrenInOrder(outs, parent, taken, |Moves|);
    forall k | 0 <= k < |Moves|
      ensures Queued(Children(outs, parent, taken, |Moves|), Moves[k]) <==> FirstFresh(outs, taken, k)
    {
      ChildrenChosen(outs, parent, taken, |Moves|, k);
    }
  }

  /** Without its last node, a list in `Moves` order is still in that order
      and holds the results of the other moves. */
  lemma DropLast(c: seq<Node>, outs: seq<Cube>, parent: nat, n: nat)
    requires n <= |outs| && |c| > 0
    requires InMoveOrder(c, outs, parent, n)
    ensures InMoveOrder(c[..|c| - 1], outs, parent, n)
    ensures forall m :: Queued(c[..|c| - 1], m) <==> Queued(c, m) && m != c[|c| - 1].action.value
  {
    var p := c[..|c| - 1];
    forall m ensures Queued(p, m) <==> Queued(c, m) && m != c[|c| - 1].action.value {
      if i :| 0 <= i < |p| && p[i].action == Some(m) {
        assert c[i] == p[i];
      }
      if i :| 0 <= i < |c| && c[i].action == Some(m) && m != c[|c| - 1].action.value {
        assert p[i] == c[i];
      }
    }
  }

  /** Two lists in `Moves` order that hold the results of the same moves are
      the same list. */
  lemma {:induction false} SameMovesSameList(c1: seq<Node>, c2: seq<Node>, outs: seq<Cube>, parent: nat, n: nat)
    requires n <= |outs|
    requires InMoveOrder(c1, outs, parent, n) && InMoveOrder(c2, outs, parent, n)
    requires forall m :: Queued(c1, m) <==> Queued(c2, m)
    ensures c1 == c2
    decreases |c1| + |c2|
  {
    if |c1| == 0 || |c2| == 0 {
      if |c1| > 0 {
        assert Queued(c1, c1[0].action.value);
      }
      if |c2| > 0 {
        assert Queued(c2, c2[0].action.value);
      }
    } else {
      var a1 := c1[|c1| - 1].action.value;
      var a2 := c2[|c2| - 1].action.value;
      assert Queued(c1, a1) && Queued(c2, a2);
      var i1 :| 0 <= i1 < |c1| && c1[i1].action == Some(a2);
      var i2 :| 0 <= i2 < |c2| && c2[i2].action == Some(a1);
      assert MoveIndex(a2) <= MoveIndex(a1) && MoveIndex(a1) <= MoveIndex(a2);
      assert a1 == a2 by { assert Moves[MoveIndex(a1)] == a1 && Moves[MoveIndex(a2)] == a2; }
      var p1 := c1[..|c1| - 1];
      var p2 := c2[..|c2| - 1];
      DropLast(c1, outs, parent, n);
      DropLast(c2, outs, parent, n);
      forall m ensures Queued(p1, m) <==> Queued(p2, m) {
        assert Queued(c1, m) <==> Queued(c2, m);
      }
      SameMovesSameList(p1, p2, outs, parent, n);
      assert c1 == p1 + [c1[|c1| - 1]] && c2 == p2 + [c2[|c2| - 1]];
    }
  }

  /** The description fixes the list: whatever meets it is the reference list
      of children. */
  lemma QueuedInOrderUnique(c: seq<Node>, outs: seq<Cube>, parent: nat, taken: set<Key>)
    requires |outs| == |Moves|
    requires QueuedInOrder(c, outs, parent, taken)
    ensures c == Children(outs, parent, taken, |Moves|)
  {
    var r := Children(outs, parent, taken, |Moves|);
    ChildrenQueuedInOrder(outs, parent, taken);
    forall m ensures Queued(c, m) <==> Queued(r, m) {
      assert Moves[MoveIndex(m)] == m;
    }
    SameMovesSameList(c, r, outs, parent, |Moves|);
  }

  /** Once all six moves have been tried: the queue grew by the reference
      children, each the result of its move from `x`, and every result is
      explored or queued. */
  lemma TriedAll(before: seq<Node>, after: seq<Node>, x: Cube, parent: nat,
                 explored: set<Key>, serials: set<Key>, serials': set<Key>)
    requires after == before + Children(Successors(x), parent, explored + serials, |Moves|)
    requires explored + serials' == Seen(Successors(x), explored + serials, |Moves|)
    ensures Appended(before, after, parent, x)
    ensures forall m: Move :: Known(Turn(x, m), explored) || Known(Turn(x, m), serials')
    ensures QueuedInOrder(after[|before|..], Successors(x), parent, explored + serials)
  {
    var outs := Successors(x);
    var added := after[|before|..];
    assert added == Children(outs, parent, explored + serials, |Moves|);
    ChildrenQueuedInOrder(outs, parent, explored + serials);
    forall m: Move ensures Known(Turn(x, m), explored) || Known(Turn(x, m), serials') {
      assert Serialize(outs[MoveIndex(m)]) in Seen(outs, explored + serials, |Moves|);
    }
    forall i | |before| <= i < |after|
      ensures after[i].state == Turn(x, after[i].action.value)
    {
      assert after[i] == added[i - |before|];
    }
  }

  /** Tries the six moves on `node` in order and queues each resulting
      configuration whose key is neither explored nor queued, with `parent`
      as its parent index; returns the updated key set of the frontier. */
  method Expand(frontier: QueueFrontier, node: Node, parent: nat, explored: set<Key>, serials: set<Key>)
    returns (serials': set<Key>)
    modifies frontier
    requires Bookkeeping(frontier.nodes, serials, explored)
    ensures Appended(old(frontier.nodes), frontier.nodes, parent, node.state)
    ensures Bookkeeping(frontier.nodes, serials', explored)
    ensures forall m: Move :: Known(Turn(node.state, m), explored) || Known(Turn(node.state, m), serials')
    ensures QueuedInOrder(frontier.nodes[|old(frontier.nodes)|..], Successors(node.state), parent, explored + serials)
  {
    ghost var before := frontier.nodes;
    ghost var taken := explored + serials;
    ghost var outs := Successors(node.state);
    serials' := serials;
    for j := 0 to |Moves|
      invariant frontier.nodes == before + Children(outs, parent, taken, j)
      invariant explored + serials' == Seen(outs, taken, j)
      invariant Bookkeeping(frontier.nodes, serials', explored)
    {
      SeenStep(outs, taken, j);
      var move := Moves[j];
      var newState := ApplyMove(node.state, move);
      var s := Serialize(newState);
      if s !in explored && s !in serials' {
        var child := Node(newState, Some(parent), Some(move));
        EnqueueKeys(frontier.nodes, serials', explored, child);
        frontier.Add(child);
        serials' := serials' + {s};
      }
    }
    TriedAll(before, frontier.nodes, node.state, parent, explored, serials, serials');
  }

  /** The answer for a solved front node: its path from the start and the
      configurations along it, the shortest solution there is. */
  method Answer(ghost start: Cube, tree: seq<Node>, node: Node, ghost queue: seq<Node>, ghost depth: seq<nat>,
                ghost serials: set<Key>, ghost explored: set<Key>) returns (r: Outcome)
    requires |queue| > 0 && node == queue[0] && Solved(node.state)
    requires Arena(start, tree, queue, depth) && Levels(start, queue, depth, explored) && Closed(start, serials, explored)
    ensures r.Solution?
    ensures |r.cells| == |r.actions|
    ensures forall i :: 0 <= i < |r.actions| ==> r.cells[i] == Run(start, r.actions[..i + 1])
    ensures Solved(Run(start, r.actions))
    ensures forall ms: seq<Move> {:trigger Run(start, ms)} :: |ms| < |r.actions| ==> !Solved(Run(start, ms))
    ensures Solved(start) ==> r == Solution([], [])
  {
    var actions, cells := Reconstruct(start, tree, node);
    FrontIsShortest(start, tree, queue, depth, serials, explored);
    return Solution(actions, cells);
  }

  /** Breadth-first search from `start`. On success the moves replay from the
      start through the returned configurations to a solved one, and no
      shorter sequence of moves reaches a solved configuration; `NoSolution`
      is returned only when no sequence of moves at all does. */
  method Solve(start: Cube) returns (r: Outcome)
    ensures r.Solution? ==>
      && |r.cells| == |r.actions|
      && (forall i :: 0 <= i < |r.actions| ==> r.cells[i] == Run(start, r.actions[..i + 1]))
      && Solved(Run(start, r.actions))
    ensures r.Solution? ==> forall ms: seq<Move> {:trigger Run(start, ms)} :: |ms| < |r.actions| ==> !Solved(Run(start, ms))
    ensures r.NoSolution? ==> forall ms: seq<Move> :: !Solved(Run(start, ms))
    ensures (exists ms: seq<Move> :: Solved(Run(start, ms))) ==> r.Solution?
    ensures Solved(start) ==> r == Solution([], [])
  {
    var startState := CopyCube(start);
    var startNode := Node(startState, None, None);
    var frontier := new QueueFrontier();
    frontier.Add(startNode);
    var explored: set<Key> := {};
    var frontierSerials: set<Key> := {Serialize(start)};
    var tree: seq<Node> := [];
    ghost var depth: seq<nat> := [0];
    assert frontier.nodes == [startNode];
    ghost var space := KeySpaceBound(start);
    Initially(start, space);

    while true
      invariant Bookkeeping(frontier.nodes, frontierSerials, explored)
      invariant Arena(start, tree, frontier.nodes, depth)
      invariant Fifo(depth)
      invariant Closed(start, frontierSerials, explored)
      invariant Levels(start, frontier.nodes, depth, explored)
      invariant forall i :: 0 <= i < |frontier.nodes| ==> Known(frontier.nodes[i].state, space)
      invariant explored <= space
      invariant History(tree, frontier.nodes, explored)
      decreases |space - explored|
    {
      if frontier.Empty() {
        FrontierRanOut(start, frontierSerials, explored);
        return NoSolution;
      }
      ghost var queue, level, known, keys, arena := frontier.nodes, depth, explored, frontierSerials, tree;
      var removed := frontier.Remove();
      var node := removed.value;
      var key := Serialize(node.state);
      DequeueKeys(queue, frontierSerials, explored);
      frontierSerials := frontierSerials - {key};

      var solved := IsSolved(node.state);
      if solved {
        r := Answer(start, tree, node, queue, level, keys, explored);
        assert Solved(Run(start, r.actions));
        return;
      }

      assert Known(node.state, space);
      Shrinks(space, explored, key);
      explored := explored + {key};
      ghost var rest := frontier.nodes;
      assert rest == queue[1..] && node == queue[0];
      frontierSerials := Expand(frontier, node, |tree|, explored, frontierSerials);
      tree := tree + [node];
      ghost var grown := frontier.nodes;
      depth := NextDepths(level, |grown| - |rest|);
      AfterExpand(start, arena, queue, level, known, keys, space, grown, depth, explored, frontierSerials);
    }
  }
}
