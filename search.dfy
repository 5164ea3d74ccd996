/**
 * The A* search of the pathfinder (`_astar` in
 * python-vs-core/src/vintage_story_core/pathfinding.py): an open set ordered by
 * `(f, counter)`, `g_score`, `f_score` and `came_from` maps, and path
 * reconstruction by following `came_from` back to the start and reversing.
 */
module Search {
  import opened Wrappers
  import opened Geometry
  import opened Terrain
  import opened Moves

  /** An open-set entry `(f_score, counter, x, z, y)`. */
  datatype Entry = Entry(f: int, counter: int, x: int, z: int, y: int)

  /** `a` comes out of the heap no later than `b`: tuples compare by `f`, then by the insertion counter. */
  predicate NotAfter(a: Entry, b: Entry)
  {
    a.f < b.f || (a.f == b.f && a.counter <= b.counter)
  }

  /**
   * `heapq.heappop` on the open set held as a sequence: removes and returns an entry that is
   * minimal by `(f, counter)`.
   */
  method HeapPop(heap: seq<Entry>) returns (e: Entry, rest: seq<Entry>)
    requires |heap| > 0
    ensures e in heap
    ensures forall o :: o in heap ==> NotAfter(e, o)
    ensures multiset(rest) == multiset(heap) - multiset{e}
  {
    var best := 0;
    for i := 1 to |heap|
      invariant 0 <= best < |heap|
      invariant forall j :: 0 <= j < i ==> NotAfter(heap[best], heap[j])
    {
      if !NotAfter(heap[best], heap[i]) {
        best := i;
      }
    }
    e := heap[best];
    rest := heap[..best] + heap[best + 1..];
    assert heap == heap[..best] + [e] + heap[best + 1..];
  }

  /** Removing one entry keeps every other entry and adds none. */
  lemma {:induction false} PopKeepsOthers(heap: seq<Entry>, e: Entry, rest: seq<Entry>)
    requires e in heap
    requires multiset(rest) == multiset(heap) - multiset{e}
    ensures |rest| == |heap| - 1
    ensures forall o :: o in rest ==> o in heap
    ensures forall o :: o in heap && o != e ==> o in rest
  {
    assert |multiset(rest)| == |multiset(heap)| - 1;
    forall o | o in rest ensures o in heap {
      assert o in multiset(rest);
    }
    forall o | o in heap && o != e ensures o in rest {
      assert multiset(heap)[o] > 0;
      assert multiset(rest)[o] == multiset(heap)[o];
    }
  }

  /** `v` is the surface cell of its column. */
  predicate OnSurface(hm: Heightmap, v: Voxel)
  {
    ColumnOf(v) in hm && hm[ColumnOf(v)] == v.y
  }

  /** `_get_walkable_neighbors`, called on `a`, returns a neighbour at cell `b`. */
  predicate Allows(t: TerrainData, allow2BlockDrop: bool, a: Voxel, b: Voxel)
  {
    exists m :: m in WalkableNeighbors(t, allow2BlockDrop, a.x, a.z, a.y, |Directions|) && b == Voxel(m.x, m.y, m.z)
  }

  /** A walk on the surface: every cell is its column's surface and every step is an allowed move. */
  predicate IsWalk(t: TerrainData, allow2BlockDrop: bool, w: seq<Voxel>)
  {
    && (forall i :: 0 <= i < |w| ==> OnSurface(t.heightmap, w[i]))
    && (forall i :: 0 <= i < |w| - 1 ==> Allows(t, allow2BlockDrop, w[i], w[i + 1]))
  }

  /** A walk from `start` that ends in column `goal`. */
  predicate IsRoute(t: TerrainData, allow2BlockDrop: bool, w: seq<Voxel>, start: Voxel, goal: Column)
  {
    |w| > 0 && w[0] == start && ColumnOf(w[|w| - 1]) == goal && IsWalk(t, allow2BlockDrop, w)
  }

  /** `list.reverse()`. */
  function Reversed<T>(s: seq<T>): (r: seq<T>)
    ensures |r| == |s|
    ensures forall i :: 0 <= i < |s| ==> r[i] == s[|s| - 1 - i]
  {
    if s == [] then [] else Reversed(s[1..]) + [s[0]]
  }

  // ---------------------------------------------------------------------------
  // Ghost bookkeeping for the proof of the search loop
  // ---------------------------------------------------------------------------

  predicate Distinct<T(==)>(w: seq<T>)
  {
    forall i, j :: 0 <= i < j < |w| ==> w[i] != w[j]
  }

  /** Some ordering of the members of a finite set, without repetition. */
  lemma {:induction false} SeqOfSet<T>(s: set<T>) returns (w: seq<T>)
    ensures Distinct(w)
    ensures forall x :: x in w <==> x in s
    decreases s
  {
    if s == {} {
      w := [];
    } else {
      var x :| x in s;
      var tail := SeqOfSet(s - {x});
      w := [x] + tail;
    }
  }

  /** The sum of `g_score` over the columns listed in `keys`. */
  function ScoreSum(keys: seq<Column>, g: map<Column, int>): int
  {
    if keys == [] then 0
    else (if keys[0] in g then g[keys[0]] else 0) + ScoreSum(keys[1..], g)
  }

  lemma {:induction false} ScoreSumNonneg(keys: seq<Column>, g: map<Column, int>)
    requires forall c :: c in g ==> g[c] >= 0
    ensures ScoreSum(keys, g) >= 0
  {
    if keys != [] {
      ScoreSumNonneg(keys[1..], g);
    }
  }

  lemma {:induction false} ScoreSumFrame(keys: seq<Column>, g: map<Column, int>, n: Column, v: int)
    requires n !in keys
    ensures ScoreSum(keys, g[n := v]) == ScoreSum(keys, g)
  {
    if keys != [] {
      ScoreSumFrame(keys[1..], g, n, v);
    }
  }

  /** Lowering one recorded score lowers the sum. */
  lemma {:induction false} ScoreSumDrop(keys: seq<Column>, g: map<Column, int>, n: Column, v: int)
    requires Distinct(keys) && n in keys
    requires n in g && v < g[n]
    ensures ScoreSum(keys, g[n := v]) < ScoreSum(keys, g)
  {
    if keys[0] == n {
      assert n !in keys[1..] by {
        forall i | 0 <= i < |keys[1..]| ensures keys[1..][i] != n {
          assert keys[1..][i] == keys[i + 1];
        }
      }
      ScoreSumFrame(keys[1..], g, n, v);
    } else {
      assert Distinct(keys[1..]) by {
        forall i, j | 0 <= i < j < |keys[1..]| ensures keys[1..][i] != keys[1..][j] {
          assert keys[1..][i] == keys[i + 1] && keys[1..][j] == keys[j + 1];
        }
      }
      ScoreSumDrop(keys[1..], g, n, v);
    }
  }

  /** Some open entry is for column `c`. */
  predicate Pending(open: seq<Entry>, c: Column)
  {
    exists e :: e in open && Column(e.x, e.z) == c
  }

  /** Column `c` has been expanded: every neighbour `_get_walkable_neighbors` gives it has a `g_score`. */
  predicate Closed(t: TerrainData, allow2BlockDrop: bool, g: map<Column, int>, c: Column)
  {
    c in t.heightmap
    && forall m :: m in WalkableNeighbors(t, allow2BlockDrop, c.x, c.z, t.heightmap[c], |Directions|) ==> Column(m.x, m.z) in g
  }

  /** Every `g_score` is a non-negative cost of a heightmap column; the start column costs 0. */
  ghost predicate ScoresOk(hm: Heightmap, sc: Column, g: map<Column, int>)
  {
    && sc in g && g[sc] == 0
    && (forall c :: c in g ==> c in hm && g[c] >= 0)
  }

  /** Column `c` is the start column or has a recorded parent. */
  predicate Linked(sc: Column, cameFrom: map<Column, Voxel>, c: Column)
  {
    c == sc || c in cameFrom
  }

  /**
   * `came_from` links every scored column but the start to a scored parent that is cheaper by at
   * least one move, whose surface cell `_get_walkable_neighbors` allows to step to the child.
   */
  ghost predicate ParentsOk(t: TerrainData, allow2BlockDrop: bool, sc: Column, g: map<Column, int>, cameFrom: map<Column, Voxel>)
  {
    var hm := t.heightmap;
    && (forall c :: c in cameFrom ==>
          && c in g && ColumnOf(cameFrom[c]) in g
          && g[ColumnOf(cameFrom[c])] + CostScale <= g[c]
          && OnSurface(hm, cameFrom[c])
          && c in hm
          && Allows(t, allow2BlockDrop, cameFrom[c], Voxel(c.x, hm[c], c.z)))
    && (forall c {:trigger Linked(sc, cameFrom, c)} :: c in g ==> Linked(sc, cameFrom, c))
  }

  /** Every open entry is the surface cell of a scored column. */
  ghost predicate OpenOk(hm: Heightmap, g: map<Column, int>, open: seq<Entry>)
  {
    forall e :: e in open ==> Column(e.x, e.z) in g && OnSurface(hm, Voxel(e.x, e.y, e.z))
  }

  /** The invariant of the search state apart from the frontier of unexpanded columns. */
  ghost predicate Bookkeeping(t: TerrainData, allow2BlockDrop: bool, sc: Column, g: map<Column, int>,
                              cameFrom: map<Column, Voxel>, open: seq<Entry>)
  {
    && ScoresOk(t.heightmap, sc, g)
    && ParentsOk(t, allow2BlockDrop, sc, g, cameFrom)
    && OpenOk(t.heightmap, g, open)
  }

  /**
   * The frontier invariant behind completeness: every scored column is the goal, one of the
   * `exempt` columns, pending in the open set, or expanded; a scored goal is pending.
   */
  ghost predicate Frontier(t: TerrainData, allow2BlockDrop: bool, goal: Column, g: map<Column, int>, open: seq<Entry>, exempt: set<Column>)
  {
    && (forall c {:trigger Accounted(t, allow2BlockDrop, goal, g, open, exempt, c)} ::
          c in g ==> Accounted(t, allow2BlockDrop, goal, g, open, exempt, c))
    && (goal in g ==> Pending(open, goal))
  }

  /** Column `c` is the goal, exempt, pending, or expanded. */
  predicate Accounted(t: TerrainData, allow2BlockDrop: bool, goal: Column, g: map<Column, int>, open: seq<Entry>, exempt: set<Column>, c: Column)
  {
    c == goal || c in exempt || Pending(open, c) || Closed(t, allow2BlockDrop, g, c)
  }

  /** A neighbour is a different column, in the heightmap, whose surface is the neighbour's `y`. */
  lemma {:induction false} NeighborFacts(t: TerrainData, allow2BlockDrop: bool, cur: Column, cy: int, m: Neighbor)
    requires m in WalkableNeighbors(t, allow2BlockDrop, cur.x, cur.z, cy, |Directions|)
    ensures Column(m.x, m.z) != cur
    ensures Column(m.x, m.z) in t.heightmap && t.heightmap[Column(m.x, m.z)] == m.y
    ensures CostScale <= m.cost <= MaxStepCost
  {
    WalkableNeighborsAreLegal(t, allow2BlockDrop, cur.x, cur.z, cy, |Directions|);
    var k :| 0 <= k < |Directions| && Column(m.x, m.z) == Step(cur, k);
  }

  /** Relaxing a neighbour of `cur` to `tentative` keeps the scores and the parent links valid. */
  lemma {:induction false} RelaxParents(t: TerrainData, allow2BlockDrop: bool, sc: Column, g: map<Column, int>,
                                        cameFrom: map<Column, Voxel>, cur: Column, m: Neighbor)
    requires ScoresOk(t.heightmap, sc, g) && ParentsOk(t, allow2BlockDrop, sc, g, cameFrom)
    requires cur in g
    requires m in WalkableNeighbors(t, allow2BlockDrop, cur.x, cur.z, t.heightmap[cur], |Directions|)
    requires CostScale <= m.cost && Column(m.x, m.z) in t.heightmap && t.heightmap[Column(m.x, m.z)] == m.y
    requires Column(m.x, m.z) != cur
    requires Column(m.x, m.z) !in g || g[cur] + m.cost < g[Column(m.x, m.z)]
    ensures ScoresOk(t.heightmap, sc, g[Column(m.x, m.z) := g[cur] + m.cost])
    ensures ParentsOk(t, allow2BlockDrop, sc, g[Column(m.x, m.z) := g[cur] + m.cost],
                      cameFrom[Column(m.x, m.z) := Voxel(cur.x, t.heightmap[cur], cur.z)])
  {
    var hm := t.heightmap;
    var n := Column(m.x, m.z);
    var g' := g[n := g[cur] + m.cost];
    var parent := Voxel(cur.x, hm[cur], cur.z);
    var cameFrom' := cameFrom[n := parent];
    forall c | c in cameFrom'
      ensures && c in g' && ColumnOf(cameFrom'[c]) in g'
              && g'[ColumnOf(cameFrom'[c])] + CostScale <= g'[c]
              && OnSurface(hm, cameFrom'[c])
              && c in hm
              && Allows(t, allow2BlockDrop, cameFrom'[c], Voxel(c.x, hm[c], c.z))
    {
      if c == n {
        assert ColumnOf(parent) == cur;
        assert Voxel(c.x, hm[c], c.z) == Voxel(m.x, m.y, m.z);
      }
    }
    forall c | c in g' ensures Linked(sc, cameFrom', c) {
      if c != n {
        assert Linked(sc, cameFrom, c);
      }
    }
  }

  /** Pushing the relaxed neighbour's entry keeps the frontier invariant, the neighbour now pending. */
  lemma {:induction false} RelaxFrontier(t: TerrainData, allow2BlockDrop: bool, goal: Column, g: map<Column, int>,
                                         open: seq<Entry>, exempt: set<Column>, v: int, x: Entry)
    requires Frontier(t, allow2BlockDrop, goal, g, open, exempt)
    ensures Frontier(t, allow2BlockDrop, goal, g[Column(x.x, x.z) := v], open + [x], exempt)
  {
    var n := Column(x.x, x.z);
    var g' := g[n := v];
    var open' := open + [x];
    assert Pending(open', n) by {
      assert open'[|open|] == x;
    }
    forall c | c in g' ensures Accounted(t, allow2BlockDrop, goal, g', open', exempt, c) {
      if c != n {
        assert Accounted(t, allow2BlockDrop, goal, g, open, exempt, c);
        if Pending(open, c) {
          var e :| e in open && Column(e.x, e.z) == c;
          assert e in open';
        }
      }
    }
    if goal in g && goal != n {
      var e :| e in open && Column(e.x, e.z) == goal;
      assert e in open';
    }
  }

  /** One relaxation of a neighbour of `cur`, entry pushed, keeps the bookkeeping and the frontier. */
  lemma {:induction false} RelaxStep(t: TerrainData, allow2BlockDrop: bool, goal: Column, sc: Column, g: map<Column, int>,
                                     cameFrom: map<Column, Voxel>, open: seq<Entry>, cur: Column, m: Neighbor, x: Entry)
    requires Bookkeeping(t, allow2BlockDrop, sc, g, cameFrom, open)
    requires Frontier(t, allow2BlockDrop, goal, g, open, {cur})
    requires cur in g
    requires m in WalkableNeighbors(t, allow2BlockDrop, cur.x, cur.z, t.heightmap[cur], |Directions|)
    requires Column(m.x, m.z) !in g || g[cur] + m.cost < g[Column(m.x, m.z)]
    requires x.x == m.x && x.z == m.z && x.y == m.y
    ensures Bookkeeping(t, allow2BlockDrop, sc, g[Column(m.x, m.z) := g[cur] + m.cost],
                        cameFrom[Column(m.x, m.z) := Voxel(cur.x, t.heightmap[cur], cur.z)], open + [x])
    ensures Frontier(t, allow2BlockDrop, goal, g[Column(m.x, m.z) := g[cur] + m.cost], open + [x], {cur})
  {
    var n := Column(m.x, m.z);
    var g' := g[n := g[cur] + m.cost];
    NeighborFacts(t, allow2BlockDrop, cur, t.heightmap[cur], m);
    RelaxParents(t, allow2BlockDrop, sc, g, cameFrom, cur, m);
    RelaxFrontier(t, allow2BlockDrop, goal, g, open, {cur}, g[cur] + m.cost, x);
    forall e | e in open + [x] ensures Column(e.x, e.z) in g' && OnSurface(t.heightmap, Voxel(e.x, e.y, e.z)) {
      if e != x {
        assert e in open;
      }
    }
  }

  /** Popping an entry for a column other than the goal leaves that column, at most, unaccounted for. */
  lemma {:induction false} PopFrontier(t: TerrainData, allow2BlockDrop: bool, goal: Column, g: map<Column, int>,
                                       open: seq<Entry>, e: Entry, rest: seq<Entry>)
    requires Frontier(t, allow2BlockDrop, goal, g, open, {})
    requires e in open && multiset(rest) == multiset(open) - multiset{e}
    requires Column(e.x, e.z) != goal
    ensures Frontier(t, allow2BlockDrop, goal, g, rest, {Column(e.x, e.z)})
  {
    PopKeepsOthers(open, e, rest);
    forall c | c in g ensures Accounted(t, allow2BlockDrop, goal, g, rest, {Column(e.x, e.z)}, c) {
      assert Accounted(t, allow2BlockDrop, goal, g, open, {}, c);
      if c != Column(e.x, e.z) && Pending(open, c) {
        var o :| o in open && Column(o.x, o.z) == c;
        assert o != e;
      }
    }
    if goal in g {
      var o :| o in open && Column(o.x, o.z) == goal;
      assert o != e;
    }
  }

  /** A walk that starts inside a set of expanded columns never leaves it. */
  lemma {:induction false} ClosedSetContainsWalks(t: TerrainData, allow2BlockDrop: bool, g: map<Column, int>, w: seq<Voxel>, n: nat)
    requires IsWalk(t, allow2BlockDrop, w) && |w| > 0 && ColumnOf(w[0]) in g
    requires forall c :: c in g ==> Closed(t, allow2BlockDrop, g, c)
    requires n < |w|
    ensures ColumnOf(w[n]) in g
  {
    if n > 0 {
      ClosedSetContainsWalks(t, allow2BlockDrop, g, w, n - 1);
      assert Allows(t, allow2BlockDrop, w[n - 1], w[n]);
      var c := ColumnOf(w[n - 1]);
      assert Closed(t, allow2BlockDrop, g, c);
      assert OnSurface(t.heightmap, w[n - 1]);
    }
  }

  /**
   * Once the open set is empty, no route leads from a scored cell to the goal: the goal was never
   * scored, and every scored column is expanded, so every walk from one stays among them.
   */
  lemma {:induction false} ExhaustedSearchHasNoRoute(t: TerrainData, allow2BlockDrop: bool, goal: Column,
                                                     g: map<Column, int>, s: Voxel)
    requires Frontier(t, allow2BlockDrop, goal, g, [], {})
    requires ColumnOf(s) in g
    ensures forall w :: !IsRoute(t, allow2BlockDrop, w, s, goal)
  {
    forall c | c in g ensures Closed(t, allow2BlockDrop, g, c) {
      assert Accounted(t, allow2BlockDrop, goal, g, [], {}, c);
    }
    forall w | IsRoute(t, allow2BlockDrop, w, s, goal) ensures false {
      ClosedSetContainsWalks(t, allow2BlockDrop, g, w, |w| - 1);
    }
  }

  /** A reversed chain of allowed moves read forwards is a route. */
  lemma {:induction false} ReversedChainIsRoute(t: TerrainData, allow2BlockDrop: bool, rev: seq<Voxel>, start: Voxel, goal: Column)
    requires |rev| > 0 && rev[|rev| - 1] == start && ColumnOf(rev[0]) == goal
    requires forall i :: 0 <= i < |rev| ==> OnSurface(t.heightmap, rev[i])
    requires forall i :: 0 <= i < |rev| - 1 ==> Allows(t, allow2BlockDrop, rev[i + 1], rev[i])
    ensures IsRoute(t, allow2BlockDrop, Reversed(rev), start, goal)
  {
    var p := Reversed(rev);
    forall i | 0 <= i < |p| - 1 ensures Allows(t, allow2BlockDrop, p[i], p[i + 1]) {
      var k := |rev| - 2 - i;
      assert p[i] == rev[k + 1];
    }
  }

  /**
   * The path reconstruction of `_astar`: follow `came_from` from the goal cell `last` back to
   * the start, then reverse. The result is a route from the start cell to `last`'s column;
   * with no links at all it is `last` alone.
   */
  method ReconstructPath(t: TerrainData, allow2BlockDrop: bool, sc: Column, g: map<Column, int>,
                         cameFrom: map<Column, Voxel>, last: Voxel) returns (path: seq<Voxel>)
    requires ScoresOk(t.heightmap, sc, g) && ParentsOk(t, allow2BlockDrop, sc, g, cameFrom)
    requires ColumnOf(last) in g && OnSurface(t.heightmap, last)
    ensures IsRoute(t, allow2BlockDrop, path, Voxel(sc.x, t.heightmap[sc], sc.z), ColumnOf(last))
    ensures cameFrom == map[] ==> path == [last]
  {
    var hm := t.heightmap;
    var current := ColumnOf(last);
    var rev := [last];
    while current in cameFrom
      invariant current in g
      invariant |rev| > 0 && rev[0] == last
      invariant rev[|rev| - 1] == Voxel(current.x, hm[current], current.z)
      invariant forall i :: 0 <= i < |rev| ==> OnSurface(hm, rev[i])
      invariant forall i :: 0 <= i < |rev| - 1 ==> Allows(t, allow2BlockDrop, rev[i + 1], rev[i])
      invariant cameFrom == map[] ==> rev == [last]
      decreases g[current]
    {
      var p := cameFrom[current];
      rev := rev + [p];
      current := Column(p.x, p.z);
    }
    assert Linked(sc, cameFrom, current);
    ReversedChainIsRoute(t, allow2BlockDrop, rev, Voxel(sc.x, hm[sc], sc.z), ColumnOf(last));
    path := Reversed(rev);
  }

  /**
   * The expansion step of `_astar`: for every neighbour of `current`, in order, whose tentative
   * score beats the recorded one (or that has none), record the parent and the scores, bump the
   * counter and push the entry `(f, counter, x, z, y)`. Afterwards `current` is expanded, the
   * bookkeeping holds, and either a column has been scored for the first time, or the sum of
   * the scores has fallen, or nothing has changed.
   */
  method RelaxNeighbors(t: TerrainData, allow2BlockDrop: bool, goal: Column, sc: Column, current: Column,
                        neighbors: seq<Neighbor>, cameFrom0: map<Column, Voxel>, gScore0: map<Column, int>,
                        fScore0: map<Column, int>, counter0: int, openSet0: seq<Entry>, ghost keys: seq<Column>)
    returns (cameFrom: map<Column, Voxel>, gScore: map<Column, int>, fScore: map<Column, int>,
             counter: int, openSet: seq<Entry>)
    requires Bookkeeping(t, allow2BlockDrop, sc, gScore0, cameFrom0, openSet0)
    requires Frontier(t, allow2BlockDrop, goal, gScore0, openSet0, {current})
    requires current in gScore0
    requires neighbors == WalkableNeighbors(t, allow2BlockDrop, current.x, current.z, t.heightmap[current], |Directions|)
    requires Distinct(keys) && forall c :: c in t.heightmap ==> c in keys
    ensures Bookkeeping(t, allow2BlockDrop, sc, gScore, cameFrom, openSet)
    ensures Frontier(t, allow2BlockDrop, goal, gScore, openSet, {})
    ensures Closed(t, allow2BlockDrop, gScore, current)
    ensures gScore0.Keys <= gScore.Keys
    ensures gScore.Keys == gScore0.Keys ==>
      ScoreSum(keys, gScore) < ScoreSum(keys, gScore0) || (gScore == gScore0 && openSet == openSet0)
  {
    cameFrom, gScore, fScore, counter, openSet := cameFrom0, gScore0, fScore0, counter0, openSet0;
    for j := 0 to |neighbors|
      invariant Bookkeeping(t, allow2BlockDrop, sc, gScore, cameFrom, openSet)
      invariant Frontier(t, allow2BlockDrop, goal, gScore, openSet, {current})
      invariant current in gScore && gScore[current] == gScore0[current]
      invariant forall i :: 0 <= i < j ==> Column(neighbors[i].x, neighbors[i].z) in gScore
      invariant gScore0.Keys <= gScore.Keys
      invariant gScore.Keys == gScore0.Keys ==>
        ScoreSum(keys, gScore) < ScoreSum(keys, gScore0) || (gScore == gScore0 && openSet == openSet0)
    {
      cameFrom, gScore, fScore, counter, openSet :=
        RelaxNeighbor(t, allow2BlockDrop, goal, sc, current, neighbors[j], cameFrom, gScore, fScore, counter, openSet, keys);
    }
    assert Closed(t, allow2BlockDrop, gScore, current);
    forall c | c in gScore ensures Accounted(t, allow2BlockDrop, goal, gScore, openSet, {}, c) {
      assert Accounted(t, allow2BlockDrop, goal, gScore, openSet, {current}, c);
    }
  }

  /**
   * One neighbour `m` of `current` in the expansion step of `_astar`: when its tentative score
   * beats the recorded one, or it has none, record the parent and the scores, bump the counter
   * and push the entry `(f, counter, x, z, y)`. Afterwards the neighbour is scored, and either
   * it was scored for the first time, or the sum of the scores has fallen, or nothing changed.
   */
  method RelaxNeighbor(t: TerrainData, allow2BlockDrop: bool, goal: Column, sc: Column, current: Column, m: Neighbor,
                       cameFrom0: map<Column, Voxel>, gScore0: map<Column, int>, fScore0: map<Column, int>,
                       counter0: int, openSet0: seq<Entry>, ghost keys: seq<Column>)
    returns (cameFrom: map<Column, Voxel>, gScore: map<Column, int>, fScore: map<Column, int>,
             counter: int, openSet: seq<Entry>)
    requires Bookkeeping(t, allow2BlockDrop, sc, gScore0, cameFrom0, openSet0)
    requires Frontier(t, allow2BlockDrop, goal, gScore0, openSet0, {current})
    requires current in gScore0
    requires m in WalkableNeighbors(t, allow2BlockDrop, current.x, current.z, t.heightmap[current], |Directions|)
    requires Distinct(keys) && forall c :: c in t.heightmap ==> c in keys
    ensures Bookkeeping(t, allow2BlockDrop, sc, gScore, cameFrom, openSet)
    ensures Frontier(t, allow2BlockDrop, goal, gScore, openSet, {current})
    ensures current in gScore && gScore[current] == gScore0[current]
    ensures gScore.Keys == gScore0.Keys + {Column(m.x, m.z)}
    ensures gScore.Keys == gScore0.Keys ==>
      ScoreSum(keys, gScore) < ScoreSum(keys, gScore0) || (gScore == gScore0 && openSet == openSet0)
  {
    cameFrom, gScore, fScore, counter, openSet := cameFrom0, gScore0, fScore0, counter0, openSet0;
    var cy := t.heightmap[current];
    var neighborXZ := Column(m.x, m.z);
    var tentativeG := gScore[current] + m.cost;
    NeighborFacts(t, allow2BlockDrop, current, cy, m);
    if neighborXZ !in gScore || tentativeG < gScore[neighborXZ] {
      var f := tentativeG + CostScale * Heuristic(m.x, m.z, goal.x, goal.z);
      var entry := Entry(f, counter + 1, m.x, m.z, m.y);
      RelaxStep(t, allow2BlockDrop, goal, sc, gScore, cameFrom, openSet, current, m, entry);
      if neighborXZ in gScore {
        ScoreSumDrop(keys, gScore, neighborXZ, tentativeG);
      }
      cameFrom := cameFrom[neighborXZ := Voxel(current.x, cy, current.z)];
      gScore := gScore[neighborXZ := tentativeG];
      fScore := fScore[neighborXZ := f];
      counter := counter + 1;
      openSet := openSet + [entry];
    }
  }

  /**
   * The body of `_astar`'s loop after popping the entry `e` of a column other than the goal:
   * look up its neighbours and relax them. The bookkeeping and the frontier are kept, and the
   * search makes progress: a column is scored for the first time, or the sum of the scores
   * falls, or the open set shrinks.
   */
  method ExpandColumn(t: TerrainData, allow2BlockDrop: bool, goal: Column, sc: Column, e: Entry, rest: seq<Entry>,
                      cameFrom0: map<Column, Voxel>, gScore0: map<Column, int>, fScore0: map<Column, int>,
                      counter0: int, openSet0: seq<Entry>, ghost keys: seq<Column>)
    returns (cameFrom: map<Column, Voxel>, gScore: map<Column, int>, fScore: map<Column, int>,
             counter: int, openSet: seq<Entry>)
    requires Bookkeeping(t, allow2BlockDrop, sc, gScore0, cameFrom0, openSet0)
    requires Frontier(t, allow2BlockDrop, goal, gScore0, openSet0, {})
    requires e in openSet0 && multiset(rest) == multiset(openSet0) - multiset{e}
    requires Column(e.x, e.z) != goal
    requires Distinct(keys) && forall c :: c in t.heightmap ==> c in keys
    ensures Bookkeeping(t, allow2BlockDrop, sc, gScore, cameFrom, openSet)
    ensures Frontier(t, allow2BlockDrop, goal, gScore, openSet, {})
    ensures gScore0.Keys <= gScore.Keys <= t.heightmap.Keys
    ensures ScoreSum(keys, gScore) >= 0
    ensures gScore.Keys == gScore0.Keys ==>
      ScoreSum(keys, gScore) < ScoreSum(keys, gScore0) || (gScore == gScore0 && |openSet| < |openSet0|)
  {
    var current := Column(e.x, e.z);
    PopKeepsOthers(openSet0, e, rest);
    PopFrontier(t, allow2BlockDrop, goal, gScore0, openSet0, e, rest);
    assert |rest| < |openSet0| by {
      assert |multiset(rest)| == |multiset(openSet0)| - 1;
    }
    var neighbors := GetWalkableNeighbors(t, allow2BlockDrop, e.x, e.z, e.y);
    cameFrom, gScore, fScore, counter, openSet :=
      RelaxNeighbors(t, allow2BlockDrop, goal, sc, current, neighbors,
                     cameFrom0, gScore0, fScore0, counter0, rest, keys);
    ScoreSumNonneg(keys, gScore);
  }

  /**
   * `_astar`: search from the valid start near `start` to column `goal`. A returned path is a
   * route from the valid start to the goal along moves `_get_walkable_neighbors` allows; None
   * means there is no valid start or no such route at all; a start already in the goal column
   * gives the one-cell path.
   */
  method AStar(start: Voxel, goal: Column, t: TerrainData, allow2BlockDrop: bool) returns (path: Option<seq<Voxel>>)
    ensures ValidStart(start.x, start.y, start.z, t.heightmap).Some? ==> var vs := ValidStart(start.x, start.y, start.z, t.heightmap).value;
      && (path.Some? ==> IsRoute(t, allow2BlockDrop, path.value, vs, goal))
      && (path.None? ==> forall w :: !IsRoute(t, allow2BlockDrop, w, vs, goal))
      && (ColumnOf(vs) == goal ==> path == Some([vs]))
    ensures ValidStart(start.x, start.y, start.z, t.heightmap).None? ==> path.None?
  {
    var validStart := FindValidStart(start.x, start.y, start.z, t.heightmap);
    if validStart.None? {
      return None;
    }
    ValidStartIsNear(start.x, start.y, start.z, t.heightmap);
    var s := validStart.value;
    var hm := t.heightmap;
    var startXZ := Column(s.x, s.z);
    assert s == Voxel(startXZ.x, hm[startXZ], startXZ.z);

    var counter := 0;
    var openSet := [Entry(0, counter, startXZ.x, startXZ.z, s.y)];
    var cameFrom: map<Column, Voxel> := map[];
    var gScore := map[startXZ := 0];
    var fScore := map[startXZ := CostScale * Heuristic(startXZ.x, startXZ.z, goal.x, goal.z)];
    ghost var keys := SeqOfSet(hm.Keys);
    ScoreSumNonneg(keys, gScore);
    assert Pending(openSet, startXZ) by {
      assert openSet[0] in openSet;
    }

    while openSet != []
      invariant Bookkeeping(t, allow2BlockDrop, startXZ, gScore, cameFrom, openSet)
      invariant Frontier(t, allow2BlockDrop, goal, gScore, openSet, {})
      invariant startXZ == goal ==> openSet == [Entry(0, 0, s.x, s.z, s.y)] && cameFrom == map[]
      invariant ScoreSum(keys, gScore) >= 0
      decreases hm.Keys - gScore.Keys, ScoreSum(keys, gScore), |openSet|
    {
      var e, rest := HeapPop(openSet);
      var cx, cz, cy := e.x, e.z, e.y;
      var current := Column(cx, cz);
      assert current in gScore && OnSurface(hm, Voxel(cx, cy, cz));

      if current == goal {
        var route := ReconstructPath(t, allow2BlockDrop, startXZ, gScore, cameFrom, Voxel(cx, cy, cz));
        return Some(route);
      }

      assert startXZ != goal;
      cameFrom, gScore, fScore, counter, openSet :=
        ExpandColumn(t, allow2BlockDrop, goal, startXZ, e, rest, cameFrom, gScore, fScore, counter, openSet, keys);
    }

    ExhaustedSearchHasNoRoute(t, allow2BlockDrop, goal, gScore, s);
    return None;
  }
}
