/**
 * Line-of-sight filtering of scanned blocks (python-vs-core/src/vintage_story_core/visibility.py):
 * which blocks an observer can see, and which of those are surface blocks.
 *
 * The ray traversal of Amanatides and Woo ("A Fast Voxel Traversal Algorithm for Ray Tracing",
 * 1987) steps through cells with floating-point arithmetic. Here the cells it visits, each with
 * the distance travelled on reaching it, are an input (a `Ray`); what the traversal does with
 * them (stop at the target, stop at a solid cell once the distance travelled is positive) is
 * modelled.
 */
module Visibility {
  import opened Wrappers
  import opened Geometry
  import opened BlockTypes

  /** `_sign`: 1, -1 or 0 exactly as `x` is positive, negative or zero. */
  function Sign(x: real): (s: int)
    ensures s == 1 <==> x > 0.0
    ensures s == -1 <==> x < 0.0
    ensures s == 0 <==> x == 0.0
  {
    if x > 0.0 then 1 else if x < 0.0 then -1 else 0
  }

  /** A point in space (`Vec3`). */
  datatype Point = Point(x: real, y: real, z: real)

  /** The observer's eyes: `eye_height` above the observer's position. */
  function Eye(observer: Point, eyeHeight: real): (eye: Point)
    ensures eye.x == observer.x && eye.z == observer.z && eye.y == observer.y + eyeHeight
  {
    Point(observer.x, observer.y + eyeHeight, observer.z)
  }

  /** The centre of a block. */
  function Center(v: Voxel): Point
  {
    Point(v.x as real + 0.5, v.y as real + 0.5, v.z as real + 0.5)
  }

  /** The squared Euclidean distance; the source compares square roots, which rank the same way. */
  function SqDist(a: Point, b: Point): (d: real)
    ensures d >= 0.0
  {
    (a.x - b.x) * (a.x - b.x) + (a.y - b.y) * (a.y - b.y) + (a.z - b.z) * (a.z - b.z)
  }

  /** The cell containing a point: every coordinate floored. */
  function FloorCell(p: Point): Voxel
  {
    Voxel(p.x.Floor, p.y.Floor, p.z.Floor)
  }

  /** A cell the ray enters, with the distance `traveled` along the ray at that moment. */
  datatype Visit = Visit(cell: Voxel, traveled: real)

  /**
   * The cells the traversal visits while the distance travelled is below the distance to the
   * target, in order, and the cell it stands in when that loop ends.
   */
  datatype Ray = Ray(visits: seq<Visit>, final: Voxel)

  /**
   * The shape every traversal has: it starts in the eye's cell having travelled nothing, and
   * since it moves monotonically along each axis it never comes back to that cell.
   */
  predicate WellFormedRay(eye: Point, r: Ray)
  {
    && |r.visits| > 0
    && r.visits[0] == Visit(FloorCell(eye), 0.0)
    && forall j :: 1 <= j < |r.visits| ==> r.visits[j].cell != FloorCell(eye)
  }

  /** A visited cell blocks the view: it is solid and was reached at a positive distance. */
  predicate Occludes(v: Visit, solids: set<Voxel>)
  {
    v.traveled > 0.0 && v.cell in solids
  }

  /**
   * The loop of `_voxel_traversal` from visit `i` on: the target cell means visible, an occluding
   * cell means not, and when the visits run out the final cell decides.
   */
  function TraverseFrom(visits: seq<Visit>, i: nat, final: Voxel, target: Voxel, solids: set<Voxel>): (seen: bool)
    requires i <= |visits|
    ensures seen ==> final == target || exists k :: i <= k < |visits| && visits[k].cell == target
    ensures (forall k :: i <= k < |visits| ==> visits[k].cell != target && !Occludes(visits[k], solids)) ==>
      (seen <==> final == target)
    decreases |visits| - i
  {
    if i == |visits| then final == target
    else if visits[i].cell == target then true
    else if Occludes(visits[i], solids) then false
    else TraverseFrom(visits, i + 1, final, target, solids)
  }

  /** No visit before index `n` occludes. */
  predicate ClearBefore(visits: seq<Visit>, n: nat, solids: set<Voxel>)
    requires n <= |visits|
  {
    forall j :: 0 <= j < n ==> !Occludes(visits[j], solids)
  }

  /**
   * The traversal sees the target exactly when the ray reaches the target's cell with nothing
   * occluding before it, or ends in the target's cell with nothing occluding at all.
   */
  lemma {:induction false} TraversalSeesIff(visits: seq<Visit>, i: nat, final: Voxel, target: Voxel, solids: set<Voxel>)
    requires i <= |visits|
    ensures TraverseFrom(visits, i, final, target, solids) <==>
      || (exists k :: i <= k < |visits| && visits[k].cell == target &&
            forall j :: i <= j < k ==> !Occludes(visits[j], solids))
      || (final == target && forall j :: i <= j < |visits| ==> !Occludes(visits[j], solids))
    decreases |visits| - i
  {
    if i < |visits| {
      TraversalSeesIff(visits, i + 1, final, target, solids);
      if visits[i].cell != target && !Occludes(visits[i], solids) {
        if exists k :: i + 1 <= k < |visits| && visits[k].cell == target &&
             forall j :: i + 1 <= j < k ==> !Occludes(visits[j], solids) {
          var k :| i + 1 <= k < |visits| && visits[k].cell == target &&
             forall j :: i + 1 <= j < k ==> !Occludes(visits[j], solids);
          assert forall j :: i <= j < k ==> !Occludes(visits[j], solids);
        }
        if exists k :: i <= k < |visits| && visits[k].cell == target &&
             forall j :: i <= j < k ==> !Occludes(visits[j], solids) {
          var k :| i <= k < |visits| && visits[k].cell == target &&
             forall j :: i <= j < k ==> !Occludes(visits[j], solids);
          assert k != i;
          assert forall j :: i + 1 <= j < k ==> !Occludes(visits[j], solids);
        }
      }
    }
  }

  /**
   * `_voxel_traversal` from `eye` to the block at `target`, given the cells the ray visits: a
   * target at distance zero is visible, one beyond `max_distance` is not (both compared here
   * squared), otherwise the traversal decides.
   */
  function LineOfSight(eye: Point, target: Voxel, solids: set<Voxel>, maxSqDistance: real, r: Ray): (visible: bool)
    ensures SqDist(Center(target), eye) == 0.0 ==> visible
    ensures SqDist(Center(target), eye) > maxSqDistance && SqDist(Center(target), eye) != 0.0 ==> !visible
  {
    var d := SqDist(Center(target), eye);
    if d == 0.0 then true
    else if d > maxSqDistance then false
    else TraverseFrom(r.visits, 0, r.final, target, solids)
  }

  /** Reaching the target's cell with nothing occluding on the way means the target is visible. */
  lemma ReachingTargetMeansVisible(eye: Point, target: Voxel, solids: set<Voxel>, maxSqDistance: real, r: Ray, k: nat)
    requires SqDist(Center(target), eye) <= maxSqDistance
    requires k < |r.visits| && r.visits[k].cell == target
    requires ClearBefore(r.visits, k, solids)
    ensures LineOfSight(eye, target, solids, maxSqDistance, r)
  {
    TraversalSeesIff(r.visits, 0, r.final, target, solids);
  }

  /**
   * The observer's own cell is never an occluder: whether it is solid does not change what a
   * well-formed ray sees.
   */
  lemma ObserverCellNeverOccludes(eye: Point, target: Voxel, solids: set<Voxel>, maxSqDistance: real, r: Ray)
    requires WellFormedRay(eye, r)
    ensures LineOfSight(eye, target, solids + {FloorCell(eye)}, maxSqDistance, r)
        == LineOfSight(eye, target, solids - {FloorCell(eye)}, maxSqDistance, r)
  {
    var e := FloorCell(eye);
    forall j | 0 <= j < |r.visits|
      ensures Occludes(r.visits[j], solids + {e}) == Occludes(r.visits[j], solids - {e})
    {
      if j == 0 {
        assert r.visits[0].traveled == 0.0;
      } else {
        assert r.visits[j].cell != e;
      }
    }
    TraversalSeesIff(r.visits, 0, r.final, target, solids + {e});
    TraversalSeesIff(r.visits, 0, r.final, target, solids - {e});
  }

  /** An occluder strictly before the target's cell, with the target not reached earlier, hides it. */
  lemma OccluderBeforeTargetHides(eye: Point, target: Voxel, solids: set<Voxel>, maxSqDistance: real, r: Ray, k: nat)
    requires SqDist(Center(target), eye) != 0.0
    requires k < |r.visits| && Occludes(r.visits[k], solids) && r.visits[k].cell != target
    requires forall j :: 0 <= j < k ==> r.visits[j].cell != target
    ensures !LineOfSight(eye, target, solids, maxSqDistance, r)
  {
    TraversalSeesIff(r.visits, 0, r.final, target, solids);
  }

  /**
   * The occluder test is on the distance travelled, not on leaving the eye's cell. For an eye on
   * a cell boundary (x = 5.0) looking along -x, the traversal enters the neighbouring cell (4, 0, 0)
   * having travelled nothing, so a solid block there does not hide the target (3, 0, 0); the same
   * block reached at a positive distance does. The traversal from this eye always enters
   * (4, 0, 0) at distance zero (`t_max_x` starts at 0); the ray `later` is not one it produces
   * and serves only as a contrast for the occluder test.
   */
  lemma BoundaryNeighborDoesNotOcclude()
    ensures var eye := Eye(Point(5.0, -1.0, 0.5), 1.5);
      var atZero := Ray([Visit(Voxel(5, 0, 0), 0.0), Visit(Voxel(4, 0, 0), 0.0), Visit(Voxel(3, 0, 0), 1.0)], Voxel(3, 0, 0));
      var later := Ray([Visit(Voxel(5, 0, 0), 0.0), Visit(Voxel(4, 0, 0), 0.5), Visit(Voxel(3, 0, 0), 1.0)], Voxel(3, 0, 0));
      && WellFormedRay(eye, atZero) && WellFormedRay(eye, later)
      && LineOfSight(eye, Voxel(3, 0, 0), {Voxel(4, 0, 0)}, 10.0, atZero)
      && !LineOfSight(eye, Voxel(3, 0, 0), {Voxel(4, 0, 0)}, 10.0, later)
  {
  }

  // ---------------------------------------------------------------------------------------------
  // Order-preserving filters

  /** The elements of `s` that `keep` accepts, in order (what the source's append loops build). */
  function Filter<T(!new)>(s: seq<T>, keep: T -> bool): (r: seq<T>)
    ensures |r| <= |s|
    ensures forall x :: x in r <==> x in s && keep(x)
    ensures forall x :: x in r ==> keep(x)
  {
    if s == [] then []
    else Filter(s[..|s| - 1], keep) + (if keep(s[|s| - 1]) then [s[|s| - 1]] else [])
  }

  /** `idx` picks `a` out of `b` in order: increasing positions of `b` holding `a`'s elements. */
  ghost predicate Embeds<T>(idx: seq<int>, a: seq<T>, b: seq<T>)
  {
    && |idx| == |a|
    && (forall k :: 0 <= k < |idx| ==> 0 <= idx[k] < |b| && a[k] == b[idx[k]])
    && (forall k, l :: 0 <= k < l < |idx| ==> idx[k] < idx[l])
  }

  /** `a` is an order-preserving subsequence of `b`. */
  ghost predicate IsSubsequence<T>(a: seq<T>, b: seq<T>)
  {
    exists idx: seq<int> :: Embeds(idx, a, b)
  }

  /** A filter's result is an order-preserving subsequence of its input; `idx` says where each element came from. */
  lemma {:induction false} FilterEmbeds<T(!new)>(s: seq<T>, keep: T -> bool) returns (idx: seq<int>)
    ensures Embeds(idx, Filter(s, keep), s)
  {
    if s == [] {
      idx := [];
    } else {
      var front := s[..|s| - 1];
      var prev := FilterEmbeds(front, keep);
      var r := Filter(front, keep);
      assert forall k :: 0 <= k < |prev| ==> s[prev[k]] == front[prev[k]];
      if keep(s[|s| - 1]) {
        idx := prev + [|s| - 1];
        assert Filter(s, keep) == r + [s[|s| - 1]];
      } else {
        idx := prev;
        assert Filter(s, keep) == r;
      }
    }
  }

  lemma FilterIsSubsequence<T(!new)>(s: seq<T>, keep: T -> bool)
    ensures IsSubsequence(Filter(s, keep), s)
  {
    var idx := FilterEmbeds(s, keep);
  }

  /** A subsequence of a subsequence is a subsequence. */
  lemma SubsequenceIsTransitive<T>(a: seq<T>, b: seq<T>, c: seq<T>)
    requires IsSubsequence(a, b) && IsSubsequence(b, c)
    ensures IsSubsequence(a, c)
  {
    var i1 :| Embeds(i1, a, b);
    var i2 :| Embeds(i2, b, c);
    var idx := seq(|i1|, k requires 0 <= k < |i1| => i2[i1[k]]);
    assert Embeds(idx, a, c);
  }

  /** Filtering a prefix one element longer appends that element when it is kept. */
  lemma FilterStep<T(!new)>(s: seq<T>, i: nat, keep: T -> bool)
    requires i < |s|
    ensures Filter(s[..i + 1], keep) == Filter(s[..i], keep) + (if keep(s[i]) then [s[i]] else [])
  {
    assert s[..i + 1][..i] == s[..i];
  }

  // ---------------------------------------------------------------------------------------------
  // filter_visible_blocks

  /** Every block of the scan, parsed by `BlockInfo.from_dict`. */
  function ParseAll(blocks: seq<RawBlock>): (infos: seq<BlockInfo>)
    ensures |infos| == |blocks|
    ensures forall i :: 0 <= i < |blocks| ==> infos[i] == FromDict(blocks[i])
  {
    seq(|blocks|, i requires 0 <= i < |blocks| => FromDict(blocks[i]))
  }

  /** The positions of the blocks among the first `n` that `from_dict` calls solid: the occluders. */
  function OccluderSet(blocks: seq<RawBlock>, n: nat): set<Voxel>
    requires n <= |blocks|
  {
    set j | 0 <= j < n && FromDict(blocks[j]).isSolid :: FromDict(blocks[j]).ToTuple()
  }

  /** `max_distance`, squared: the largest squared distance from the eye to a block centre, or 0. */
  function MaxSqDistance(infos: seq<BlockInfo>, eye: Point): real
  {
    if infos == [] then 0.0
    else
      var rest := MaxSqDistance(infos[..|infos| - 1], eye);
      var d := SqDist(Center(infos[|infos| - 1].ToTuple()), eye);
      if d > rest then d else rest
  }

  /** The farthest centre bounds every centre, is non-negative, and is attained when positive. */
  lemma {:induction false} MaxSqDistanceBounds(infos: seq<BlockInfo>, eye: Point)
    ensures MaxSqDistance(infos, eye) >= 0.0
    ensures forall i :: 0 <= i < |infos| ==> SqDist(Center(infos[i].ToTuple()), eye) <= MaxSqDistance(infos, eye)
    ensures MaxSqDistance(infos, eye) > 0.0 ==>
      exists i :: 0 <= i < |infos| && SqDist(Center(infos[i].ToTuple()), eye) == MaxSqDistance(infos, eye)
  {
    if infos != [] {
      var front := infos[..|infos| - 1];
      MaxSqDistanceBounds(front, eye);
      forall i | 0 <= i < |front| ensures infos[i] == front[i] { }
      if MaxSqDistance(front, eye) > 0.0 && MaxSqDistance(infos, eye) == MaxSqDistance(front, eye) {
        var i :| 0 <= i < |front| && SqDist(Center(front[i].ToTuple()), eye) == MaxSqDistance(front, eye);
        assert infos[i] == front[i];
      }
    }
  }

  /**
   * `filter_visible_blocks` asks a block that is neither solid nor liquid to rest on a solid
   * block before it tests its line of sight.
   */
  predicate Considered(info: BlockInfo, solids: set<Voxel>)
  {
    info.isSolid || info.isLiquid || Voxel(info.x, info.y - 1, info.z) in solids
  }

  /** Block `b` passes `filter_visible_blocks`, for a given eye, occluders, farthest distance and rays. */
  predicate Visible(b: RawBlock, eye: Point, solids: set<Voxel>, maxSq: real, rays: Voxel -> Ray)
  {
    var info := FromDict(b);
    Considered(info, solids) && LineOfSight(eye, info.ToTuple(), solids, maxSq, rays(info.ToTuple()))
  }

  /** `Visible` as the test of a filter. */
  function VisibleKeep(eye: Point, solids: set<Voxel>, maxSq: real, rays: Voxel -> Ray): RawBlock -> bool
  {
    b => Visible(b, eye, solids, maxSq, rays)
  }

  /**
   * What `filter_visible_blocks` returns for `observer`, `blocks` and `eye_height`, where
   * `rays(t)` lists the cells the traversal from the eye to block `t` visits.
   */
  function VisibleBlocks(observer: Point, blocks: seq<RawBlock>, eyeHeight: real, rays: Voxel -> Ray): seq<RawBlock>
  {
    var eye := Eye(observer, eyeHeight);
    Filter(blocks, VisibleKeep(eye, OccluderSet(blocks, |blocks|), MaxSqDistance(ParseAll(blocks), eye), rays))
  }

  /** The first loop of `filter_visible_blocks`: parse every block and collect the occluders. */
  method ParseBlocks(blocks: seq<RawBlock>) returns (infos: seq<BlockInfo>, solids: set<Voxel>)
    ensures infos == ParseAll(blocks)
    ensures solids == OccluderSet(blocks, |blocks|)
  {
    infos, solids := [], {};
    for i := 0 to |blocks|
      invariant infos == ParseAll(blocks[..i])
      invariant solids == OccluderSet(blocks, i)
    {
      var info := FromDict(blocks[i]);
      infos := infos + [info];
      if info.isSolid {
        solids := solids + {info.ToTuple()};
      }
      assert OccluderSet(blocks, i + 1) == OccluderSet(blocks, i) + (if info.isSolid then {info.ToTuple()} else {});
    }
    assert blocks[..|blocks|] == blocks;
  }

  /** The loop computing `max_distance`, squared: the farthest block centre from the eye. */
  method FarthestCenter(infos: seq<BlockInfo>, eye: Point) returns (maxSq: real)
    ensures maxSq == MaxSqDistance(infos, eye)
  {
    maxSq := 0.0;
    for i := 0 to |infos|
      invariant maxSq == MaxSqDistance(infos[..i], eye)
    {
      var d := SqDist(Center(infos[i].ToTuple()), eye);
      if d > maxSq {
        maxSq := d;
      }
      assert infos[..i + 1][..i] == infos[..i];
    }
    assert infos[..|infos|] == infos;
  }

  /** `filter_visible_blocks`: the blocks, in order, that the eye sees. */
  method FilterVisibleBlocks(observer: Point, blocks: seq<RawBlock>, eyeHeight: real, rays: Voxel -> Ray)
    returns (visible: seq<RawBlock>)
    ensures visible == VisibleBlocks(observer, blocks, eyeHeight, rays)
  {
    var eye := Eye(observer, eyeHeight);
    var infos, solids := ParseBlocks(blocks);
    var maxSq := FarthestCenter(infos, eye);
    ghost var keep := VisibleKeep(eye, solids, maxSq, rays);
    visible := [];
    for i := 0 to |infos|
      invariant visible == Filter(blocks[..i], keep)
    {
      FilterStep(blocks, i, keep);
      assert infos[i] == FromDict(blocks[i]);
      var seen := CheckBlock(infos[i], eye, solids, maxSq, rays);
      if seen {
        visible := visible + [blocks[i]];
      }
    }
    assert blocks[..|blocks|] == blocks;
  }

  /** The body of the second loop of `filter_visible_blocks`: is one parsed block kept? */
  method CheckBlock(info: BlockInfo, eye: Point, solids: set<Voxel>, maxSq: real, rays: Voxel -> Ray)
    returns (seen: bool)
    ensures seen <==> Considered(info, solids) && LineOfSight(eye, info.ToTuple(), solids, maxSq, rays(info.ToTuple()))
  {
    var target := info.ToTuple();
    if !info.isSolid && !info.isLiquid {
      var below := Voxel(info.x, info.y - 1, info.z);
      if below !in solids {
        return false;
      }
    }
    seen := LineOfSight(eye, target, solids, maxSq, rays(target));
  }

  /** `filter_visible_blocks` returns an order-preserving subsequence of its input. */
  lemma VisibleIsSubsequence(observer: Point, blocks: seq<RawBlock>, eyeHeight: real, rays: Voxel -> Ray)
    ensures IsSubsequence(VisibleBlocks(observer, blocks, eyeHeight, rays), blocks)
  {
    var eye := Eye(observer, eyeHeight);
    FilterIsSubsequence(blocks, VisibleKeep(eye, OccluderSet(blocks, |blocks|), MaxSqDistance(ParseAll(blocks), eye), rays));
  }

  /**
   * A block is visible exactly when it is in the scan, rests on an occluder unless it is solid or
   * liquid, and is in line of sight with the occluders and the farthest distance of the scan.
   */
  lemma VisibleIff(observer: Point, blocks: seq<RawBlock>, eyeHeight: real, rays: Voxel -> Ray, b: RawBlock)
    ensures b in VisibleBlocks(observer, blocks, eyeHeight, rays) <==>
      var eye := Eye(observer, eyeHeight);
      var solids := OccluderSet(blocks, |blocks|);
      var p := FromDict(b).ToTuple();
      && b in blocks
      && Considered(FromDict(b), solids)
      && LineOfSight(eye, p, solids, MaxSqDistance(ParseAll(blocks), eye), rays(p))
  {
  }

  /** A visible block that is neither solid nor liquid rests on a solid block of the scan. */
  lemma VisibleItemRestsOnSolid(observer: Point, blocks: seq<RawBlock>, eyeHeight: real, rays: Voxel -> Ray, b: RawBlock)
    requires b in VisibleBlocks(observer, blocks, eyeHeight, rays)
    requires !FromDict(b).isSolid && !FromDict(b).isLiquid
    ensures var p := FromDict(b).ToTuple();
      exists j :: 0 <= j < |blocks| && FromDict(blocks[j]).isSolid && FromDict(blocks[j]).ToTuple() == Voxel(p.x, p.y - 1, p.z)
  {
    VisibleIff(observer, blocks, eyeHeight, rays, b);
  }

  /**
   * A loose item (neither solid nor liquid, such as a loose flint or tall grass) of the scan is
   * visible exactly when the position below it is solid and its line of sight is clear.
   */
  lemma LooseItemVisibleIff(observer: Point, blocks: seq<RawBlock>, eyeHeight: real, rays: Voxel -> Ray, b: RawBlock)
    requires b in blocks
    requires !FromDict(b).isSolid && !FromDict(b).isLiquid
    ensures b in VisibleBlocks(observer, blocks, eyeHeight, rays) <==>
      var eye := Eye(observer, eyeHeight);
      var p := FromDict(b).ToTuple();
      var solids := OccluderSet(blocks, |blocks|);
      && Voxel(p.x, p.y - 1, p.z) in solids
      && LineOfSight(eye, p, solids, MaxSqDistance(ParseAll(blocks), eye), rays(p))
  {
    VisibleIff(observer, blocks, eyeHeight, rays, b);
  }

  /** The distance cut-off never hides a block of the scan: every centre is within `max_distance`. */
  lemma ScanIsWithinMaxDistance(observer: Point, blocks: seq<RawBlock>, eyeHeight: real, rays: Voxel -> Ray, i: nat)
    requires i < |blocks|
    ensures var eye := Eye(observer, eyeHeight);
      var p := FromDict(blocks[i]).ToTuple();
      SqDist(Center(p), eye) <= MaxSqDistance(ParseAll(blocks), eye)
  {
    MaxSqDistanceBounds(ParseAll(blocks), Eye(observer, eyeHeight));
  }

  // ---------------------------------------------------------------------------------------------
  // get_visible_surface_blocks

  /** The six face offsets in the order `get_visible_surface_blocks` tries them. */
  const FaceOffsets: seq<(int, int, int)> := [(1, 0, 0), (-1, 0, 0), (0, 1, 0), (0, -1, 0), (0, 0, 1), (0, 0, -1)]

  /** The neighbour of `p` across face `k`. */
  function FaceNeighbor(p: Voxel, k: nat): Voxel
    requires k < |FaceOffsets|
  {
    Voxel(p.x + FaceOffsets[k].0, p.y + FaceOffsets[k].1, p.z + FaceOffsets[k].2)
  }

  /** Some face of `p` borders a position that is not solid. */
  predicate ExposedFace(p: Voxel, solids: set<Voxel>)
  {
    exists k :: 0 <= k < |FaceOffsets| && FaceNeighbor(p, k) !in solids
  }

  /** The `has_exposed_face` loop: try the faces in order, stop at the first open one. */
  method HasExposedFace(p: Voxel, solids: set<Voxel>) returns (exposed: bool)
    ensures exposed <==> ExposedFace(p, solids)
  {
    exposed := false;
    for k := 0 to |FaceOffsets|
      invariant !exposed
      invariant forall j :: 0 <= j < k ==> FaceNeighbor(p, j) in solids
    {
      var (dx, dy, dz) := FaceOffsets[k];
      var neighbor := Voxel(p.x + dx, p.y + dy, p.z + dz);
      if neighbor !in solids {
        assert FaceNeighbor(p, k) !in solids;
        exposed := true;
        break;
      }
    }
  }

  /** A visible block is a surface block: a liquid when liquids are wanted, a non-solid item, or an exposed solid. */
  predicate SurfaceBlock(b: RawBlock, solids: set<Voxel>, includeLiquids: bool)
  {
    var info := FromDict(b);
    if info.isLiquid then includeLiquids
    else if !info.isSolid then true
    else ExposedFace(info.ToTuple(), solids)
  }

  /** `SurfaceBlock` as the test of a filter. */
  function SurfaceKeep(solids: set<Voxel>, includeLiquids: bool): RawBlock -> bool
  {
    b => SurfaceBlock(b, solids, includeLiquids)
  }

  /** What `get_visible_surface_blocks` returns. */
  function SurfaceBlocks(observer: Point, blocks: seq<RawBlock>, eyeHeight: real, includeLiquids: bool,
                         rays: Voxel -> Ray): seq<RawBlock>
  {
    Filter(VisibleBlocks(observer, blocks, eyeHeight, rays), SurfaceKeep(OccluderSet(blocks, |blocks|), includeLiquids))
  }

  /** The loop of `get_visible_surface_blocks` collecting the solid positions of the whole scan. */
  method SolidPositions(blocks: seq<RawBlock>) returns (solids: set<Voxel>)
    ensures solids == OccluderSet(blocks, |blocks|)
  {
    solids := {};
    for i := 0 to |blocks|
      invariant solids == OccluderSet(blocks, i)
    {
      var info := FromDict(blocks[i]);
      if info.isSolid {
        solids := solids + {info.ToTuple()};
      }
      assert OccluderSet(blocks, i + 1) == OccluderSet(blocks, i) + (if info.isSolid then {info.ToTuple()} else {});
    }
  }

  /** `get_visible_surface_blocks`: the visible blocks, in order, that are surface blocks. */
  method GetVisibleSurfaceBlocks(observer: Point, blocks: seq<RawBlock>, eyeHeight: real, includeLiquids: bool,
                                 rays: Voxel -> Ray) returns (surface: seq<RawBlock>)
    ensures surface == SurfaceBlocks(observer, blocks, eyeHeight, includeLiquids, rays)
  {
    var visible := FilterVisibleBlocks(observer, blocks, eyeHeight, rays);
    var solidPositions := SolidPositions(blocks);
    ghost var keep := SurfaceKeep(solidPositions, includeLiquids);
    surface := [];
    for i := 0 to |visible|
      invariant surface == Filter(visible[..i], keep)
    {
      FilterStep(visible, i, keep);
      var blockData := visible[i];
      var info := FromDict(blockData);
      var pos := info.ToTuple();
      if info.isLiquid {
        if includeLiquids {
          surface := surface + [blockData];
        }
        continue;
      }
      if !info.isSolid {
        surface := surface + [blockData];
        continue;
      }
      var exposed := HasExposedFace(pos, solidPositions);
      if exposed {
        surface := surface + [blockData];
      }
    }
    assert visible[..|visible|] == visible;
  }

  /** The surface blocks are an order-preserving subsequence of the visible blocks, and so of the scan. */
  lemma SurfaceIsSubsequenceOfVisible(observer: Point, blocks: seq<RawBlock>, eyeHeight: real, includeLiquids: bool,
                                      rays: Voxel -> Ray)
    ensures IsSubsequence(SurfaceBlocks(observer, blocks, eyeHeight, includeLiquids, rays),
                          VisibleBlocks(observer, blocks, eyeHeight, rays))
    ensures IsSubsequence(SurfaceBlocks(observer, blocks, eyeHeight, includeLiquids, rays), blocks)
  {
    var visible := VisibleBlocks(observer, blocks, eyeHeight, rays);
    FilterIsSubsequence(visible, SurfaceKeep(OccluderSet(blocks, |blocks|), includeLiquids));
    VisibleIsSubsequence(observer, blocks, eyeHeight, rays);
    SubsequenceIsTransitive(SurfaceBlocks(observer, blocks, eyeHeight, includeLiquids, rays), visible, blocks);
  }

  /**
   * Membership in the surface output for a visible block: a liquid exactly when liquids are
   * wanted; a block neither solid nor liquid always; a solid non-liquid exactly when one of its
   * six neighbours is not solid.
   */
  lemma SurfaceMembership(observer: Point, blocks: seq<RawBlock>, eyeHeight: real, includeLiquids: bool,
                          rays: Voxel -> Ray, b: RawBlock)
    requires b in VisibleBlocks(observer, blocks, eyeHeight, rays)
    ensures FromDict(b).isLiquid ==>
      (b in SurfaceBlocks(observer, blocks, eyeHeight, includeLiquids, rays) <==> includeLiquids)
    ensures !FromDict(b).isLiquid && !FromDict(b).isSolid ==>
      b in SurfaceBlocks(observer, blocks, eyeHeight, includeLiquids, rays)
    ensures !FromDict(b).isLiquid && FromDict(b).isSolid ==>
      (b in SurfaceBlocks(observer, blocks, eyeHeight, includeLiquids, rays) <==>
         exists k :: 0 <= k < |FaceOffsets| && FaceNeighbor(FromDict(b).ToTuple(), k) !in OccluderSet(blocks, |blocks|))
  {
  }
}
