/** The page's life cycle in src/app.js: `init()` fills the batcher and
    records one instance range per shape, then every frame `update()`
    bumps the rotations those ranges name. The ranges are counted in
    coordinates (two per vertex) while `p_rotations` holds one entry per
    vertex; the lemmas here say what `update()` then does to the rotations,
    as written and with the ranges counted in vertices. The two circle
    demonstrations show the index offset of `addCircle`. */
module BatcherRun {
  import opened Common
  import Attributes
  import opened Batcher

  /** `rs` after `p_rotations[k] += 0.01` for k = lo .. hi - 1 in turn. */
  function Bumped(rs: seq<Number>, lo: nat, hi: nat): seq<Number>
    requires lo <= hi
    decreases hi
  {
    if hi == lo then rs else BumpAt(Bumped(rs, lo, hi - 1), hi - 1)
  }

  /** Entry by entry: those in lo .. hi - 1 that existed are bumped once,
      the others that existed are unchanged, and the array grows to `hi`
      entries, every new one NaN, when `hi` passes its end. */
  lemma {:induction false} BumpedEntries(rs: seq<Number>, lo: nat, hi: nat)
    requires lo <= hi
    ensures |Bumped(rs, lo, hi)| == if lo < hi && |rs| < hi then hi else |rs|
    ensures forall k | 0 <= k < |Bumped(rs, lo, hi)| ::
      Bumped(rs, lo, hi)[k] == if k >= |rs| then NaN else if lo <= k < hi then Inc(rs[k]) else rs[k]
  {
    if hi > lo {
      BumpedEntries(rs, lo, hi - 1);
    }
  }

  /** One instance's inner loop continues the sweep where the last one ended. */
  lemma {:induction false} BumpRangeContinues(rs: seq<Number>, lo: nat, start: nat, c: nat, hi: nat)
    requires lo <= start && hi == start + c
    ensures BumpRange(Bumped(rs, lo, start), start, c) == Bumped(rs, lo, hi)
  {
    if c > 0 {
      BumpRangeContinues(rs, lo, start, c - 1, hi - 1);
    }
  }

  /** When the instance ranges tile lo .. hi, `update()` is one sweep over lo .. hi. */
  lemma {:induction false} TiledUpdate(rs: seq<Number>, insts: seq<InstanceIndex>, lo: nat, hi: int)
    requires Tiles(insts, lo, hi)
    ensures lo <= hi
    ensures BumpAll(rs, insts) == Bumped(rs, lo, hi)
  {
    if insts != [] {
      var last := insts[|insts| - 1];
      TiledUpdate(rs, insts[..|insts| - 1], lo, last.start);
      BumpRangeContinues(rs, lo, last.start, last.count, hi);
    }
  }

  /** Ranges counted in vertices that tile the rotations bump every rotation
      exactly once and leave the array's length alone. */
  lemma UpdateByVertex(rs: seq<Number>, insts: seq<InstanceIndex>)
    requires Tiles(insts, 0, |rs|)
    ensures |BumpAll(rs, insts)| == |rs|
    ensures forall k | 0 <= k < |rs| :: BumpAll(rs, insts)[k] == Inc(rs[k])
  {
    TiledUpdate(rs, insts, 0, |rs|);
    BumpedEntries(rs, 0, |rs|);
  }

  /** Ranges counted in coordinates span twice the rotations: every rotation
      is bumped once, and the array doubles in length with NaN entries. */
  lemma UpdateByCoordinate(rs: seq<Number>, insts: seq<InstanceIndex>)
    requires Tiles(insts, 0, 2 * |rs|)
    ensures |BumpAll(rs, insts)| == 2 * |rs|
    ensures forall k | 0 <= k < |rs| :: BumpAll(rs, insts)[k] == Inc(rs[k])
    ensures forall k | |rs| <= k < 2 * |rs| :: BumpAll(rs, insts)[k] == NaN
  {
    TiledUpdate(rs, insts, 0, 2 * |rs|);
    BumpedEntries(rs, 0, 2 * |rs|);
  }

  /** `init()` then one `update()`, as written, from the empty batcher:
      `before` is the rotations `init()` left. The first frame doubles
      `p_rotations`, the second half NaN. */
  method InitThenUpdate(vertices: seq<Vec2>, draws: seq<Draw>, renderAsCircles: bool,
                        atan2: (real, real) -> real)
    returns (before: seq<Number>, after: seq<Number>)
    ensures |before| == |draws| * ShapeVertices(renderAsCircles, |vertices|)
    ensures |after| == 2 * |before|
    ensures forall k | 0 <= k < |before| :: after[k] == Inc(before[k])
    ensures forall k | |before| <= k < |after| :: after[k] == NaN
  {
    var b := new Batcher();
    b.InitShapes(vertices, draws, renderAsCircles, atan2);
    before := b.rotations;
    assert Tiles(b.instanceIndices, 0, 2 * |before|);
    UpdateByCoordinate(before, b.instanceIndices);
    b.Update();
    after := b.rotations;
  }

  /** The same with the ranges counted in vertices: every rotation is bumped
      once and nothing is added. */
  method InitThenUpdateByVertex(vertices: seq<Vec2>, draws: seq<Draw>, renderAsCircles: bool,
                                atan2: (real, real) -> real)
    returns (before: seq<Number>, after: seq<Number>)
    ensures |before| == |draws| * ShapeVertices(renderAsCircles, |vertices|)
    ensures |after| == |before|
    ensures forall k | 0 <= k < |before| :: after[k] == Inc(before[k])
  {
    var b := new Batcher();
    b.InitShapesByVertex(vertices, draws, renderAsCircles, atan2);
    before := b.rotations;
    assert Tiles(b.instanceIndices, 0, |before|);
    UpdateByVertex(before, b.instanceIndices);
    b.Update();
    after := b.rotations;
  }

  /** Two circles with `addCircle` as written: the second quad's indices
      start at 8, a coordinate count, though only 8 vertices exist. */
  method TwoCircles(size: real, offset: Vec2, color: Color) returns (indices: seq<int>, vertexCount: nat)
    ensures vertexCount == 8
    ensures indices == QuadIndices(0) + QuadIndices(8)
    ensures exists k | 0 <= k < |indices| :: indices[k] >= vertexCount
  {
    var b := new Batcher();
    b.AddCircle(size, offset, color);
    b.AddCircle(size, offset, color);
    indices, vertexCount := b.indices, |b.coords| / 2;
    assert indices[6] == 8;
  }

  /** Two circles with the corrected offset: the quads are 0 .. 3 and 4 .. 7,
      every index names one of the 8 vertices. */
  method TwoCirclesCorrected(size: real, offset: Vec2, color: Color) returns (indices: seq<int>, vertexCount: nat)
    ensures vertexCount == 8
    ensures indices == QuadIndices(0) + QuadIndices(4)
    ensures forall k | 0 <= k < |indices| :: 0 <= indices[k] < vertexCount
  {
    var b := new Batcher();
    b.AddCircleCorrected(size, offset, color);
    b.AddCircleCorrected(size, offset, color);
    indices, vertexCount := b.indices, |b.coords| / 2;
  }
}
