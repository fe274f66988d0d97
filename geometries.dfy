/**
 * The line algebra, the vector helpers and the two memoised shape geometries of
 * geometries.ts. Coordinates are reals: floating-point rounding is not modelled.
 */
module Geometries {
  import opened Wrappers
  import opened Vectors
  import LinearFunction

  // ---------------------------------------------------------------------------
  // Line: a·x + b·y + c = 0
  // ---------------------------------------------------------------------------

  datatype Line = Line(a: real, b: real, c: real)

  const ParallelError: string := "Lines are parallel"

  /** `Line.test`: the signed residual of `p` against the line; zero exactly on it. */
  function Test(l: Line, p: Vec2): real
  {
    l.a * p.x + l.b * p.y + l.c
  }

  /** The determinant `intersection` divides by. */
  function Delta(l: Line, other: Line): real
  {
    l.a * other.b - other.a * l.b
  }

  /** The 2D cross product of two direction vectors. */
  function Cross(d: Vec2, e: Vec2): real
  {
    d.x * e.y - d.y * e.x
  }

  /** `Line.withPoints`: the line through `lhs` and `rhs`. */
  function WithPoints(lhs: Vec2, rhs: Vec2): (l: Line)
    ensures Test(l, lhs) == 0.0 && Test(l, rhs) == 0.0
    ensures lhs != rhs ==> l.a != 0.0 || l.b != 0.0
  {
    Line(lhs.y - rhs.y, rhs.x - lhs.x, lhs.x * rhs.y - rhs.x * lhs.y)
  }

  /**
   * `Line.intersection`: throws 'Lines are parallel' exactly when the determinant
   * is zero, and otherwise returns a point that lies on both lines.
   */
  function Intersection(l: Line, other: Line): (r: Result<Vec2>)
    ensures r.Failure? <==> Delta(l, other) == 0.0
    ensures r.Failure? ==> r.error == ParallelError
    ensures r.Success? ==> Test(l, r.value) == 0.0 && Test(other, r.value) == 0.0
  {
    var delta := Delta(l, other);
    if delta == 0.0 then
      Failure(ParallelError)
    else
      var x := (other.b * l.c - l.b * other.c) / delta;
      var y := (l.a * other.c - other.a * l.c) / delta;
      IntersectionOnBothLines(l, other);
      Success(Vec2(-x, -y))
  }

  /** Cramer's rule: the point `Intersection` computes satisfies both line equations. */
  lemma IntersectionOnBothLines(l: Line, other: Line)
    requires Delta(l, other) != 0.0
    ensures var delta := Delta(l, other);
            var p := Vec2(-((other.b * l.c - l.b * other.c) / delta), -((l.a * other.c - other.a * l.c) / delta));
            Test(l, p) == 0.0 && Test(other, p) == 0.0
  {
    var delta := Delta(l, other);
    var nx := other.b * l.c - l.b * other.c;
    var ny := l.a * other.c - other.a * l.c;
    assert l.a * nx + l.b * ny == l.c * delta;
    assert other.a * nx + other.b * ny == other.c * delta;
    var p := Vec2(-(nx / delta), -(ny / delta));
    assert Test(l, p) == -((l.a * nx + l.b * ny) / delta) + l.c;
    assert Test(other, p) == -((other.a * nx + other.b * ny) / delta) + other.c;
  }

  /** When the lines are not parallel, the intersection is their only common point. */
  lemma IntersectionUnique(l: Line, other: Line, p: Vec2)
    requires Delta(l, other) != 0.0
    requires Test(l, p) == 0.0 && Test(other, p) == 0.0
    ensures Intersection(l, other) == Success(p)
  {
    var delta := Delta(l, other);
    var nx := other.b * l.c - l.b * other.c;
    var ny := l.a * other.c - other.a * l.c;
    assert l.a * p.x + l.b * p.y == -l.c;
    assert other.a * p.x + other.b * p.y == -other.c;
    calc {
      delta * p.x;
      other.b * (l.a * p.x) - l.b * (other.a * p.x);
      other.b * (-l.c - l.b * p.y) - l.b * (-other.c - other.b * p.y);
      -nx;
    }
    calc {
      delta * p.y;
      l.a * (other.b * p.y) - other.a * (l.b * p.y);
      l.a * (-other.c - other.a * p.x) - other.a * (-l.c - l.a * p.x);
      -ny;
    }
    assert -(nx / delta) == p.x;
    assert -(ny / delta) == p.y;
    assert Intersection(l, other).Success?;
    assert Intersection(l, other).value.x == -(nx / delta);
    assert Intersection(l, other).value.y == -(ny / delta);
  }

  /**
   * A line through `p` and `p + d` has direction `d`: the determinant of two such
   * lines is the cross product of their directions, whatever the anchor points.
   */
  lemma DeltaOfDirectedLines(p: Vec2, d: Vec2, q: Vec2, e: Vec2)
    ensures Delta(WithPoints(p, Add(p, d)), WithPoints(q, Add(q, e))) == Cross(d, e)
  {
  }

  // ---------------------------------------------------------------------------
  // The `v` helpers
  // ---------------------------------------------------------------------------

  /** `v.add`: componentwise sum; `Diff` undoes it. */
  function Add(lhs: Vec2, rhs: Vec2): (r: Vec2)
    ensures Diff(r, rhs) == lhs
  {
    Vec2(lhs.x + rhs.x, lhs.y + rhs.y)
  }

  /** `v.diff`: componentwise difference. */
  function Diff(lhs: Vec2, rhs: Vec2): Vec2
  {
    Vec2(lhs.x - rhs.x, lhs.y - rhs.y)
  }

  /** `Add` undoes `Diff`: the two helpers are inverse translations. */
  lemma AddUndoesDiff(lhs: Vec2, rhs: Vec2)
    ensures Add(Diff(lhs, rhs), rhs) == lhs
  {
  }

  /**
   * `test` against the line through `lhs` and `rhs` is the cross product of the
   * line's direction with `p - lhs`: zero exactly on the line, positive on the left
   * of the direction from `lhs` to `rhs` and negative on its right.
   */
  lemma TestIsSide(lhs: Vec2, rhs: Vec2, p: Vec2)
    ensures Test(WithPoints(lhs, rhs), p) == Cross(Diff(rhs, lhs), Diff(p, lhs))
  {
  }

  // ---------------------------------------------------------------------------
  // Collaborators shared with the path stroker
  // ---------------------------------------------------------------------------

  /** The two wing points of a core point. */
  datatype Wings = Wings(lhs: Vec2, rhs: Vec2)

  /**
   * `makeWings(leading, trailing, width, reverse)`: the points at distance `width`
   * on either side of `leading`, perpendicular to the direction towards `trailing`
   * (reversed when `reverse`). It uses atan2/cos/sin and is left uninterpreted.
   */
  type WingMaker = (Vec2, Vec2, real, bool) -> Wings

  /** `transform.vertex(…, geometryTexelWorldSpace, frame)`: an external coordinate map. */
  type FrameMap = Vec2 -> Vec2

  /** The vertex indices remembered from the previous step of a stroke. */
  datatype StepIndices = StepIndices(core: int, lhsWing: int, rhsWing: int)

  /** The loop state `previous` of both strokers. */
  datatype Previous = Previous(lhsWing: Line, rhsWing: Line, indices: StepIndices)

  /** The three position numbers written for one vertex: frame x, frame y, z = 0. */
  function Lift(p: Vec2): seq<real>
  {
    [p.x, p.y, 0.0]
  }

  /** The `k`-th vertex of a flat position buffer. */
  function VertexAt(positions: seq<real>, k: nat): Vec3
    requires 3 * k + 2 < |positions|
  {
    Vec3(positions[3 * k], positions[3 * k + 1], positions[3 * k + 2])
  }

  // ---------------------------------------------------------------------------
  // PathGeometry: the two-step prototype of the path stroker
  // ---------------------------------------------------------------------------

  /** A finished mesh: flat positions (3 numbers per vertex) and triangle indices. */
  datatype MeshData = MeshData(positions: seq<real>, indices: seq<int>)

  const PrototypeWidth: real := 100.0

  /** The 18 indices of the prototype mesh: start cap, then one joint. */
  const PrototypeIndices: seq<int> := [0, 2, 1, 0, 1, 3, 4, 1, 2, 5, 3, 1, 6, 1, 4, 6, 5, 1]

  /** The variables the prototype's `forEach` callback captures: `verts`, `inds`, `previous`. */
  datatype PrototypeState = PrototypeState(verts: seq<real>, inds: seq<int>, previous: Option<Previous>)

  /** The wing lines of the first segment, as the start step builds them. */
  function PrototypeLines(coords: seq<Vec2>, wings: WingMaker): Previous
    requires |coords| >= 2
  {
    var d := Diff(coords[1], coords[0]);
    var w := wings(coords[0], coords[1], PrototypeWidth, true);
    Previous(WithPoints(w.lhs, Add(w.lhs, d)), WithPoints(w.rhs, Add(w.rhs, d)), StepIndices(1, 2, 3))
  }

  /** The joint at point 1 is parallel: its two segments have the same direction. */
  predicate PrototypeParallel(coords: seq<Vec2>)
    requires |coords| >= 3
  {
    Cross(Diff(coords[1], coords[0]), Diff(coords[2], coords[1])) == 0.0
  }

  /**
   * The buffers after the callback has run for points 0 to k - 1: empty; the start
   * cap, with the first segment's wing lines remembered; or the start cap and the
   * joint at point 1, which is then never parallel.
   */
  ghost predicate PrototypeAfter(coords: seq<Vec2>, toFrame: FrameMap, wings: WingMaker, k: nat, st: PrototypeState)
  {
    if k == 0 then st == PrototypeState([], [], None)
    else
      && |coords| >= 2
      && st.previous == Some(PrototypeLines(coords, wings))
      && |st.verts| >= 12 && st.verts[..6] == Lift(toFrame(coords[0])) + Lift(toFrame(coords[1]))
      && (forall j :: 0 <= j < |st.verts| / 3 ==> st.verts[3 * j + 2] == 0.0)
      && if k == 1 then |st.verts| == 12 && st.inds == PrototypeIndices[..6]
         else
           && |coords| >= 3 && !PrototypeParallel(coords)
           && |st.verts| == 21 && st.inds == PrototypeIndices && st.verts[18..] == Lift(toFrame(coords[2]))
  }

  /** The start step leaves the buffers in their state after point 0. */
  lemma PrototypeStarted(coords: seq<Vec2>, toFrame: FrameMap, wings: WingMaker, st: PrototypeState)
    requires |coords| >= 2
    requires var w := wings(coords[0], coords[1], PrototypeWidth, true);
             && st.verts == Lift(toFrame(coords[0])) + Lift(toFrame(coords[1])) + Lift(toFrame(w.lhs)) + Lift(toFrame(w.rhs))
             && st.inds == [0, 2, 1, 0, 1, 3]
             && st.previous == Some(PrototypeLines(coords, wings))
    ensures PrototypeAfter(coords, toFrame, wings, 1, st)
  {
    var v := st.verts;
    assert v[..6] == Lift(toFrame(coords[0])) + Lift(toFrame(coords[1]));
    assert v[2] == 0.0 && v[5] == 0.0 && v[8] == 0.0 && v[11] == 0.0;
  }

  /** The joint step at point 1 leaves the buffers in their final state. */
  lemma PrototypeJoined(coords: seq<Vec2>, toFrame: FrameMap, wings: WingMaker, st: PrototypeState, st': PrototypeState, lhs: Vec2, rhs: Vec2)
    requires |coords| >= 3 && !PrototypeParallel(coords) && PrototypeAfter(coords, toFrame, wings, 1, st)
    requires st'.verts == st.verts + Lift(toFrame(lhs)) + Lift(toFrame(rhs)) + Lift(toFrame(coords[2]))
    requires st'.inds == st.inds + [4, 1, 2, 5, 3, 1] + [6, 1, 4, 6, 5, 1]
    requires st'.previous == st.previous
    ensures PrototypeAfter(coords, toFrame, wings, 2, st')
  {
    var v := st'.verts;
    assert v[..6] == st.verts[..6];
    assert v[18..] == Lift(toFrame(coords[2]));
    forall j | 0 <= j < |v| / 3 ensures v[3 * j + 2] == 0.0 {
      if j < 4 {
        assert v[3 * j + 2] == st.verts[3 * j + 2];
      }
    }
  }

  /**
   * The `forEach` callback of `PathGeometry.shapeGeometry` at point `index`. It does
   * nothing past point 1; otherwise it reads the next point, which is undefined at the
   * last point and makes `v.diff` throw. At point 0 it adds the start cap, at point 1
   * one mitered joint, where parallel wing lines make `intersection` throw.
   */
  method PrototypeVisit(coords: seq<Vec2>, toFrame: FrameMap, wings: WingMaker, index: nat, st: PrototypeState)
    returns (r: Result<PrototypeState>)
    requires index < |coords| && PrototypeAfter(coords, toFrame, wings, index, st)
    ensures r.Failure? <==> (index <= 1 && index + 1 == |coords|) || (index == 1 && PrototypeParallel(coords))
    ensures r.Failure? ==> r.error == if index + 1 == |coords| then UndefinedError else ParallelError
    ensures r.Success? ==> PrototypeAfter(coords, toFrame, wings, index + 1, r.value)
  {
    if index > 1 {
      return Success(st);
    }
    var verts, inds, previous := st.verts, st.inds, st.previous;
    var currentCore := coords[index];
    if index + 1 == |coords| {
      return Failure(UndefinedError);
    }
    var nextCore := coords[index + 1];
    var normalizedCore := Diff(nextCore, currentCore);
    if previous.None? {
      var w := wings(currentCore, nextCore, PrototypeWidth, true);
      verts := verts + Lift(toFrame(currentCore)) + Lift(toFrame(nextCore)) + Lift(toFrame(w.lhs)) + Lift(toFrame(w.rhs));
      inds := inds + [0, 2, 1, 0, 1, 3];
      var lhsWingLine := WithPoints(w.lhs, Add(w.lhs, normalizedCore));
      var rhsWingLine := WithPoints(w.rhs, Add(w.rhs, normalizedCore));
      previous := Some(Previous(lhsWingLine, rhsWingLine, StepIndices(1, 2, 3)));
      PrototypeStarted(coords, toFrame, wings, PrototypeState(verts, inds, previous));
      return Success(PrototypeState(verts, inds, previous));
    }
    var prev := previous.value;
    var w := wings(currentCore, nextCore, PrototypeWidth, true);
    var w0 := wings(coords[0], coords[1], PrototypeWidth, true);
    DeltaOfDirectedLines(w0.lhs, Diff(coords[1], coords[0]), w.lhs, normalizedCore);
    DeltaOfDirectedLines(w0.rhs, Diff(coords[1], coords[0]), w.rhs, normalizedCore);
    var lhsIntersection := Intersection(prev.lhsWing, WithPoints(w.lhs, Add(w.lhs, normalizedCore)));
    var rhsIntersection := Intersection(prev.rhsWing, WithPoints(w.rhs, Add(w.rhs, normalizedCore)));
    if lhsIntersection.Failure? || rhsIntersection.Failure? {
      return Failure(ParallelError);
    }
    verts := verts + Lift(toFrame(lhsIntersection.value)) + Lift(toFrame(rhsIntersection.value));
    var lhsWingIndex := |verts| / 3 - 2;
    var rhsWingIndex := lhsWingIndex + 1;
    inds := inds + [lhsWingIndex, prev.indices.core, prev.indices.lhsWing,
                    rhsWingIndex, prev.indices.rhsWing, prev.indices.core];
    verts := verts + Lift(toFrame(nextCore));
    var nextCoreIndex := |verts| / 3 - 1;
    inds := inds + [nextCoreIndex, prev.indices.core, lhsWingIndex,
                    nextCoreIndex, rhsWingIndex, prev.indices.core];
    PrototypeJoined(coords, toFrame, wings, st, PrototypeState(verts, inds, previous), lhsIntersection.value, rhsIntersection.value);
    return Success(PrototypeState(verts, inds, previous));
  }

  /** The buffers of a completed prototype, read back vertex by vertex. */
  lemma PrototypeVertices(coords: seq<Vec2>, toFrame: FrameMap, wings: WingMaker, st: PrototypeState)
    requires |coords| >= 3 && PrototypeAfter(coords, toFrame, wings, 2, st)
    ensures |st.verts| == 3 * 7 && st.inds == PrototypeIndices
    ensures VertexAt(st.verts, 0) == Vec3(toFrame(coords[0]).x, toFrame(coords[0]).y, 0.0)
    ensures VertexAt(st.verts, 1) == Vec3(toFrame(coords[1]).x, toFrame(coords[1]).y, 0.0)
    ensures VertexAt(st.verts, 6) == Vec3(toFrame(coords[2]).x, toFrame(coords[2]).y, 0.0)
    ensures forall k :: 0 <= k < 7 ==> st.verts[3 * k + 2] == 0.0
  {
    assert st.verts[0] == st.verts[..6][0] && st.verts[1] == st.verts[..6][1] && st.verts[2] == st.verts[..6][2];
    assert st.verts[3] == st.verts[..6][3] && st.verts[4] == st.verts[..6][4] && st.verts[5] == st.verts[..6][5];
    assert st.verts[18] == st.verts[18..][0] && st.verts[19] == st.verts[18..][1] && st.verts[20] == st.verts[18..][2];
  }

  /**
   * The body of `PathGeometry.shapeGeometry`: the loop visits every point but acts
   * only on points 0 (start cap) and 1 (one mitered joint), so any input of three or
   * more points yields 7 vertices and 18 indices, unless the joint's wing lines are
   * parallel, which throws. One point reads `coordinatesList[1]` and two points read
   * `coordinatesList[2]`; `v.diff` then reads a field of `undefined` and throws.
   */
  method BuildPrototypeMesh(coords: seq<Vec2>, toFrame: FrameMap, wings: WingMaker) returns (r: Result<MeshData>)
    ensures |coords| == 0 ==> r == Success(MeshData([], []))
    ensures |coords| == 1 || |coords| == 2 ==> r == Failure(UndefinedError)
    ensures |coords| >= 3 ==> (r.Failure? <==> PrototypeParallel(coords))
    ensures |coords| >= 3 && r.Failure? ==> r.error == ParallelError
    ensures r.Success? && |coords| >= 3 ==>
              && |r.value.positions| == 3 * 7
              && r.value.indices == PrototypeIndices
              && VertexAt(r.value.positions, 0) == Vec3(toFrame(coords[0]).x, toFrame(coords[0]).y, 0.0)
              && VertexAt(r.value.positions, 1) == Vec3(toFrame(coords[1]).x, toFrame(coords[1]).y, 0.0)
              && VertexAt(r.value.positions, 6) == Vec3(toFrame(coords[2]).x, toFrame(coords[2]).y, 0.0)
              && (forall k :: 0 <= k < 7 ==> r.value.positions[3 * k + 2] == 0.0)
  {
    var st := PrototypeState([], [], None);
    var index := 0;
    while index < |coords|
      invariant 0 <= index <= |coords|
      invariant PrototypeAfter(coords, toFrame, wings, index, st)
    {
      var next := PrototypeVisit(coords, toFrame, wings, index, st);
      if next.Failure? {
        return Failure(next.error);
      }
      st := next.value;
      index := index + 1;
    }
    if |coords| >= 3 {
      PrototypeVertices(coords, toFrame, wings, st);
    }
    return Success(MeshData(st.verts, st.inds));
  }

  /** Every index of the prototype mesh names one of its 7 vertices. */
  lemma PrototypeIndicesValid()
    ensures |PrototypeIndices| == 18 && |PrototypeIndices| % 3 == 0
    ensures forall j :: 0 <= j < |PrototypeIndices| ==> 0 <= PrototypeIndices[j] < 7
  {
  }

  /** The object `shapeGeometry` returns (a three.js geometry, compared by identity). */
  class BufferGeometry {
    const data: MeshData

    constructor (data: MeshData)
      ensures this.data == data
    {
      this.data := data;
    }
  }

  /** `PathGeometry`: the mesh is built on first read of `shapeGeometry` and cached. */
  class PathGeometry {
    /** The world texels of the geopositions the path goes through. */
    const vertices: seq<Vec2>
    const toFrame: FrameMap
    const wings: WingMaker
    const worldToFrameTransform: LinearFunction.LinearTransform2d
    /** `_shapeGeometry`: unset until the first successful read. */
    var cache: Option<BufferGeometry>

    constructor (vertices: seq<Vec2>, toFrame: FrameMap, wings: WingMaker, worldToFrameTransform: LinearFunction.LinearTransform2d)
      ensures this.vertices == vertices && this.toFrame == toFrame && this.wings == wings
      ensures this.worldToFrameTransform == worldToFrameTransform
      ensures cache.None?
    {
      this.vertices := vertices;
      this.toFrame := toFrame;
      this.wings := wings;
      this.worldToFrameTransform := worldToFrameTransform;
      cache := None;
    }

    /** The `shapeGeometry` getter: compute once, then return the same object. */
    method ShapeGeometry() returns (r: Result<BufferGeometry>)
      modifies this
      ensures old(cache).Some? ==> r == Success(old(cache).value) && cache == old(cache)
      ensures old(cache).None? && r.Success? ==>
                fresh(r.value) && cache == Some(r.value) &&
                (|vertices| >= 3 ==> r.value.data.indices == PrototypeIndices && |r.value.data.positions| == 21)
      ensures old(cache).None? ==>
                (r.Failure? <==> |vertices| == 1 || |vertices| == 2 || (|vertices| >= 3 && PrototypeParallel(vertices)))
      ensures old(cache).None? && r.Success? && |vertices| == 0 ==> r.value.data == MeshData([], [])
      ensures old(cache).None? && r.Failure? ==>
                cache.None? &&
                if |vertices| >= 3 then
                  r.error == ParallelError && Cross(Diff(vertices[1], vertices[0]), Diff(vertices[2], vertices[1])) == 0.0
                else
                  r.error == UndefinedError && |vertices| != 0
    {
      if cache.Some? {
        return Success(cache.value);
      }
      var mesh := BuildPrototypeMesh(vertices, toFrame, wings);
      if mesh.Failure? {
        return Failure(mesh.error);
      }
      var geometry := new BufferGeometry(mesh.value);
      cache := Some(geometry);
      return Success(geometry);
    }
  }

  // ---------------------------------------------------------------------------
  // PolygonGeometry
  // ---------------------------------------------------------------------------

  /** `new ShapeBufferGeometry(new Shape(outline))`; the triangulation is three.js's own. */
  class ShapeBufferGeometry {
    const outline: seq<Vec2>

    constructor (outline: seq<Vec2>)
      ensures this.outline == outline
    {
      this.outline := outline;
    }
  }

  /** The frame-space outline of a polygon: every vertex mapped, in order. */
  function FrameOutline(vertices: seq<Vec2>, toFrame: FrameMap): (r: seq<Vec2>)
    ensures |r| == |vertices|
    ensures forall i :: 0 <= i < |vertices| ==> r[i] == toFrame(vertices[i])
  {
    seq(|vertices|, i requires 0 <= i < |vertices| => toFrame(vertices[i]))
  }

  /** `PolygonGeometry`: the same memo field as `PathGeometry`, over a three.js shape. */
  class PolygonGeometry {
    const vertices: seq<Vec2>
    const toFrame: FrameMap
    const worldToFrameTransform: LinearFunction.LinearTransform2d
    var cache: Option<ShapeBufferGeometry>

    constructor (vertices: seq<Vec2>, toFrame: FrameMap, worldToFrameTransform: LinearFunction.LinearTransform2d)
      ensures this.vertices == vertices && this.toFrame == toFrame
      ensures this.worldToFrameTransform == worldToFrameTransform
      ensures cache.None?
    {
      this.vertices := vertices;
      this.toFrame := toFrame;
      this.worldToFrameTransform := worldToFrameTransform;
      cache := None;
    }

    method ShapeGeometry() returns (g: ShapeBufferGeometry)
      modifies this
      ensures old(cache).Some? ==> g == old(cache).value && cache == old(cache)
      ensures old(cache).None? ==> fresh(g) && cache == Some(g) && g.outline == FrameOutline(vertices, toFrame)
    {
      if cache.Some? {
        return cache.value;
      }
      g := new ShapeBufferGeometry(FrameOutline(vertices, toFrame));
      cache := Some(g);
    }
  }
}
