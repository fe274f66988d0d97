/**
 * makePathGeometry.ts: strokes a path of world points into a triangle mesh of
 * constant width. Every point becomes a core vertex; the first and last points get a
 * pair of wing vertices perpendicular to their segment; every interior point gets a
 * mitered pair where the offset lines of its two segments meet. Each vertex carries a
 * side tag (-1 left, 0 core, +1 right) in the `stats` buffer.
 *
 * The vertex and index bookkeeping is exact; the wing points (`makeWings`, built from
 * atan2/cos/sin) and the world-to-frame map (`transform.vertex`) are parameters.
 */
module PathStroke {
  import opened Wrappers
  import opened Vectors
  import opened Geometries

  /** `WIDTH`: the distance of the wings from the core line. */
  const Width: real := 200.0

  datatype PathSide = Left | Core | Right

  /**
   * `sideFactor`: the sign tells left, core and right apart, and the two wings sit
   * at unit factor.
   */
  function SideFactor(side: PathSide): (r: real)
    ensures r < 0.0 <==> side == Left
    ensures r == 0.0 <==> side == Core
    ensures r > 0.0 <==> side == Right
    ensures side != Core ==> r * r == 1.0
  {
    match side
    case Left => -1.0
    case Core => 0.0
    case Right => 1.0
  }

  // ---------------------------------------------------------------------------
  // The layout of a stroke of n >= 2 points, in closed form
  // ---------------------------------------------------------------------------

  /**
   * The vertex of point `k`: the start cap appends points 0 and 1 as vertices 0 and
   * 1; every later point is the third vertex its joint appends.
   */
  function CoreIndex(k: nat): nat
  {
    if k < 2 then k else 3 * k
  }

  /** The left wing vertex of segment step `i` (the start cap is step 0). */
  function LhsIndex(i: nat): nat
  {
    if i == 0 then 2 else 3 * i + 1
  }

  /** The right wing vertex of segment step `i`. */
  function RhsIndex(i: nat): nat
  {
    if i == 0 then 3 else 3 * i + 2
  }

  /** The side tag of vertex `v`. */
  function VertexSide(v: nat): PathSide
  {
    if v < 2 then Core
    else if v == 2 then Left
    else if v == 3 then Right
    else if v % 3 == 1 then Left
    else if v % 3 == 2 then Right
    else Core
  }

  /** What `previous.indices` holds after step `i`. */
  function After(i: nat): StepIndices
  {
    StepIndices(CoreIndex(i + 1), LhsIndex(i), RhsIndex(i))
  }

  /** The start cap: (core, left wing, next core) and (core, next core, right wing). */
  const StartCap: seq<int> := [0, 2, 1, 0, 1, 3]

  /**
   * Entry `q` of the four triangles joint `i` adds between step `i - 1` (p) and step
   * `i`: (lhs wing, p core, p lhs wing), (rhs wing, p rhs wing, p core),
   * (next core, p core, lhs wing) and (next core, rhs wing, p core).
   */
  function JointEntry(i: nat, q: nat): int
    requires i >= 1
  {
    var p := After(i - 1);
    if q == 0 || q == 8 then LhsIndex(i)
    else if q == 3 || q == 10 then RhsIndex(i)
    else if q == 6 || q == 9 then CoreIndex(i + 1)
    else if q == 2 then p.lhsWing
    else if q == 4 then p.rhsWing
    else p.core
  }

  /** The twelve indices joint `i` pushes. */
  function JointTriangles(i: nat): seq<int>
    requires i >= 1
  {
    seq(12, q requires 0 <= q => JointEntry(i, q))
  }

  /** The triangles of joints 1 to `m`. */
  function Joints(m: nat): seq<int>
  {
    if m == 0 then [] else Joints(m - 1) + JointTriangles(m)
  }

  /** The end cap of an `n`-point stroke, against the last step's wings. */
  function FinishCap(n: nat): seq<int>
    requires n >= 2
  {
    var p := After(n - 2);
    [3 * n - 2, p.core, p.lhsWing, 3 * n - 1, p.rhsWing, p.core]
  }

  /** Every index of an `n`-point stroke, in push order. */
  function StrokeIndices(n: nat): seq<int>
    requires n >= 2
  {
    StartCap + Joints(n - 2) + FinishCap(n)
  }

  /** The side tags of the first `count` vertices. */
  function VertexSides(count: nat): (sides: seq<PathSide>)
    ensures |sides| == count
    ensures forall v :: 0 <= v < count ==> sides[v] == VertexSide(v)
  {
    seq(count, v requires 0 <= v => VertexSide(v))
  }

  /**
   * The vertex count at the moment the `j`-th index is pushed: 4 during the start
   * cap; 3s + 3 for the first half of joint s (its wings are appended, its core not
   * yet) and 3s + 4 for the second half; the end cap is the first half of step n - 1.
   */
  function CountAtPush(j: nat): nat
  {
    if j < 6 then 4
    else
      var s := (j - 6) / 12 + 1;
      if (j - 6) % 12 < 6 then 3 * s + 3 else 3 * s + 4
  }

  /** `r` is `k` whole groups of 12 and a remainder `q`. */
  lemma Groups12(r: nat) returns (k: nat, q: nat)
    ensures r == 12 * k + q && q < 12
  {
    if r < 12 {
      k, q := 0, r;
    } else {
      k, q := Groups12(r - 12);
      k := k + 1;
    }
  }

  /** `r` is `k` whole groups of 4 and a remainder `u`. */
  lemma Groups4(r: nat) returns (k: nat, u: nat)
    ensures r == 4 * k + u && u < 4
  {
    if r < 4 {
      k, u := 0, r;
    } else {
      k, u := Groups4(r - 4);
      k := k + 1;
    }
  }

  /** Joints 1 to `m` add 12 indices each. */
  lemma {:induction false} JointsLength(m: nat)
    ensures |Joints(m)| == 12 * m
  {
    if m > 0 {
      JointsLength(m - 1);
    }
  }

  /**
   * An `n`-point stroke has 3n vertices and 12(n - 1) indices, that is 4(n - 1)
   * triangles, and its first two triangles are the start cap.
   */
  lemma StrokeIndicesLength(n: nat)
    requires n >= 2
    ensures |StrokeIndices(n)| == 12 * (n - 1) && |StrokeIndices(n)| % 3 == 0
    ensures StrokeIndices(n)[..6] == [0, 2, 1, 0, 1, 3]
  {
    JointsLength(n - 2);
    ThreeDivides(4 * (n - 1));
    FrontPart(StartCap, Joints(n - 2), FinishCap(n));
  }

  lemma ThreeDivides(k: nat)
    ensures (3 * k) % 3 == 0
  {
  }

  /** The front part of a three-part sequence. */
  lemma FrontPart<T>(a: seq<T>, b: seq<T>, c: seq<T>)
    ensures (a + b + c)[..|a|] == a
  {
  }

  /** Entry `q` of joint k + 1 sits at position 12k + q of the joint indices. */
  lemma {:induction false} JointsEntry(m: nat, k: nat, q: nat)
    requires k < m && q < 12
    ensures |Joints(m)| == 12 * m
    ensures Joints(m)[12 * k + q] == JointTriangles(k + 1)[q]
  {
    JointsLength(m);
    JointsLength(m - 1);
    if k + 1 < m {
      JointsEntry(m - 1, k, q);
    }
  }

  /** Entry `q` of joint k + 1 sits at position 6 + 12k + q of a stroke's indices. */
  lemma StrokeJointEntry(n: nat, k: nat, q: nat, j: nat)
    requires n >= 2 && k + 1 <= n - 2 && q < 12 && j == 6 + 12 * k + q
    ensures |StrokeIndices(n)| == 12 * (n - 1)
    ensures StrokeIndices(n)[j] == JointTriangles(k + 1)[q]
  {
    JointsLength(n - 2);
    JointsEntry(n - 2, k, q);
    MiddleEntry(StartCap, Joints(n - 2), FinishCap(n), 12 * k + q);
  }

  /** Entry `r` of the middle part of a three-part sequence. */
  lemma MiddleEntry<T>(a: seq<T>, b: seq<T>, c: seq<T>, r: nat)
    requires r < |b|
    ensures (a + b + c)[|a| + r] == b[r]
  {
  }

  /** The entries of joint `s` name vertices that exist once its first or second half is pushed. */
  lemma JointEntryBounded(s: nat, q: nat)
    requires s >= 1 && q < 12
    ensures 0 <= JointTriangles(s)[q] < (if q < 6 then 3 * s + 3 else 3 * s + 4)
  {
  }

  /** Entry `q` of joint k + 1 is pushed when 3k + 6, or in the second half 3k + 7, vertices exist. */
  lemma CountAtJoint(k: nat, q: nat)
    requires q < 12
    ensures CountAtPush(6 + 12 * k + q) == if q < 6 then 3 * k + 6 else 3 * k + 7
  {
    var j := 6 + 12 * k + q;
    assert (j - 6) / 12 == k && (j - 6) % 12 == q;
  }

  /** Entry `q` of joint k + 1 of a stroke names a vertex that exists when it is pushed. */
  lemma JointIndexBounded(n: nat, k: nat, q: nat)
    requires n >= 2 && k + 1 <= n - 2 && q < 12
    ensures |StrokeIndices(n)| == 12 * (n - 1)
    ensures var j := 6 + 12 * k + q; 0 <= StrokeIndices(n)[j] < CountAtPush(j) <= 3 * n
  {
    StrokeJointEntry(n, k, q, 6 + 12 * k + q);
    JointEntryBounded(k + 1, q);
    CountAtJoint(k, q);
  }

  /** An index of the end cap names a vertex that exists when it is pushed. */
  lemma FinishIndexBounded(n: nat, j: nat)
    requires n >= 2 && 6 + 12 * (n - 2) <= j < 12 * (n - 1)
    ensures |StrokeIndices(n)| == 12 * (n - 1)
    ensures 0 <= StrokeIndices(n)[j] < CountAtPush(j) == 3 * n
  {
    JointsLength(n - 2);
    var q := j - 6 - 12 * (n - 2);
    assert StrokeIndices(n)[j] == FinishCap(n)[q];
    assert (j - 6) / 12 + 1 == n - 1 && (j - 6) % 12 == q;
  }

  /** The `j`-th index of a stroke names a vertex that exists when it is pushed. */
  lemma StrokeIndexBounded(n: nat, j: nat)
    requires n >= 2 && j < 12 * (n - 1)
    ensures |StrokeIndices(n)| == 12 * (n - 1)
    ensures 0 <= StrokeIndices(n)[j] < CountAtPush(j) <= 3 * n
  {
    JointsLength(n - 2);
    if 6 <= j < 6 + 12 * (n - 2) {
      var k, q := Groups12(j - 6);
      JointIndexBounded(n, k, q);
    } else if j >= 6 + 12 * (n - 2) {
      FinishIndexBounded(n, j);
    }
  }

  /**
   * Every index of a stroke names a vertex that already exists when it is pushed,
   * hence one of the stroke's 3n vertices.
   */
  lemma StrokeIndicesBounded(n: nat)
    requires n >= 2
    ensures forall j :: 0 <= j < |StrokeIndices(n)| ==>
              0 <= StrokeIndices(n)[j] < CountAtPush(j) <= 3 * n
  {
    StrokeIndicesLength(n);
    forall j | 0 <= j < |StrokeIndices(n)| ensures 0 <= StrokeIndices(n)[j] < CountAtPush(j) <= 3 * n {
      StrokeIndexBounded(n, j);
    }
  }

  /**
   * A triangle of a stroke has three distinct vertices, at least one of them a core
   * vertex, and never both a left and a right wing: no triangle crosses the core line.
   */
  ghost predicate OneSided(a: int, b: int, c: int)
  {
    && 0 <= a && 0 <= b && 0 <= c
    && a != b && b != c && a != c
    && (VertexSide(a) == Core || VertexSide(b) == Core || VertexSide(c) == Core)
    && !((VertexSide(a) == Left || VertexSide(b) == Left || VertexSide(c) == Left) &&
         (VertexSide(a) == Right || VertexSide(b) == Right || VertexSide(c) == Right))
  }

  /** The four triangles of a joint each lie on one side of the core line. */
  lemma JointOneSided(i: nat)
    requires i >= 1
    ensures var tris := JointTriangles(i);
            && OneSided(tris[0], tris[1], tris[2]) && OneSided(tris[3], tris[4], tris[5])
            && OneSided(tris[6], tris[7], tris[8]) && OneSided(tris[9], tris[10], tris[11])
  {
    VertexLayout(i + 1, i);
    VertexLayout(i, i - 1);
  }

  /** The end cap's two triangles lie on one side of the core line. */
  lemma FinishOneSided(n: nat, t: nat)
    requires n >= 2 && t < 2
    ensures var tris := FinishCap(n); OneSided(tris[3 * t], tris[3 * t + 1], tris[3 * t + 2])
  {
    VertexLayout(n - 1, n - 1);
    VertexLayout(n - 1, n - 2);
    assert 3 * n - 2 == LhsIndex(n - 1) && 3 * n - 1 == RhsIndex(n - 1);
  }

  /** Triangle `t` = 2 + 4k + u of a stroke is triangle `u` of joint k + 1. */
  lemma JointTriangleAt(n: nat, t: nat, k: nat, u: nat)
    requires n >= 2 && k + 1 <= n - 2 && u < 4 && t == 2 + 4 * k + u
    ensures |StrokeIndices(n)| == 12 * (n - 1)
    ensures var indices := StrokeIndices(n); var tris := JointTriangles(k + 1);
            indices[3 * t] == tris[3 * u] && indices[3 * t + 1] == tris[3 * u + 1] && indices[3 * t + 2] == tris[3 * u + 2]
  {
    StrokeJointEntry(n, k, 3 * u, 3 * t);
    StrokeJointEntry(n, k, 3 * u + 1, 3 * t + 1);
    StrokeJointEntry(n, k, 3 * u + 2, 3 * t + 2);
  }

  /** Triangle `t` of a stroke in the end cap is triangle `t - 2 - 4(n - 2)` of the cap. */
  lemma FinishTriangleAt(n: nat, t: nat)
    requires n >= 2 && 2 + 4 * (n - 2) <= t < 4 * (n - 1)
    ensures |StrokeIndices(n)| == 12 * (n - 1)
    ensures var indices := StrokeIndices(n); var tris := FinishCap(n); var u := t - 2 - 4 * (n - 2);
            indices[3 * t] == tris[3 * u] && indices[3 * t + 1] == tris[3 * u + 1] && indices[3 * t + 2] == tris[3 * u + 2]
  {
    JointsLength(n - 2);
  }

  /** Triangle `u` of joint `i`, copied into `indices` at `q`, keeps its sides. */
  lemma CopiedJointOneSided(indices: seq<int>, i: nat, u: nat, q: nat)
    requires i >= 1 && u < 4 && q + 2 < |indices|
    requires var tris := JointTriangles(i);
             indices[q] == tris[3 * u] && indices[q + 1] == tris[3 * u + 1] && indices[q + 2] == tris[3 * u + 2]
    ensures OneSided(indices[q], indices[q + 1], indices[q + 2])
  {
    JointOneSided(i);
    if u == 0 {
    } else if u == 1 {
    } else if u == 2 {
    } else {
    }
  }

  /** The two triangles of the start cap lie on one side of the core line. */
  lemma StartTriangleOneSided(n: nat, t: nat)
    requires n >= 2 && t < 2
    ensures |StrokeIndices(n)| == 12 * (n - 1)
    ensures var indices := StrokeIndices(n); OneSided(indices[3 * t], indices[3 * t + 1], indices[3 * t + 2])
  {
    JointsLength(n - 2);
    VertexLayout(0, 0);
    VertexLayout(1, 0);
  }

  /** Triangle `t` = 2 + 4k + u of a stroke, one of joint k + 1's, lies on one side of the core line. */
  lemma JointTriangleOneSided(n: nat, t: nat, k: nat, u: nat)
    requires n >= 2 && k + 1 <= n - 2 && u < 4 && t == 2 + 4 * k + u
    ensures |StrokeIndices(n)| == 12 * (n - 1)
    ensures var indices := StrokeIndices(n); OneSided(indices[3 * t], indices[3 * t + 1], indices[3 * t + 2])
  {
    JointTriangleAt(n, t, k, u);
    CopiedJointOneSided(StrokeIndices(n), k + 1, u, 3 * t);
  }

  /** The two triangles of the end cap lie on one side of the core line. */
  lemma FinishTriangleOneSided(n: nat, t: nat)
    requires n >= 2 && 2 + 4 * (n - 2) <= t < 4 * (n - 1)
    ensures |StrokeIndices(n)| == 12 * (n - 1)
    ensures var indices := StrokeIndices(n); OneSided(indices[3 * t], indices[3 * t + 1], indices[3 * t + 2])
  {
    FinishTriangleAt(n, t);
    FinishOneSided(n, t - 2 - 4 * (n - 2));
  }

  /** The `t`-th triangle of a stroke lies on one side of the core line. */
  lemma StrokeTriangleOneSided(n: nat, t: nat)
    requires n >= 2 && t < 4 * (n - 1)
    ensures |StrokeIndices(n)| == 12 * (n - 1)
    ensures var indices := StrokeIndices(n); OneSided(indices[3 * t], indices[3 * t + 1], indices[3 * t + 2])
  {
    if t < 2 {
      StartTriangleOneSided(n, t);
    } else if t < 2 + 4 * (n - 2) {
      var k, u := Groups4(t - 2);
      JointTriangleOneSided(n, t, k, u);
    } else {
      FinishTriangleOneSided(n, t);
    }
  }

  /** Every triangle of every stroke lies on one side of the core line. */
  lemma StrokeOneSided(n: nat)
    requires n >= 2
    ensures |StrokeIndices(n)| == 12 * (n - 1)
    ensures forall t :: 0 <= t < 4 * (n - 1) ==>
              OneSided(StrokeIndices(n)[3 * t], StrokeIndices(n)[3 * t + 1], StrokeIndices(n)[3 * t + 2])
  {
    StrokeIndicesLength(n);
    forall t | 0 <= t < 4 * (n - 1)
      ensures OneSided(StrokeIndices(n)[3 * t], StrokeIndices(n)[3 * t + 1], StrokeIndices(n)[3 * t + 2])
    {
      StrokeTriangleOneSided(n, t);
    }
  }

  /**
   * Each point has one core vertex, in input order, and the wing vertices of each
   * step carry the matching side tags; after step `i` the remembered core is the
   * vertex of point i + 1.
   */
  lemma VertexLayout(k: nat, i: nat)
    ensures VertexSide(CoreIndex(k)) == Core
    ensures VertexSide(LhsIndex(i)) == Left && VertexSide(RhsIndex(i)) == Right
    ensures CoreIndex(k) < CoreIndex(k + 1)
    ensures After(i).core == CoreIndex(i + 1)
  {
    assert (3 * k) % 3 == 0 && (3 * i + 1) % 3 == 1 && (3 * i + 2) % 3 == 2;
  }

  /** A core-tagged vertex of a stroke is the vertex of exactly one point. */
  lemma CoreVerticesArePoints(v: nat)
    requires VertexSide(v) == Core
    ensures CoreIndex(if v < 2 then v else v / 3) == v
  {
  }

  // ---------------------------------------------------------------------------
  // The geometry of a stroke, in terms of the collaborators
  // ---------------------------------------------------------------------------

  /** `normalizedCore` of step `i`: the direction from point i to point i + 1. */
  function Direction(points: seq<Vec2>, i: nat): Vec2
    requires i + 1 < |points|
  {
    Diff(points[i + 1], points[i])
  }

  /** The wings of point `i`, perpendicular to its outgoing segment. */
  function LeadWings(points: seq<Vec2>, wings: WingMaker, i: nat): Wings
    requires i + 1 < |points|
  {
    wings(points[i], points[i + 1], Width, true)
  }

  /** The left offset line of segment `i`: through its left wing, along the segment. */
  function LhsLine(points: seq<Vec2>, wings: WingMaker, i: nat): Line
    requires i + 1 < |points|
  {
    var w := LeadWings(points, wings, i);
    WithPoints(w.lhs, Add(w.lhs, Direction(points, i)))
  }

  /** The right offset line of segment `i`. */
  function RhsLine(points: seq<Vec2>, wings: WingMaker, i: nat): Line
    requires i + 1 < |points|
  {
    var w := LeadWings(points, wings, i);
    WithPoints(w.rhs, Add(w.rhs, Direction(points, i)))
  }

  /** The wings `finishShape` computes at the last point, against the one before it. */
  function TrailWings(points: seq<Vec2>, wings: WingMaker): Wings
    requires |points| >= 2
  {
    wings(points[|points| - 1], points[|points| - 2], Width, false)
  }

  /** Some interior point turns by 0 or 180 degrees: its offset lines are parallel. */
  ghost predicate ParallelJoint(points: seq<Vec2>)
  {
    exists i :: 1 <= i < |points| - 1 && Cross(Direction(points, i - 1), Direction(points, i)) == 0.0
  }

  /** The offset lines meeting at an interior point are parallel exactly when its segments are. */
  lemma JointDelta(points: seq<Vec2>, wings: WingMaker, i: nat)
    requires 1 <= i < |points| - 1
    ensures Delta(LhsLine(points, wings, i - 1), LhsLine(points, wings, i)) == Cross(Direction(points, i - 1), Direction(points, i))
    ensures Delta(RhsLine(points, wings, i - 1), RhsLine(points, wings, i)) == Cross(Direction(points, i - 1), Direction(points, i))
  {
    var w := LeadWings(points, wings, i - 1);
    var w' := LeadWings(points, wings, i);
    DeltaOfDirectedLines(w.lhs, Direction(points, i - 1), w'.lhs, Direction(points, i));
    DeltaOfDirectedLines(w.rhs, Direction(points, i - 1), w'.rhs, Direction(points, i));
  }

  /** A vertex as the frame-space point `transform.vertex` gives, lifted to z = 0. */
  function OnFrame(p: Vec2): Vec3
  {
    Vec3(p.x, p.y, 0.0)
  }

  /** The position buffer of a sequence of world points: three numbers per point. */
  function Flatten(placed: seq<Vec2>, toFrame: FrameMap): (r: seq<real>)
    ensures |r| == 3 * |placed|
  {
    if |placed| == 0 then []
    else Flatten(placed[..|placed| - 1], toFrame) + Lift(toFrame(placed[|placed| - 1]))
  }

  /** Vertex `v` of a flattened buffer is point `v`, mapped into the frame. */
  lemma {:induction false} FlattenAt(placed: seq<Vec2>, toFrame: FrameMap, v: nat)
    requires v < |placed|
    ensures 3 * v + 2 < |Flatten(placed, toFrame)|
    ensures VertexAt(Flatten(placed, toFrame), v) == OnFrame(toFrame(placed[v]))
  {
    var front := placed[..|placed| - 1];
    if v < |placed| - 1 {
      FlattenAt(front, toFrame, v);
      assert front[v] == placed[v];
    }
  }

  /** The `stats` buffer of a sequence of side tags: two copies of each factor. */
  function SideStats(sides: seq<PathSide>): (r: seq<real>)
    ensures |r| == 2 * |sides|
  {
    if |sides| == 0 then []
    else SideStats(sides[..|sides| - 1]) + [SideFactor(sides[|sides| - 1]), SideFactor(sides[|sides| - 1])]
  }

  /** Entries 2v and 2v + 1 of a stats buffer are the factor of vertex `v`'s side. */
  lemma {:induction false} SideStatsAt(sides: seq<PathSide>, v: nat)
    requires v < |sides|
    ensures 2 * v + 1 < |SideStats(sides)|
    ensures SideStats(sides)[2 * v] == SideFactor(sides[v]) && SideStats(sides)[2 * v + 1] == SideFactor(sides[v])
  {
    var front := sides[..|sides| - 1];
    if v < |sides| - 1 {
      SideStatsAt(front, v);
      assert front[v] == sides[v];
    }
  }

  // ---------------------------------------------------------------------------
  // The closures of makePathGeometry and their captured state
  // ---------------------------------------------------------------------------

  /** The three buffers a stroke produces. */
  datatype PathMesh = PathMesh(positions: seq<real>, stats: seq<real>, indices: seq<int>)

  /**
   * What the proof tracks of a stroke in progress: the world point and the side tag
   * of every vertex appended so far, the indices pushed, and `previous`.
   */
  datatype Progress = Progress(placed: seq<Vec2>, sides: seq<PathSide>, indices: seq<int>, previous: Option<Previous>)

  /**
   * The variables the closures `appendVertex`, `startShape` and `finishShape`
   * capture and update. `placed` and `sides` record, for the proof, the world point
   * and the side tag of every vertex appended so far.
   */
  class StrokeBuffers {
    const toFrame: FrameMap
    var verticesCount: nat
    var vertices: seq<real>
    var indices: seq<int>
    var stats: seq<real>
    var previous: Option<Previous>
    ghost var placed: seq<Vec2>
    ghost var sides: seq<PathSide>

    /** One position triple and one pair of side factors per vertex. */
    ghost predicate Valid()
      reads this
    {
      && |placed| == verticesCount && |sides| == verticesCount
      && vertices == Flatten(placed, toFrame)
      && stats == SideStats(sides)
    }

    ghost function Snapshot(): Progress
      reads this
    {
      Progress(placed, sides, indices, previous)
    }

    constructor (toFrame: FrameMap)
      ensures Valid() && this.toFrame == toFrame
      ensures verticesCount == 0 && placed == [] && sides == [] && indices == [] && previous.None?
    {
      this.toFrame := toFrame;
      verticesCount := 0;
      vertices := [];
      indices := [];
      stats := [];
      previous := None;
      placed := [];
      sides := [];
    }

    /** `appendVertex`: returns the index of the vertex it appends. */
    method AppendVertex(vertex: Vec2, pathSide: PathSide) returns (index: int)
      requires Valid()
      modifies this
      ensures Valid()
      ensures placed == old(placed) + [vertex] && sides == old(sides) + [pathSide]
      ensures verticesCount == old(verticesCount) + 1 && index == old(verticesCount)
      ensures indices == old(indices) && previous == old(previous)
    {
      var frameSpaceVertex := toFrame(vertex);
      vertices := vertices + [frameSpaceVertex.x, frameSpaceVertex.y, 0.0];
      stats := stats + [SideFactor(pathSide), SideFactor(pathSide)];
      verticesCount := verticesCount + 1;
      placed := placed + [vertex];
      sides := sides + [pathSide];
      assert placed[..|placed| - 1] == old(placed);
      assert sides[..|sides| - 1] == old(sides);
      return |vertices| / 3 - 1;
    }

    /**
     * `startShape`: the current and next points, then the current point's wings; the
     * two start-cap triangles; the wing lines along the first segment.
     */
    method StartShape(currentCore: Vec2, nextCore: Vec2, normalizedCore: Vec2, wings: WingMaker)
      requires Valid()
      modifies this
      ensures Valid()
      ensures var w := wings(currentCore, nextCore, Width, true);
              var c := old(verticesCount);
              && placed == old(placed) + [currentCore, nextCore, w.lhs, w.rhs]
              && sides == old(sides) + [Core, Core, Left, Right]
              && verticesCount == c + 4
              && indices == old(indices) + [c, c + 2, c + 1, c, c + 1, c + 3]
              && previous == Some(Previous(WithPoints(w.lhs, Add(w.lhs, normalizedCore)),
                                           WithPoints(w.rhs, Add(w.rhs, normalizedCore)),
                                           StepIndices(c + 1, c + 2, c + 3)))
    {
      var w := wings(currentCore, nextCore, Width, true);
      var currentCoreIndex := AppendVertex(currentCore, Core);
      var nextCoreIndex := AppendVertex(nextCore, Core);
      var lhsWingIndex := AppendVertex(w.lhs, Left);
      var rhsWingIndex := AppendVertex(w.rhs, Right);
      indices := indices + [currentCoreIndex, lhsWingIndex, nextCoreIndex,
                            currentCoreIndex, nextCoreIndex, rhsWingIndex];
      var lhsWingLine := WithPoints(w.lhs, Add(w.lhs, normalizedCore));
      var rhsWingLine := WithPoints(w.rhs, Add(w.rhs, normalizedCore));
      previous := Some(Previous(lhsWingLine, rhsWingLine, StepIndices(nextCoreIndex, lhsWingIndex, rhsWingIndex)));
    }

    /** `finishShape`: the last point's wings and the two end-cap triangles. */
    method FinishShape(previousCore: Vec2, currentCore: Vec2, wings: WingMaker)
      requires Valid() && previous.Some?
      modifies this
      ensures Valid()
      ensures var w := wings(currentCore, previousCore, Width, false);
              var c := old(verticesCount);
              var p := old(previous).value.indices;
              && placed == old(placed) + [w.lhs, w.rhs]
              && sides == old(sides) + [Left, Right]
              && verticesCount == c + 2
              && indices == old(indices) + [c, p.core, p.lhsWing, c + 1, p.rhsWing, p.core]
              && previous == old(previous)
    {
      var w := wings(currentCore, previousCore, Width, false);
      var lhsWingIndex := AppendVertex(w.lhs, Left);
      var rhsWingIndex := AppendVertex(w.rhs, Right);
      var p := previous.value.indices;
      indices := indices + [lhsWingIndex, p.core, p.lhsWing,
                            rhsWingIndex, p.rhsWing, p.core];
    }

    /**
     * The body of the `forEach` callback at an interior point: the current point's
     * wing lines meet the previous ones in the two miter vertices; the next point's
     * core vertex follows, then four triangles. `joined` is false when a pair of
     * wing lines is parallel, where `intersection` throws.
     */
    method Joint(currentCore: Vec2, nextCore: Vec2, normalizedCore: Vec2, wings: WingMaker) returns (joined: bool)
      requires Valid() && previous.Some?
      modifies this
      ensures Valid()
      ensures var w := wings(currentCore, nextCore, Width, true);
              var lhsLine := WithPoints(w.lhs, Add(w.lhs, normalizedCore));
              var rhsLine := WithPoints(w.rhs, Add(w.rhs, normalizedCore));
              var lhs := Intersection(old(previous).value.lhsWing, lhsLine);
              var rhs := Intersection(old(previous).value.rhsWing, rhsLine);
              var c := old(verticesCount);
              var p := old(previous).value.indices;
              && (joined <==> lhs.Success? && rhs.Success?)
              && (joined ==>
                    && placed == old(placed) + [lhs.value, rhs.value, nextCore]
                    && sides == old(sides) + [Left, Right, Core]
                    && verticesCount == c + 3
                    && indices == old(indices) + [c, p.core, p.lhsWing, c + 1, p.rhsWing, p.core,
                                                  c + 2, p.core, c, c + 2, c + 1, p.core]
                    && previous == Some(Previous(lhsLine, rhsLine, StepIndices(c + 2, c, c + 1))))
    {
      var prev := previous.value;
      var currentWing := wings(currentCore, nextCore, Width, true);
      var currentLhsWingLine := WithPoints(currentWing.lhs, Add(currentWing.lhs, normalizedCore));
      var lhsLinesIntersection := Intersection(prev.lhsWing, currentLhsWingLine);
      var currentRhsWingLine := WithPoints(currentWing.rhs, Add(currentWing.rhs, normalizedCore));
      var rhsLinesIntersection := Intersection(prev.rhsWing, currentRhsWingLine);
      if lhsLinesIntersection.Failure? || rhsLinesIntersection.Failure? {
        return false;
      }
      var lhsWingIndex := AppendVertex(lhsLinesIntersection.value, Left);
      var rhsWingIndex := AppendVertex(rhsLinesIntersection.value, Right);
      indices := indices + [lhsWingIndex, prev.indices.core, prev.indices.lhsWing,
                            rhsWingIndex, prev.indices.rhsWing, prev.indices.core];
      var nextCoreIndex := AppendVertex(nextCore, Core);
      indices := indices + [nextCoreIndex, prev.indices.core, lhsWingIndex,
                            nextCoreIndex, rhsWingIndex, prev.indices.core];
      var otherLhsWingPoint := Add(currentWing.lhs, normalizedCore);
      var lhsWingLine := WithPoints(currentWing.lhs, otherLhsWingPoint);
      var otherRhsWingPoint := Add(currentWing.rhs, normalizedCore);
      var rhsWingLine := WithPoints(currentWing.rhs, otherRhsWingPoint);
      previous := Some(Previous(lhsWingLine, rhsWingLine, StepIndices(nextCoreIndex, lhsWingIndex, rhsWingIndex)));
      return true;
    }

    /** The buffers handed to the `BufferGeometry`. */
    function Mesh(): PathMesh
      reads this
    {
      PathMesh(vertices, stats, indices)
    }
  }

  // ---------------------------------------------------------------------------
  // The loop invariant and what the finished buffers satisfy
  // ---------------------------------------------------------------------------

  /**
   * The stroke after the start cap and joints 1 to `m - 1`, with point `m` next: the
   * vertices so far follow the closed-form layout, the indices are the start cap and
   * those joints, and `previous` holds the wing lines and vertices of step m - 1.
   */
  ghost predicate Stroked(s: Progress, points: seq<Vec2>, wings: WingMaker, m: nat)
    requires 1 <= m < |points|
  {
    && |s.placed| == 3 * m + 1
    && s.sides == VertexSides(3 * m + 1)
    && s.indices == StartCap + Joints(m - 1)
    && s.previous == Some(Previous(LhsLine(points, wings, m - 1), RhsLine(points, wings, m - 1), After(m - 1)))
    && PlacedCores(s.placed, points, wings, m)
    && PlacedMiters(s.placed, points, wings, m)
  }

  /** Points 0 to `m` sit at their core vertices, and the first point's wings at vertices 2 and 3. */
  ghost predicate PlacedCores(placed: seq<Vec2>, points: seq<Vec2>, wings: WingMaker, m: nat)
    requires 1 <= m < |points| && |placed| == 3 * m + 1
  {
    && (forall k :: 0 <= k <= m ==> placed[CoreIndex(k)] == points[k])
    && placed[2] == LeadWings(points, wings, 0).lhs && placed[3] == LeadWings(points, wings, 0).rhs
  }

  /** The wing vertices of points 1 to `m - 1` are the meeting points of their wing lines. */
  ghost predicate PlacedMiters(placed: seq<Vec2>, points: seq<Vec2>, wings: WingMaker, m: nat)
    requires 1 <= m < |points| && |placed| == 3 * m + 1
  {
    forall i :: 1 <= i < m ==>
      && Intersection(LhsLine(points, wings, i - 1), LhsLine(points, wings, i)) == Success(placed[LhsIndex(i)])
      && Intersection(RhsLine(points, wings, i - 1), RhsLine(points, wings, i)) == Success(placed[RhsIndex(i)])
  }

  /** Appending a joint's three vertices keeps the core vertices and adds point m + 1's. */
  lemma CoresExtend(placed: seq<Vec2>, placed': seq<Vec2>, points: seq<Vec2>, wings: WingMaker, m: nat, lhs: Vec2, rhs: Vec2)
    requires 1 <= m < |points| - 1 && |placed| == 3 * m + 1 && PlacedCores(placed, points, wings, m)
    requires placed' == placed + [lhs, rhs, points[m + 1]]
    ensures PlacedCores(placed', points, wings, m + 1)
  {
    VertexLayout(m + 1, m);
    forall k | 0 <= k <= m + 1 ensures placed'[CoreIndex(k)] == points[k] {
      if k <= m {
        assert placed'[CoreIndex(k)] == placed[CoreIndex(k)];
      }
    }
  }

  /** Appending a joint's miter vertices adds the miters of point m. */
  lemma MitersExtend(placed: seq<Vec2>, placed': seq<Vec2>, points: seq<Vec2>, wings: WingMaker, m: nat, lhs: Vec2, rhs: Vec2)
    requires 1 <= m < |points| - 1 && |placed| == 3 * m + 1 && PlacedMiters(placed, points, wings, m)
    requires Intersection(LhsLine(points, wings, m - 1), LhsLine(points, wings, m)) == Success(lhs)
    requires Intersection(RhsLine(points, wings, m - 1), RhsLine(points, wings, m)) == Success(rhs)
    requires placed' == placed + [lhs, rhs, points[m + 1]]
    ensures PlacedMiters(placed', points, wings, m + 1)
  {
    forall i | 1 <= i < m + 1
      ensures && Intersection(LhsLine(points, wings, i - 1), LhsLine(points, wings, i)) == Success(placed'[LhsIndex(i)])
              && Intersection(RhsLine(points, wings, i - 1), RhsLine(points, wings, i)) == Success(placed'[RhsIndex(i)])
    {
      if i < m {
        assert placed'[LhsIndex(i)] == placed[LhsIndex(i)] && placed'[RhsIndex(i)] == placed[RhsIndex(i)];
      }
    }
  }

  /** The start cap takes an empty stroke to `Stroked(…, 1)`. */
  lemma StartStroked(s: Progress, points: seq<Vec2>, wings: WingMaker)
    requires 2 <= |points|
    requires var w := LeadWings(points, wings, 0);
             && s.placed == [points[0], points[1], w.lhs, w.rhs]
             && s.sides == [Core, Core, Left, Right]
             && s.indices == [0, 2, 1, 0, 1, 3]
             && s.previous == Some(Previous(LhsLine(points, wings, 0), RhsLine(points, wings, 0), StepIndices(1, 2, 3)))
    ensures Stroked(s, points, wings, 1) && Walked(s, points, wings, 1)
  {
    assert s.sides == VertexSides(4);
  }

  /** One joint step takes the stroke from point `m` to point `m + 1`. */
  lemma JointStroked(s: Progress, s': Progress, points: seq<Vec2>, wings: WingMaker, m: nat)
    requires 1 <= m < |points| - 1
    requires Stroked(s, points, wings, m)
    requires var lhs := Intersection(LhsLine(points, wings, m - 1), LhsLine(points, wings, m));
             var rhs := Intersection(RhsLine(points, wings, m - 1), RhsLine(points, wings, m));
             var c := |s.placed|;
             var p := s.previous.value.indices;
             && lhs.Success? && rhs.Success?
             && s'.placed == s.placed + [lhs.value, rhs.value, points[m + 1]]
             && s'.sides == s.sides + [Left, Right, Core]
             && s'.indices == s.indices + [c, p.core, p.lhsWing, c + 1, p.rhsWing, p.core,
                                           c + 2, p.core, c, c + 2, c + 1, p.core]
             && s'.previous == Some(Previous(LhsLine(points, wings, m), RhsLine(points, wings, m), StepIndices(c + 2, c, c + 1)))
    ensures Stroked(s', points, wings, m + 1) && Walked(s', points, wings, m + 1)
  {
    var lhs := Intersection(LhsLine(points, wings, m - 1), LhsLine(points, wings, m)).value;
    var rhs := Intersection(RhsLine(points, wings, m - 1), RhsLine(points, wings, m)).value;
    JointSides(s.sides, s'.sides, m);
    JointIndices(s.indices, s'.indices, m);
    JointPrevious(s'.previous, points, wings, m);
    CoresExtend(s.placed, s'.placed, points, wings, m, lhs, rhs);
    MitersExtend(s.placed, s'.placed, points, wings, m, lhs, rhs);
  }

  /** A joint's three side tags continue the closed-form tags. */
  lemma JointSides(sides: seq<PathSide>, sides': seq<PathSide>, m: nat)
    requires m >= 1 && sides == VertexSides(3 * m + 1) && sides' == sides + [Left, Right, Core]
    ensures sides' == VertexSides(3 * (m + 1) + 1)
  {
    VertexLayout(m + 1, m);
  }

  /** A joint's twelve indices are JointTriangles(m), closing Joints(m). */
  lemma JointIndices(indices: seq<int>, indices': seq<int>, m: nat)
    requires m >= 1 && indices == StartCap + Joints(m - 1)
    requires var c, p := 3 * m + 1, After(m - 1);
             indices' == indices + [c, p.core, p.lhsWing, c + 1, p.rhsWing, p.core,
                                    c + 2, p.core, c, c + 2, c + 1, p.core]
    ensures indices' == StartCap + Joints(m + 1 - 1)
  {
    JointTrianglesOfStep(m);
    AppendAssociates(StartCap, Joints(m - 1), JointTriangles(m));
  }

  lemma AppendAssociates<T>(a: seq<T>, b: seq<T>, c: seq<T>)
    ensures (a + b) + c == a + (b + c)
  {
  }

  /** Joint `m`'s triangles, in terms of the vertex count 3m + 1 before it. */
  lemma JointTrianglesOfStep(m: nat)
    requires m >= 1
    ensures var c, p := 3 * m + 1, After(m - 1);
            JointTriangles(m) == [c, p.core, p.lhsWing, c + 1, p.rhsWing, p.core,
                                  c + 2, p.core, c, c + 2, c + 1, p.core]
  {
  }

  /** After joint `m` the remembered step is step `m`. */
  lemma JointPrevious(previous: Option<Previous>, points: seq<Vec2>, wings: WingMaker, m: nat)
    requires 1 <= m < |points| - 1
    requires var c := 3 * m + 1;
             previous == Some(Previous(LhsLine(points, wings, m), RhsLine(points, wings, m), StepIndices(c + 2, c, c + 1)))
    ensures previous == Some(Previous(LhsLine(points, wings, m + 1 - 1), RhsLine(points, wings, m + 1 - 1), After(m + 1 - 1)))
  {
  }

  /** The counts and the closed-form index buffer of a finished `n`-point stroke. */
  ghost predicate MeshCounts(points: seq<Vec2>, mesh: PathMesh)
    requires |points| >= 2
  {
    var n := |points|;
    |mesh.positions| == 9 * n && |mesh.stats| == 6 * n && mesh.indices == StrokeIndices(n)
  }

  /** Every vertex lies in the z = 0 plane and carries its side factor twice. */
  ghost predicate MeshSides(points: seq<Vec2>, mesh: PathMesh)
    requires |points| >= 2 && MeshCounts(points, mesh)
  {
    forall v :: 0 <= v < 3 * |points| ==>
      && mesh.positions[3 * v + 2] == 0.0
      && mesh.stats[2 * v] == SideFactor(VertexSide(v))
      && mesh.stats[2 * v + 1] == SideFactor(VertexSide(v))
  }

  /** Point k is vertex `CoreIndex(k)`, mapped into the frame. */
  ghost predicate MeshCores(points: seq<Vec2>, toFrame: FrameMap, mesh: PathMesh)
    requires |points| >= 2 && MeshCounts(points, mesh)
  {
    forall k :: 0 <= k < |points| ==> VertexAt(mesh.positions, CoreIndex(k)) == OnFrame(toFrame(points[k]))
  }

  /** The first point's wings are vertices 2 and 3; the last point's are the last two. */
  ghost predicate MeshCaps(points: seq<Vec2>, toFrame: FrameMap, wings: WingMaker, mesh: PathMesh)
    requires |points| >= 2 && MeshCounts(points, mesh)
  {
    var n := |points|;
    && VertexAt(mesh.positions, 2) == OnFrame(toFrame(LeadWings(points, wings, 0).lhs))
    && VertexAt(mesh.positions, 3) == OnFrame(toFrame(LeadWings(points, wings, 0).rhs))
    && VertexAt(mesh.positions, 3 * n - 2) == OnFrame(toFrame(TrailWings(points, wings).lhs))
    && VertexAt(mesh.positions, 3 * n - 1) == OnFrame(toFrame(TrailWings(points, wings).rhs))
  }

  /**
   * At each interior point the offset lines of its two segments meet, and the wing
   * vertices are those meeting points.
   */
  ghost predicate MeshMiters(points: seq<Vec2>, toFrame: FrameMap, wings: WingMaker, mesh: PathMesh)
    requires |points| >= 2 && MeshCounts(points, mesh)
  {
    forall i :: 1 <= i < |points| - 1 ==>
      && Intersection(LhsLine(points, wings, i - 1), LhsLine(points, wings, i)).Success?
      && Intersection(RhsLine(points, wings, i - 1), RhsLine(points, wings, i)).Success?
      && VertexAt(mesh.positions, LhsIndex(i)) == OnFrame(toFrame(Intersection(LhsLine(points, wings, i - 1), LhsLine(points, wings, i)).value))
      && VertexAt(mesh.positions, RhsIndex(i)) == OnFrame(toFrame(Intersection(RhsLine(points, wings, i - 1), RhsLine(points, wings, i)).value))
  }

  /** Everything a successful stroke of `n >= 2` points satisfies. */
  ghost predicate StrokeMesh(points: seq<Vec2>, toFrame: FrameMap, wings: WingMaker, mesh: PathMesh)
    requires |points| >= 2
  {
    && MeshCounts(points, mesh)
    && MeshSides(points, mesh)
    && MeshCores(points, toFrame, mesh)
    && MeshCaps(points, toFrame, wings, mesh)
    && MeshMiters(points, toFrame, wings, mesh)
  }

  /** The progress after the end cap of an `n`-point stroke. */
  ghost predicate Finished(s: Progress, points: seq<Vec2>, wings: WingMaker)
    requires |points| >= 2
  {
    var n := |points|;
    && |s.placed| == 3 * n
    && s.placed[3 * n - 2] == TrailWings(points, wings).lhs && s.placed[3 * n - 1] == TrailWings(points, wings).rhs
    && s.sides == VertexSides(3 * n)
    && s.indices == StrokeIndices(n)
    && (forall k :: 0 <= k < n ==> s.placed[CoreIndex(k)] == points[k])
    && s.placed[2] == LeadWings(points, wings, 0).lhs && s.placed[3] == LeadWings(points, wings, 0).rhs
    && (forall i :: 1 <= i < n - 1 ==>
          && Intersection(LhsLine(points, wings, i - 1), LhsLine(points, wings, i)) == Success(s.placed[LhsIndex(i)])
          && Intersection(RhsLine(points, wings, i - 1), RhsLine(points, wings, i)) == Success(s.placed[RhsIndex(i)]))
  }

  /** The end cap takes `Stroked(…, n - 1)` to `Finished`. */
  lemma FinishStroked(s: Progress, s': Progress, points: seq<Vec2>, wings: WingMaker)
    requires 2 <= |points| && Stroked(s, points, wings, |points| - 1)
    requires var w := TrailWings(points, wings);
             var c := |s.placed|;
             var p := s.previous.value.indices;
             && s'.placed == s.placed + [w.lhs, w.rhs]
             && s'.sides == s.sides + [Left, Right]
             && s'.indices == s.indices + [c, p.core, p.lhsWing, c + 1, p.rhsWing, p.core]
    ensures Finished(s', points, wings) && Walked(s', points, wings, |points|)
  {
    var n := |points|;
    VertexLayout(n - 1, n - 1);
    FinishSides(s.sides, s'.sides, n);
    FinishIndices(s.indices, s'.indices, n);
    FinishKeepsPlacements(s.placed, s'.placed, points, wings);
  }

  /** The end cap's two vertices leave the cores and miters where they were. */
  lemma FinishKeepsPlacements(placed: seq<Vec2>, placed': seq<Vec2>, points: seq<Vec2>, wings: WingMaker)
    requires 2 <= |points| && |placed| == 3 * (|points| - 1) + 1
    requires PlacedCores(placed, points, wings, |points| - 1) && PlacedMiters(placed, points, wings, |points| - 1)
    requires |placed'| == |placed| + 2 && placed'[..|placed|] == placed
    ensures forall k :: 0 <= k < |points| ==> placed'[CoreIndex(k)] == points[k]
    ensures placed'[2] == LeadWings(points, wings, 0).lhs && placed'[3] == LeadWings(points, wings, 0).rhs
    ensures forall i :: 1 <= i < |points| - 1 ==>
              && Intersection(LhsLine(points, wings, i - 1), LhsLine(points, wings, i)) == Success(placed'[LhsIndex(i)])
              && Intersection(RhsLine(points, wings, i - 1), RhsLine(points, wings, i)) == Success(placed'[RhsIndex(i)])
  {
    forall k | 0 <= k < |points| ensures placed'[CoreIndex(k)] == points[k] {
      assert placed'[CoreIndex(k)] == placed[CoreIndex(k)];
    }
    assert placed'[2] == placed[2] && placed'[3] == placed[3];
    forall i | 1 <= i < |points| - 1
      ensures && Intersection(LhsLine(points, wings, i - 1), LhsLine(points, wings, i)) == Success(placed'[LhsIndex(i)])
              && Intersection(RhsLine(points, wings, i - 1), RhsLine(points, wings, i)) == Success(placed'[RhsIndex(i)])
    {
      assert placed'[LhsIndex(i)] == placed[LhsIndex(i)] && placed'[RhsIndex(i)] == placed[RhsIndex(i)];
    }
  }

  /** The end cap's two side tags complete the closed-form tags. */
  lemma FinishSides(sides: seq<PathSide>, sides': seq<PathSide>, n: nat)
    requires n >= 2 && sides == VertexSides(3 * (n - 1) + 1) && sides' == sides + [Left, Right]
    ensures sides' == VertexSides(3 * n)
  {
    VertexLayout(n - 1, n - 1);
  }

  /** The end cap's six indices complete `StrokeIndices(n)`. */
  lemma FinishIndices(indices: seq<int>, indices': seq<int>, n: nat)
    requires n >= 2 && indices == StartCap + Joints(n - 1 - 1)
    requires var c, p := 3 * (n - 1) + 1, After(n - 1 - 1);
             indices' == indices + [c, p.core, p.lhsWing, c + 1, p.rhsWing, p.core]
    ensures indices' == StrokeIndices(n)
  {
    assert FinishCap(n) == [3 * (n - 1) + 1, After(n - 2).core, After(n - 2).lhsWing,
                            3 * (n - 1) + 2, After(n - 2).rhsWing, After(n - 2).core];
  }

  /** The buffers of a finished stroke. */
  function FinishedBuffers(s: Progress, toFrame: FrameMap): PathMesh
  {
    PathMesh(Flatten(s.placed, toFrame), SideStats(s.sides), s.indices)
  }

  /** Every vertex of a finished stroke is flat and carries its side's factor. */
  lemma FinishedSides(s: Progress, points: seq<Vec2>, toFrame: FrameMap, wings: WingMaker)
    requires 2 <= |points| && Finished(s, points, wings)
    ensures MeshCounts(points, FinishedBuffers(s, toFrame)) && MeshSides(points, FinishedBuffers(s, toFrame))
  {
    var mesh := FinishedBuffers(s, toFrame);
    forall v | 0 <= v < 3 * |points|
      ensures && mesh.positions[3 * v + 2] == 0.0
              && mesh.stats[2 * v] == SideFactor(VertexSide(v))
              && mesh.stats[2 * v + 1] == SideFactor(VertexSide(v))
    {
      FlattenAt(s.placed, toFrame, v);
      SideStatsAt(s.sides, v);
    }
  }

  /** The core vertices of a finished stroke are its points. */
  lemma FinishedCores(s: Progress, points: seq<Vec2>, toFrame: FrameMap, wings: WingMaker)
    requires 2 <= |points| && Finished(s, points, wings)
    ensures MeshCounts(points, FinishedBuffers(s, toFrame)) && MeshCores(points, toFrame, FinishedBuffers(s, toFrame))
  {
    var mesh := FinishedBuffers(s, toFrame);
    forall k | 0 <= k < |points| ensures VertexAt(mesh.positions, CoreIndex(k)) == OnFrame(toFrame(points[k])) {
      FlattenAt(s.placed, toFrame, CoreIndex(k));
    }
  }

  /** The cap wings of a finished stroke are those of its first and last points. */
  lemma FinishedCaps(s: Progress, points: seq<Vec2>, toFrame: FrameMap, wings: WingMaker)
    requires 2 <= |points| && Finished(s, points, wings)
    ensures MeshCounts(points, FinishedBuffers(s, toFrame)) && MeshCaps(points, toFrame, wings, FinishedBuffers(s, toFrame))
  {
    var n := |points|;
    FlattenAt(s.placed, toFrame, 2);
    FlattenAt(s.placed, toFrame, 3);
    FlattenAt(s.placed, toFrame, 3 * n - 2);
    FlattenAt(s.placed, toFrame, 3 * n - 1);
  }

  /** The miter vertices of a finished stroke are the meeting points of its wing lines. */
  lemma FinishedMiters(s: Progress, points: seq<Vec2>, toFrame: FrameMap, wings: WingMaker)
    requires 2 <= |points| && Finished(s, points, wings)
    ensures MeshCounts(points, FinishedBuffers(s, toFrame)) && MeshMiters(points, toFrame, wings, FinishedBuffers(s, toFrame))
  {
    var mesh := FinishedBuffers(s, toFrame);
    forall i | 1 <= i < |points| - 1
      ensures && Intersection(LhsLine(points, wings, i - 1), LhsLine(points, wings, i)).Success?
              && Intersection(RhsLine(points, wings, i - 1), RhsLine(points, wings, i)).Success?
              && VertexAt(mesh.positions, LhsIndex(i)) == OnFrame(toFrame(Intersection(LhsLine(points, wings, i - 1), LhsLine(points, wings, i)).value))
              && VertexAt(mesh.positions, RhsIndex(i)) == OnFrame(toFrame(Intersection(RhsLine(points, wings, i - 1), RhsLine(points, wings, i)).value))
    {
      FlattenAt(s.placed, toFrame, LhsIndex(i));
      FlattenAt(s.placed, toFrame, RhsIndex(i));
    }
  }

  /** The buffers of a finished stroke are the mesh `MakePathGeometry` promises. */
  lemma FinishedMesh(s: Progress, points: seq<Vec2>, toFrame: FrameMap, wings: WingMaker)
    requires 2 <= |points| && Finished(s, points, wings)
    ensures StrokeMesh(points, toFrame, wings, FinishedBuffers(s, toFrame))
  {
    FinishedSides(s, points, toFrame, wings);
    FinishedCores(s, points, toFrame, wings);
    FinishedCaps(s, points, toFrame, wings);
    FinishedMiters(s, points, toFrame, wings);
  }

  /** A finished stroke went through no parallel joint. */
  lemma FinishedHasNoParallelJoint(s: Progress, points: seq<Vec2>, wings: WingMaker)
    requires 2 <= |points| && Finished(s, points, wings)
    ensures !ParallelJoint(points)
  {
    forall i | 1 <= i < |points| - 1 ensures Cross(Direction(points, i - 1), Direction(points, i)) != 0.0 {
      JointDelta(points, wings, i);
    }
  }

  /** The buffers once every point is visited: empty for no points, else the stroke. */
  lemma WalkedMesh(s: Progress, mesh: PathMesh, points: seq<Vec2>, toFrame: FrameMap, wings: WingMaker)
    requires Walked(s, points, wings, |points|) && mesh == FinishedBuffers(s, toFrame)
    ensures |points| != 1
    ensures |points| == 0 ==> mesh == PathMesh([], [], [])
    ensures |points| >= 2 ==> StrokeMesh(points, toFrame, wings, mesh)
  {
    if |points| >= 2 {
      FinishedMesh(s, points, toFrame, wings);
    }
  }

  /** Once every point is visited there was one point too many or no parallel joint. */
  lemma WalkedNoParallelJoint(s: Progress, points: seq<Vec2>, wings: WingMaker)
    requires Walked(s, points, wings, |points|)
    ensures |points| != 1 && !ParallelJoint(points)
  {
    if |points| >= 2 {
      FinishedHasNoParallelJoint(s, points, wings);
    }
  }

  // ---------------------------------------------------------------------------
  // makePathGeometry
  // ---------------------------------------------------------------------------

  /**
   * The progress after the `forEach` callback has run for points 0 to k - 1: nothing
   * yet, a stroke up to point k, or the finished stroke.
   */
  ghost predicate Walked(s: Progress, points: seq<Vec2>, wings: WingMaker, k: nat)
  {
    if k == 0 then s == Progress([], [], [], None)
    else if k < |points| then Stroked(s, points, wings, k)
    else k == |points| >= 2 && Finished(s, points, wings)
  }

  /**
   * The `forEach` callback of `makePathGeometry` at point `index`: the end cap at the
   * last point, the start cap at the first, a joint elsewhere. It throws when the
   * only point has no predecessor, and when a joint's segments are parallel.
   */
  method Visit(b: StrokeBuffers, points: seq<Vec2>, wings: WingMaker, index: nat) returns (outcome: Outcome)
    requires b.Valid() && index < |points| && Walked(b.Snapshot(), points, wings, index)
    modifies b
    ensures b.Valid()
    ensures outcome.Fail? <==> (|points| == 1 || (1 <= index < |points| - 1 &&
                                Cross(Direction(points, index - 1), Direction(points, index)) == 0.0))
    ensures outcome.Fail? ==> outcome.error == if index == 0 then UndefinedError else ParallelError
    ensures outcome.Pass? ==> Walked(b.Snapshot(), points, wings, index + 1)
  {
    var currentCore := points[index];
    if index == |points| - 1 {
      if index == 0 {
        return Fail(UndefinedError);
      }
      ghost var s := b.Snapshot();
      b.FinishShape(points[index - 1], currentCore, wings);
      FinishStroked(s, b.Snapshot(), points, wings);
      return Pass;
    }
    var nextCore := points[index + 1];
    var normalizedCore := Diff(nextCore, currentCore);
    if index == 0 {
      b.StartShape(currentCore, nextCore, normalizedCore, wings);
      StartStroked(b.Snapshot(), points, wings);
      return Pass;
    }
    ghost var s := b.Snapshot();
    var joined := b.Joint(currentCore, nextCore, normalizedCore, wings);
    JointDelta(points, wings, index);
    if !joined {
      return Fail(ParallelError);
    }
    JointStroked(s, b.Snapshot(), points, wings, index);
    return Pass;
  }

  /**
   * The `forEach` over the points: it stops at the first callback that throws, and
   * otherwise leaves every point visited.
   */
  method VisitAll(b: StrokeBuffers, points: seq<Vec2>, wings: WingMaker) returns (outcome: Outcome)
    requires b.Valid() && Walked(b.Snapshot(), points, wings, 0)
    modifies b
    ensures b.Valid()
    ensures outcome.Fail? <==> (|points| == 1 || ParallelJoint(points))
    ensures outcome.Fail? ==> outcome.error == if |points| == 1 then UndefinedError else ParallelError
    ensures outcome.Pass? ==> Walked(b.Snapshot(), points, wings, |points|)
  {
    var index := 0;
    while index < |points|
      invariant 0 <= index <= |points|
      invariant b.Valid()
      invariant Walked(b.Snapshot(), points, wings, index)
    {
      outcome := Visit(b, points, wings, index);
      if outcome.Fail? {
        if |points| >= 2 {
          assert 1 <= index < |points| - 1 && Cross(Direction(points, index - 1), Direction(points, index)) == 0.0;
        }
        return;
      }
      index := index + 1;
    }
    outcome := Pass;
    WalkedNoParallelJoint(b.Snapshot(), points, wings);
  }

  /**
   * `makePathGeometry`. With no points the buffers are empty; one point reads the
   * undefined point before it and throws; a joint whose segments are parallel throws
   * 'Lines are parallel'. Otherwise the buffers are the `StrokeMesh` of the points.
   */
  method MakePathGeometry(points: seq<Vec2>, toFrame: FrameMap, wings: WingMaker) returns (r: Result<PathMesh>)
    ensures |points| == 0 ==> r == Success(PathMesh([], [], []))
    ensures |points| == 1 ==> r == Failure(UndefinedError)
    ensures |points| >= 2 ==> (r.Failure? <==> ParallelJoint(points))
    ensures |points| >= 2 && r.Failure? ==> r.error == ParallelError
    ensures |points| >= 2 && r.Success? ==> StrokeMesh(points, toFrame, wings, r.value)
  {
    var b := new StrokeBuffers(toFrame);
    var outcome := VisitAll(b, points, wings);
    if outcome.Fail? {
      return Failure(outcome.error);
    }
    var mesh := b.Mesh();
    WalkedMesh(b.Snapshot(), mesh, points, toFrame, wings);
    return Success(mesh);
  }
}
