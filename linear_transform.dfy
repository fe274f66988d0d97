/** LinearTransform.ts: the texel bounding box of a geometry. */
module LinearTransform {
  import opened Vectors

  /** `{min, max}`: a closed interval of one axis. */
  datatype NumberSpace = NumberSpace(min: real, max: real)

  /** The per-axis bounds `geometryWorldTexels` returns. */
  datatype Bounds2d = Bounds2d(x: NumberSpace, y: NumberSpace)

  /** `vertices.map(vertex => vertex.worldTexel.x)`. */
  function Xs(texels: seq<Vec2>): (r: seq<real>)
    ensures |r| == |texels|
    ensures forall i :: 0 <= i < |texels| ==> r[i] == texels[i].x
  {
    seq(|texels|, i requires 0 <= i < |texels| => texels[i].x)
  }

  /** `vertices.map(vertex => vertex.worldTexel.y)`. */
  function Ys(texels: seq<Vec2>): (r: seq<real>)
    ensures |r| == |texels|
    ensures forall i :: 0 <= i < |texels| ==> r[i] == texels[i].y
  {
    seq(|texels|, i requires 0 <= i < |texels| => texels[i].y)
  }

  /** `Math.min(...s)` for a non-empty `s`: a lower bound of `s` that is one of its elements. */
  function Min(s: seq<real>): (m: real)
    requires |s| > 0
    ensures m in s
    ensures forall i :: 0 <= i < |s| ==> m <= s[i]
  {
    if |s| == 1 then s[0]
    else
      var rest := Min(s[1..]);
      if s[0] <= rest then s[0] else rest
  }

  /** `Math.max(...s)` for a non-empty `s`: an upper bound of `s` that is one of its elements. */
  function Max(s: seq<real>): (m: real)
    requires |s| > 0
    ensures m in s
    ensures forall i :: 0 <= i < |s| ==> s[i] <= m
  {
    if |s| == 1 then s[0]
    else
      var rest := Max(s[1..]);
      if s[0] >= rest then s[0] else rest
  }

  /**
   * `numberSpace.geometryWorldTexels`: the smallest axis-aligned box holding every
   * texel. With no texels the source yields min = Infinity, max = -Infinity; the
   * model requires at least one.
   */
  function GeometryWorldTexels(texels: seq<Vec2>): (b: Bounds2d)
    requires |texels| > 0
    ensures forall i :: 0 <= i < |texels| ==> b.x.min <= texels[i].x <= b.x.max && b.y.min <= texels[i].y <= b.y.max
    ensures exists i :: 0 <= i < |texels| && texels[i].x == b.x.min
    ensures exists i :: 0 <= i < |texels| && texels[i].x == b.x.max
    ensures exists i :: 0 <= i < |texels| && texels[i].y == b.y.min
    ensures exists i :: 0 <= i < |texels| && texels[i].y == b.y.max
  {
    var xs := Xs(texels);
    var ys := Ys(texels);
    Bounds2d(NumberSpace(Min(xs), Max(xs)), NumberSpace(Min(ys), Max(ys)))
  }

  /** `Min` and `Max` depend only on which values occur, not on their order or repetition. */
  lemma {:induction false} ExtremaDependOnValuesOnly(s: seq<real>, t: seq<real>)
    requires |s| > 0 && |t| > 0
    requires forall v :: v in s <==> v in t
    ensures Min(s) == Min(t) && Max(s) == Max(t)
  {
    var i :| 0 <= i < |t| && t[i] == Min(s);
    var j :| 0 <= j < |s| && s[j] == Min(t);
    assert Min(t) <= t[i] && Min(s) <= s[j];
    var k :| 0 <= k < |t| && t[k] == Max(s);
    var l :| 0 <= l < |s| && s[l] == Max(t);
    assert t[k] <= Max(t) && s[l] <= Max(s);
  }

  /** The bounding box does not depend on the order of the vertices. */
  lemma {:induction false} GeometryWorldTexelsOrderFree(texels: seq<Vec2>, permuted: seq<Vec2>)
    requires |texels| > 0
    requires multiset(texels) == multiset(permuted)
    ensures |permuted| == |texels| && GeometryWorldTexels(texels) == GeometryWorldTexels(permuted)
  {
    assert |permuted| == |multiset(permuted)| == |multiset(texels)| == |texels|;
    forall v | v in texels ensures v in permuted {
      assert v in multiset(texels);
    }
    forall v | v in permuted ensures v in texels {
      assert v in multiset(permuted);
    }
    var xs, xs' := Xs(texels), Xs(permuted);
    var ys, ys' := Ys(texels), Ys(permuted);
    forall v ensures v in xs <==> v in xs' {
      if v in xs {
        var i :| 0 <= i < |xs| && xs[i] == v;
        assert texels[i] in permuted;
        var j :| 0 <= j < |permuted| && permuted[j] == texels[i];
        assert xs'[j] == v;
      }
      if v in xs' {
        var i :| 0 <= i < |xs'| && xs'[i] == v;
        assert permuted[i] in texels;
        var j :| 0 <= j < |texels| && texels[j] == permuted[i];
        assert xs[j] == v;
      }
    }
    forall v ensures v in ys <==> v in ys' {
      if v in ys {
        var i :| 0 <= i < |ys| && ys[i] == v;
        assert texels[i] in permuted;
        var j :| 0 <= j < |permuted| && permuted[j] == texels[i];
        assert ys'[j] == v;
      }
      if v in ys' {
        var i :| 0 <= i < |ys'| && ys'[i] == v;
        assert permuted[i] in texels;
        var j :| 0 <= j < |texels| && texels[j] == permuted[i];
        assert ys[j] == v;
      }
    }
    ExtremaDependOnValuesOnly(xs, xs');
    ExtremaDependOnValuesOnly(ys, ys');
  }
}
