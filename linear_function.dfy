/** LinearFunction.ts: the world-space-to-texel linear map of one axis. */
module LinearFunction {

  /** `{a, b}`: the map v ↦ a·v + b. */
  datatype LinearFunction = LinearFunction(a: real, b: real)

  /** One linear map per axis, as `update.shapes.worldToFrameTransform` reads it. */
  datatype LinearTransform2d = LinearTransform2d(x: LinearFunction, y: LinearFunction)

  function Apply(f: LinearFunction, v: real): real
  {
    f.a * v + f.b
  }

  /**
   * `wordSpaceTexelFunction(lower, upper)`: the linear map sending `lower` to 0 and
   * `upper` to 1. `lower - upper` is a divisor, so the two bounds must differ.
   */
  function WordSpaceTexelFunction(lower: real, upper: real): (f: LinearFunction)
    requires lower != upper
    ensures Apply(f, lower) == 0.0
    ensures Apply(f, upper) == 1.0
  {
    var diff := lower - upper;
    LinearFunction(-1.0 / diff, lower / diff)
  }

  /** For every value, the map gives its progress (lower − v) / (lower − upper). */
  lemma WordSpaceTexelProgress(lower: real, upper: real, v: real)
    requires lower != upper
    ensures Apply(WordSpaceTexelFunction(lower, upper), v) == (lower - v) / (lower - upper)
  {
    var diff := lower - upper;
    calc {
      Apply(WordSpaceTexelFunction(lower, upper), v);
      (-1.0 / diff) * v + lower / diff;
      { assert (-1.0 / diff) * v == -v / diff; }
      -v / diff + lower / diff;
      (lower - v) / diff;
    }
  }

  /** The slope is positive exactly when `upper > lower`; the map then preserves order. */
  lemma WordSpaceTexelIncreasing(lower: real, upper: real, v: real, w: real)
    requires lower != upper
    ensures WordSpaceTexelFunction(lower, upper).a > 0.0 <==> upper > lower
    ensures upper > lower && v < w ==>
              Apply(WordSpaceTexelFunction(lower, upper), v) < Apply(WordSpaceTexelFunction(lower, upper), w)
  {
    var f := WordSpaceTexelFunction(lower, upper);
    var diff := lower - upper;
    assert f.a == -1.0 / diff;
    if upper > lower {
      assert diff < 0.0;
      assert f.a > 0.0;
      if v < w {
        var gap := w - v;
        assert gap > 0.0;
        assert f.a * gap > 0.0;
        assert f.a * w == f.a * v + f.a * gap;
        assert f.a * v < f.a * w;
        assert Apply(f, v) == f.a * v + f.b && Apply(f, w) == f.a * w + f.b;
      }
    } else {
      assert diff > 0.0;
      assert f.a < 0.0;
    }
  }

  /** A value lies strictly between the bounds exactly when its image lies in (0, 1). */
  lemma WordSpaceTexelInsideUnit(lower: real, upper: real, v: real)
    requires lower < upper
    ensures lower < v < upper <==> 0.0 < Apply(WordSpaceTexelFunction(lower, upper), v) < 1.0
  {
    var f := WordSpaceTexelFunction(lower, upper);
    WordSpaceTexelIncreasing(lower, upper, lower, v);
    WordSpaceTexelIncreasing(lower, upper, v, upper);
    WordSpaceTexelIncreasing(lower, upper, v, lower);
    WordSpaceTexelIncreasing(lower, upper, upper, v);
  }
}
