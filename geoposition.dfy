/**
 * `Geoposition`: a longitude/latitude/altitude triple with two lazily computed,
 * cached projections: the world position (x, 0, -y of the spherical projection) and
 * the world texel (its x and z).
 */
module Geopositions {
  import opened Wrappers
  import opened Vectors

  /**
   * `UnitsUtils.datumsToSpherical(latitude, longitude)`: the projection to the plane.
   * It is not part of this model and is left uninterpreted; note the argument order.
   */
  type Projection = (real, real) -> Vec2

  class Geoposition {
    const longitude: real
    const latitude: real
    const altitude: Option<real>
    const toSpherical: Projection
    /** `_worldPosition`: unset until the first read of `worldPosition`. */
    var worldPositionCache: Option<Vec3>
    /** `_worldTexel`: unset until the first successful read of `worldTexel`. */
    var worldTexelCache: Option<Vec2>
    /** How many times the projection has been evaluated. */
    ghost var projections: nat

    /** The world position the getter computes: x of the projection, 0, minus its y. */
    function ExpectedWorldPosition(): (p: Vec3)
      ensures var c := toSpherical(latitude, longitude); p.x == c.x && p.y == 0.0 && p.z == -c.y
    {
      var coords := toSpherical(latitude, longitude);
      Vec3(coords.x, 0.0, -coords.y)
    }

    /** The world texel: the world position seen from above, (x, z). */
    function ExpectedWorldTexel(): Vec2
    {
      Vec2(ExpectedWorldPosition().x, ExpectedWorldPosition().z)
    }

    /**
     * The caches only ever hold the projected values, a texel is cached only after a
     * position, and the projection has run exactly once if the position is cached.
     */
    ghost predicate Valid()
      reads this
    {
      && (worldPositionCache.Some? ==> worldPositionCache.value == ExpectedWorldPosition())
      && (worldTexelCache.Some? ==> worldTexelCache.value == ExpectedWorldTexel() && worldPositionCache.Some?)
      && projections == (if worldPositionCache.Some? then 1 else 0)
    }

    /** The constructor copies the three coordinates; both caches start unset. */
    constructor (longitude: real, latitude: real, altitude: Option<real>, toSpherical: Projection)
      ensures Valid()
      ensures this.longitude == longitude && this.latitude == latitude && this.altitude == altitude
      ensures this.toSpherical == toSpherical
      ensures worldPositionCache.None? && worldTexelCache.None?
    {
      this.longitude := longitude;
      this.latitude := latitude;
      this.altitude := altitude;
      this.toSpherical := toSpherical;
      worldPositionCache := None;
      worldTexelCache := None;
      projections := 0;
    }

    /** The `worldPosition` getter: project on the first read, return the cached value after. */
    method WorldPosition() returns (p: Vec3)
      requires Valid()
      modifies this
      ensures Valid()
      ensures p == ExpectedWorldPosition() && worldPositionCache == Some(p)
      ensures worldTexelCache == old(worldTexelCache)
      ensures old(worldPositionCache).Some? ==> unchanged(this)
      ensures projections <= 1
    {
      if worldPositionCache.None? {
        var coords := toSpherical(latitude, longitude);
        worldPositionCache := Some(Vec3(coords.x, 0.0, -coords.y));
        projections := projections + 1;
      }
      return worldPositionCache.value;
    }

    /**
     * The `worldTexel` getter as written: on a cache miss it reads `_worldPosition.x`
     * directly, before the `worldPosition` getter has had a chance to fill it, so
     * on an object whose world position was never read it throws.
     */
    method WorldTexel() returns (r: Result<Vec2>)
      requires Valid()
      modifies this
      ensures Valid()
      ensures old(worldTexelCache).None? && old(worldPositionCache).None? ==>
                r == Failure(UndefinedError) && unchanged(this)
      ensures old(worldTexelCache).Some? || old(worldPositionCache).Some? ==>
                r == Success(ExpectedWorldTexel()) && worldTexelCache == Some(r.value) &&
                worldPositionCache == old(worldPositionCache)
      ensures projections == old(projections)
    {
      if worldTexelCache.None? {
        if worldPositionCache.None? {
          return Failure(UndefinedError);
        }
        var x := worldPositionCache.value.x;
        var position := WorldPosition();
        worldTexelCache := Some(Vec2(x, position.z));
      }
      return Success(worldTexelCache.value);
    }

    /** `worldTexel` read through the getter, as evidently intended: it never throws. */
    method WorldTexelFixed() returns (t: Vec2)
      requires Valid()
      modifies this
      ensures Valid()
      ensures t == ExpectedWorldTexel() && worldTexelCache == Some(t)
      ensures worldPositionCache.Some? && projections <= 1
    {
      if worldTexelCache.None? {
        var position := WorldPosition();
        worldTexelCache := Some(Vec2(position.x, position.z));
      }
      return worldTexelCache.value;
    }
  }

  /** The texel is the projection with its y negated: (c.x, -c.y). */
  lemma TexelOfProjection(g: Geoposition)
    ensures var c := g.toSpherical(g.latitude, g.longitude); g.ExpectedWorldTexel() == Vec2(c.x, -c.y)
  {
  }

  /** Reading `worldTexel` first on a fresh geoposition throws. */
  method FreshWorldTexelThrows(longitude: real, latitude: real, toSpherical: Projection) returns (r: Result<Vec2>)
    ensures r == Failure(UndefinedError)
  {
    var g := new Geoposition(longitude, latitude, None, toSpherical);
    r := g.WorldTexel();
  }

  /** Reading `worldPosition` first makes the as-written getter succeed with the projected texel. */
  method PositionThenTexel(longitude: real, latitude: real, toSpherical: Projection) returns (r: Result<Vec2>)
    ensures var c := toSpherical(latitude, longitude); r == Success(Vec2(c.x, -c.y))
  {
    var g := new Geoposition(longitude, latitude, None, toSpherical);
    var p := g.WorldPosition();
    r := g.WorldTexel();
  }

  /** On a fresh geoposition the corrected getter yields the projected texel. */
  method FreshWorldTexelFixed(longitude: real, latitude: real, toSpherical: Projection) returns (t: Vec2)
    ensures var c := toSpherical(latitude, longitude); t == Vec2(c.x, -c.y)
  {
    var g := new Geoposition(longitude, latitude, None, toSpherical);
    t := g.WorldTexelFixed();
  }
}
