/**
 * Uniforms.ts: `ShaderUniforms`, the pool of circle records shared with the map
 * shader. The first shader handed to `addShader` donates its uniform dictionary,
 * which is filled with `limit` blank circle records and a live counter; every later
 * shader is pointed at that same dictionary. Callers hold opaque identities that map
 * to record OBJECTS, so records can move inside the shared array without the
 * identities going stale.
 */
module Uniforms {
  import opened Wrappers
  import opened Vectors
  import LinearFunction

  /** `DrawableIdentity.raw`: a UUID. Generation is a fresh-identity oracle. */
  type Identity = string

  /** The resolve callback of one promise returned by `waitForSetup`. */
  type Waiter = nat

  /** An opaque three.js texture handle. */
  type Texture = nat

  // ---------------------------------------------------------------------------
  // The array operations the pool uses
  // ---------------------------------------------------------------------------

  /** `findIndex(y => y === x)`: the first position of `x`, or -1. */
  function IndexOf<T(==)>(s: seq<T>, x: T): (r: int)
    ensures -1 <= r < |s|
    ensures r == -1 <==> x !in s
    ensures 0 <= r ==> s[r] == x && forall i :: 0 <= i < r ==> s[i] != x
  {
    if |s| == 0 then -1
    else if s[0] == x then 0
    else
      var j := IndexOf(s[1..], x);
      if j == -1 then -1 else j + 1
  }

  /** Where `splice(start, …)` starts: a negative start counts from the end. */
  function SpliceStart(length: nat, start: int): (k: nat)
    ensures k <= length
    ensures 0 <= start <= length ==> k == start
    ensures -(length as int) <= start < 0 ==> k as int == length as int + start
  {
    if start < 0 then (if length + start < 0 then 0 else length + start)
    else if start > length then length
    else start
  }

  /**
   * `s.splice(start, 1)`: removes the element at the resolved start, if any; the
   * elements after it shift down one place and keep their order.
   */
  function SpliceOne<T>(s: seq<T>, start: int): (r: seq<T>)
    ensures var k := SpliceStart(|s|, start);
            && (k < |s| ==> |r| == |s| - 1)
            && (k == |s| ==> r == s)
            && (forall i :: 0 <= i < k && i < |r| ==> r[i] == s[i])
            && (forall i :: k <= i < |r| ==> r[i] == s[i + 1])
  {
    var k := SpliceStart(|s|, start);
    if k < |s| then s[..k] + s[k + 1..] else s
  }

  /** A splice of one element removes exactly that element and nothing else. */
  lemma SpliceOneRemovesOne<T>(s: seq<T>, k: nat)
    requires k < |s|
    ensures multiset(SpliceOne(s, k)) + multiset{s[k]} == multiset(s)
  {
    assert s == s[..k] + [s[k]] + s[k + 1..];
    assert SpliceOne(s, k) == s[..k] + s[k + 1..];
  }

  /**
   * The shared array after removing the live record at `k` of the `n` live ones and
   * pushing a blank: the same length, the other live records first in their old order,
   * then the old free slots, then the blank.
   */
  lemma {:induction false} SplicePushKeepsPrefix<T>(s: seq<T>, n: nat, k: nat, blank: T)
    requires k < n <= |s|
    ensures var r := SpliceOne(s, k) + [blank];
            && |r| == |s|
            && r[..n - 1] == s[..k] + s[k + 1..n]
            && r[n - 1..|s| - 1] == s[n..]
            && r[|s| - 1] == blank
  {
    var r := SpliceOne(s, k) + [blank];
    assert SpliceOne(s, k) == s[..k] + s[k + 1..];
    assert r == s[..k] + s[k + 1..] + [blank];
    assert r[..n - 1] == s[..k] + s[k + 1..n];
    assert r[n - 1..|s| - 1] == s[n..];
  }

  /** Removing position `k` of a sequence. */
  function RemoveAt<T>(s: seq<T>, k: nat): (r: seq<T>)
    requires k < |s|
    ensures |r| == |s| - 1
    ensures forall i :: 0 <= i < k ==> r[i] == s[i]
    ensures forall i :: k <= i < |r| ==> r[i] == s[i + 1]
  {
    s[..k] + s[k + 1..]
  }

  predicate Distinct<T(==)>(s: seq<T>)
  {
    forall i, j :: 0 <= i < j < |s| ==> s[i] != s[j]
  }

  /** Removing one element keeps the others distinct, and drops the removed one. */
  lemma DistinctRemoveAt<T>(s: seq<T>, k: nat)
    requires k < |s| && Distinct(s)
    ensures Distinct(RemoveAt(s, k)) && s[k] !in RemoveAt(s, k)
  {
    var r := RemoveAt(s, k);
    forall i, j | 0 <= i < j < |r| ensures r[i] != r[j] {
      var i' := if i < k then i else i + 1;
      var j' := if j < k then j else j + 1;
      assert r[i] == s[i'] && r[j] == s[j'];
    }
    forall i | 0 <= i < |r| ensures r[i] != s[k] {
      var i' := if i < k then i else i + 1;
      assert r[i] == s[i'];
    }
  }

  /** Appending an element that is not there yet keeps a sequence distinct. */
  lemma DistinctAppend<T>(s: seq<T>, x: T)
    requires Distinct(s) && x !in s
    ensures Distinct(s + [x])
  {
  }

  /**
   * How identities sit in the shared array: the live ones, in order, own the first
   * positions; every other bound identity's record is outside the array.
   */
  ghost predicate Layout<R>(circles: seq<R>, live: seq<Identity>, byId: map<Identity, R>)
  {
    && |live| <= |circles|
    && Distinct(circles)
    && Distinct(live)
    && (forall i :: 0 <= i < |live| ==> live[i] in byId && byId[live[i]] == circles[i])
    && (forall id :: id in byId && id !in live ==> byId[id] !in circles)
  }

  /**
   * Removing the `k`-th live identity's record by splice-and-push keeps the layout:
   * the remaining live identities still own the first positions, in the same order,
   * and the removed identity's record has left the array.
   */
  lemma {:induction false} LayoutAfterRemoval<R>(circles: seq<R>, live: seq<Identity>, byId: map<Identity, R>, k: nat, blank: R)
    requires Layout(circles, live, byId)
    requires k < |live| && blank !in circles && blank !in byId.Values
    ensures Layout(SpliceOne(circles, k) + [blank], RemoveAt(live, k), byId)
  {
    var after := SpliceOne(circles, k) + [blank];
    var live' := RemoveAt(live, k);
    SplicePushKeepsPrefix(circles, |live|, k, blank);
    DistinctRemoveAt(circles, k);
    DistinctRemoveAt(live, k);
    assert SpliceOne(circles, k) == RemoveAt(circles, k);
    DistinctAppend(RemoveAt(circles, k), blank);
    forall i | 0 <= i < |live'| ensures live'[i] in byId && byId[live'[i]] == after[i] {
      var i' := if i < k then i else i + 1;
      assert live'[i] == live[i'] && after[i] == circles[i'];
    }
    forall id | id in byId && id !in live' ensures byId[id] !in after {
      if id == live[k] {
        assert byId[id] == circles[k];
      } else {
        forall j | 0 <= j < |live| ensures live[j] != id {
          if j < k {
            assert live'[j] == live[j];
          } else if j > k {
            assert live'[j - 1] == live[j];
          }
        }
      }
    }
  }

  /** A live identity's record is found exactly at its live position. */
  lemma LiveRecordIndex<R>(circles: seq<R>, live: seq<Identity>, byId: map<Identity, R>, k: nat)
    requires Layout(circles, live, byId) && k < |live|
    ensures IndexOf(circles, byId[live[k]]) == k
  {
    var j := IndexOf(circles, byId[live[k]]);
    assert circles[k] == byId[live[k]];
  }

  // ---------------------------------------------------------------------------
  // Records and the uniform dictionary
  // ---------------------------------------------------------------------------

  /** One `{ worldOrigin, radius }` record of the shader's `circles` array. */
  class Circle {
    var worldOrigin: Vec3
    var radius: real

    /** `makeBlankCircle`. */
    constructor Blank()
      ensures worldOrigin == Origin && radius == 0.0
    {
      worldOrigin := Origin;
      radius := 0.0;
    }
  }

  ghost predicate IsBlank(c: Circle)
    reads c
  {
    c.worldOrigin == Origin && c.radius == 0.0
  }

  /** A shader's `uniforms` dictionary: the entries the pool writes. */
  class UniformTable {
    /** `uniforms['circles'].value`. */
    var circles: seq<Circle>
    /** `uniforms['circlesCount'].value`. */
    var circlesCount: int
    /** `uniforms['uShapesWorldToFrameTransform'].value`. */
    var shapesWorldToFrame: LinearFunction.LinearTransform2d
    /** `uniforms['uShapesBufferSampler']`. */
    var shapesBufferSampler: Option<Texture>

    /** A dictionary the pool has not written to yet. */
    constructor ()
      ensures circles == [] && circlesCount == 0 && shapesBufferSampler == None
    {
      circles := [];
      circlesCount := 0;
      shapesWorldToFrame := ZeroTransform;
      shapesBufferSampler := None;
    }
  }

  /** The value `setupShapes` stores: both axes `{ a: 0, b: 0 }`. */
  const ZeroTransform: LinearFunction.LinearTransform2d :=
    LinearFunction.LinearTransform2d(LinearFunction.LinearFunction(0.0, 0.0), LinearFunction.LinearFunction(0.0, 0.0))

  /** A three.js `Shader`: its uniform dictionary can be replaced. */
  class Shader {
    var uniforms: UniformTable

    constructor (uniforms: UniformTable)
      ensures this.uniforms == uniforms
    {
      this.uniforms := uniforms;
    }
  }

  // ---------------------------------------------------------------------------
  // ShaderUniforms
  // ---------------------------------------------------------------------------

  class ShaderUniforms {
    /** `constants.circles.limit`: the length of the shader's circle array. */
    const limit: nat
    /** `uniforms`: unset until the first `addShader`. */
    var uniforms: UniformTable?
    /** `circlesByIds`: never shrinks, so removed identities keep their detached record. */
    var circlesByIds: map<Identity, Circle>
    var circlesCount: int
    /** `waitingForSetup`: resolvers queued before setup (never cleared). */
    var waitingForSetup: seq<Waiter>
    /** The waiters whose promise has been resolved, in resolution order. */
    var resolved: seq<Waiter>
    /** The live identities in creation order. */
    ghost var live: seq<Identity>

    /** The records the pool owns: the shared array, or none before setup. */
    ghost function Records(): seq<Circle>
      reads this, uniforms
    {
      if uniforms == null then [] else uniforms.circles
    }

    /**
     * The facts every operation keeps, whatever identity it is given: the shared
     * array has `limit` distinct records, the counter is mirrored into the dictionary,
     * and the waiters are released exactly when setup has happened.
     */
    ghost predicate Shaped()
      reads this, uniforms
    {
      && limit > 0
      && (uniforms == null ==> circlesCount == 0 && circlesByIds == map[] && live == [] && resolved == [])
      && (uniforms != null ==>
            && |uniforms.circles| == limit
            && uniforms.circlesCount == circlesCount
            && Distinct(uniforms.circles)
            && waitingForSetup <= resolved)
    }

    /**
     * The pool invariant: positions [0, circlesCount) hold exactly the records of the
     * live identities, in creation order; the other positions hold blank records that
     * no identity is bound to; a removed identity's record is no longer in the array.
     */
    ghost predicate Valid()
      reads this, uniforms, Records()
    {
      && Shaped()
      && (uniforms != null ==>
            && 0 <= circlesCount <= limit
            && |live| == circlesCount
            && Layout(uniforms.circles, live, circlesByIds)
            && (forall i :: circlesCount <= i < |uniforms.circles| ==> IsBlank(uniforms.circles[i])))
    }

    constructor (limit: nat)
      requires limit > 0
      ensures Valid()
      ensures this.limit == limit && uniforms == null
      ensures circlesCount == 0 && circlesByIds == map[] && waitingForSetup == [] && resolved == []
    {
      this.limit := limit;
      uniforms := null;
      circlesByIds := map[];
      circlesCount := 0;
      waitingForSetup := [];
      resolved := [];
      live := [];
    }

    /** `setupCircles`: `limit` fresh blank records and a zero counter. */
    method SetupCircles(table: UniformTable)
      modifies table
      ensures |table.circles| == limit && Distinct(table.circles)
      ensures forall i :: 0 <= i < limit ==> fresh(table.circles[i]) && IsBlank(table.circles[i])
      ensures table.circlesCount == 0
      ensures table.shapesWorldToFrame == old(table.shapesWorldToFrame)
      ensures table.shapesBufferSampler == old(table.shapesBufferSampler)
    {
      var circles: seq<Circle> := [];
      for index := 0 to limit
        invariant |circles| == index
        invariant Distinct(circles)
        invariant forall i :: 0 <= i < index ==> fresh(circles[i]) && IsBlank(circles[i])
        invariant unchanged(table)
      {
        var c := new Circle.Blank();
        circles := circles + [c];
      }
      table.circles := circles;
      table.circlesCount := 0;
    }

    /** `setupShapes`. */
    method SetupShapes(table: UniformTable)
      modifies table
      ensures table.shapesWorldToFrame == ZeroTransform
      ensures table.circles == old(table.circles) && table.circlesCount == old(table.circlesCount)
      ensures table.shapesBufferSampler == old(table.shapesBufferSampler)
    {
      table.shapesWorldToFrame := ZeroTransform;
    }

    /**
     * `addShader`: the first call adopts the shader's dictionary, sets it up and
     * releases every queued waiter; every call leaves the shader holding the one
     * shared dictionary.
     */
    method AddShader(shader: Shader)
      requires Valid()
      modifies this, shader, shader.uniforms
      ensures Valid()
      ensures uniforms != null && shader.uniforms == uniforms
      ensures old(uniforms) == null ==>
                && uniforms == old(shader.uniforms)
                && |uniforms.circles| == limit
                && (forall i :: 0 <= i < limit ==> fresh(uniforms.circles[i]) && IsBlank(uniforms.circles[i]))
                && circlesCount == 0 && uniforms.circlesCount == 0
                && uniforms.shapesWorldToFrame == ZeroTransform
                && uniforms.shapesBufferSampler == old(shader.uniforms.shapesBufferSampler)
                && resolved == old(resolved) + old(waitingForSetup)
      ensures old(uniforms) != null ==>
                && uniforms == old(uniforms) && resolved == old(resolved)
                && uniforms.circles == old(uniforms.circles) && circlesCount == old(circlesCount)
                && unchanged(old(uniforms)) && unchanged(old(shader.uniforms))
      ensures circlesByIds == old(circlesByIds) && waitingForSetup == old(waitingForSetup) && live == old(live)
    {
      if uniforms == null {
        var table := shader.uniforms;
        uniforms := table;
        SetupCircles(table);
        SetupShapes(table);
        resolved := resolved + waitingForSetup;
      }
      shader.uniforms := uniforms;
    }

    /**
     * `waitForSetup`: resolves at once when setup has happened; otherwise the waiter
     * is queued until the first `addShader`.
     */
    method WaitForSetup(waiter: Waiter) returns (resolvedNow: bool)
      requires Valid()
      modifies this
      ensures Valid()
      ensures resolvedNow == (uniforms != null) && uniforms == old(uniforms)
      ensures resolvedNow ==> resolved == old(resolved) + [waiter] && waitingForSetup == old(waitingForSetup)
      ensures !resolvedNow ==> waitingForSetup == old(waitingForSetup) + [waiter] && resolved == old(resolved)
      ensures circlesByIds == old(circlesByIds) && circlesCount == old(circlesCount) && live == old(live)
    {
      if uniforms != null {
        resolved := resolved + [waiter];
        return true;
      }
      waitingForSetup := waitingForSetup + [waiter];
      return false;
    }

    /**
     * `create.circle`: binds the fresh identity to the record at position
     * `circlesCount` and bumps the mirrored counter. Before setup the read of
     * `uniforms['circles']` throws and nothing changes. There is no range check: at a
     * counter outside [0, limit) the record read is `undefined`, and an identity bound
     * to `undefined` behaves exactly like an identity the pool never bound (every later
     * read of it gives `undefined`), so the model leaves it unbound while the counter
     * still goes up.
     */
    method CreateCircle(uuid: Identity) returns (r: Result<Identity>)
      requires Shaped()
      requires uuid !in circlesByIds
      modifies this, uniforms
      ensures Shaped()
      ensures uniforms == old(uniforms)
      ensures old(uniforms) == null ==> r == Failure(UndefinedError) && unchanged(this)
      ensures old(uniforms) != null ==>
                && r == Success(uuid)
                && circlesCount == old(circlesCount) + 1 && uniforms.circlesCount == circlesCount
                && uniforms.circles == old(uniforms.circles)
                && uniforms.shapesWorldToFrame == old(uniforms.shapesWorldToFrame)
                && uniforms.shapesBufferSampler == old(uniforms.shapesBufferSampler)
      ensures old(uniforms) != null && 0 <= old(circlesCount) < limit ==>
                && circlesByIds == old(circlesByIds)[uuid := old(uniforms.circles[circlesCount])]
                && live == old(live) + [uuid]
      ensures old(uniforms) != null && !(0 <= old(circlesCount) < limit) ==>
                circlesByIds == old(circlesByIds) && live == old(live)
      ensures old(Valid()) && old(uniforms) != null && old(circlesCount) < limit ==>
                Valid() && uuid in circlesByIds && IsBlank(circlesByIds[uuid])
      ensures waitingForSetup == old(waitingForSetup) && resolved == old(resolved)
    {
      if uniforms == null {
        return Failure(UndefinedError);
      }
      ghost var wasValid := Valid();
      if 0 <= circlesCount < limit {
        circlesByIds := circlesByIds[uuid := uniforms.circles[circlesCount]];
        live := live + [uuid];
      }
      circlesCount := circlesCount + 1;
      uniforms.circlesCount := circlesCount;
      if wasValid && circlesCount <= limit {
        forall id | id in circlesByIds && id !in live ensures circlesByIds[id] !in uniforms.circles {
          assert id in old(circlesByIds) && id !in old(live);
        }
      }
      return Success(uuid);
    }

    /**
     * `update.circle.radius`: writes the radius of the bound record and nothing else;
     * for an identity bound to no record the write to `undefined` throws.
     */
    method UpdateRadius(identity: Identity, radius: real) returns (outcome: Outcome)
      requires Shaped()
      modifies if identity in circlesByIds then {circlesByIds[identity]} else {}
      ensures outcome == if identity in circlesByIds then Pass else Fail(UndefinedWriteError)
      ensures identity in circlesByIds ==>
                && circlesByIds[identity].radius == radius
                && circlesByIds[identity].worldOrigin == old(circlesByIds[identity].worldOrigin)
      ensures old(Valid()) ==> Valid()
      ensures old(Valid()) && identity in circlesByIds && identity !in live ==> circlesByIds[identity] !in Records()
    {
      if identity !in circlesByIds {
        return Fail(UndefinedWriteError);
      }
      circlesByIds[identity].radius := radius;
      return Pass;
    }

    /**
     * `update.circle.geoposition`: writes the world origin of the bound record only;
     * for an identity bound to no record the write to `undefined` throws.
     */
    method UpdateGeoposition(identity: Identity, worldSurfacePosition: Vec3) returns (outcome: Outcome)
      requires Shaped()
      modifies if identity in circlesByIds then {circlesByIds[identity]} else {}
      ensures outcome == if identity in circlesByIds then Pass else Fail(UndefinedWriteError)
      ensures identity in circlesByIds ==>
                && circlesByIds[identity].worldOrigin == worldSurfacePosition
                && circlesByIds[identity].radius == old(circlesByIds[identity].radius)
      ensures old(Valid()) ==> Valid()
      ensures old(Valid()) && identity in circlesByIds && identity !in live ==> circlesByIds[identity] !in Records()
    {
      if identity !in circlesByIds {
        return Fail(UndefinedWriteError);
      }
      circlesByIds[identity].worldOrigin := worldSurfacePosition;
      return Pass;
    }

    /**
     * `update.shapes.worldToFrameTransform`: stores a copy of both axes' coefficients;
     * before setup the read of `uniforms[…]` throws and nothing changes.
     */
    method UpdateWorldToFrameTransform(transform: LinearFunction.LinearTransform2d) returns (outcome: Outcome)
      requires Shaped()
      modifies uniforms
      ensures outcome == if uniforms == null then Fail(UndefinedError) else Pass
      ensures uniforms != null ==>
                && uniforms.shapesWorldToFrame == transform
                && uniforms.circles == old(uniforms.circles) && uniforms.circlesCount == old(uniforms.circlesCount)
                && uniforms.shapesBufferSampler == old(uniforms.shapesBufferSampler)
      ensures old(Valid()) ==> Valid()
    {
      if uniforms == null {
        return Fail(UndefinedError);
      }
      uniforms.shapesWorldToFrame := LinearFunction.LinearTransform2d(
        LinearFunction.LinearFunction(transform.x.a, transform.x.b),
        LinearFunction.LinearFunction(transform.y.a, transform.y.b));
      return Pass;
    }

    /**
     * `update.shapes.bufferTexture`; before setup the write into `undefined` throws
     * and nothing changes.
     */
    method UpdateBufferTexture(texture: Texture) returns (outcome: Outcome)
      requires Shaped()
      modifies uniforms
      ensures outcome == if uniforms == null then Fail(UndefinedWriteError) else Pass
      ensures uniforms != null ==>
                && uniforms.shapesBufferSampler == Some(texture)
                && uniforms.circles == old(uniforms.circles) && uniforms.circlesCount == old(uniforms.circlesCount)
                && uniforms.shapesWorldToFrame == old(uniforms.shapesWorldToFrame)
      ensures old(Valid()) ==> Valid()
    {
      if uniforms == null {
        return Fail(UndefinedWriteError);
      }
      uniforms.shapesBufferSampler := Some(texture);
      return Pass;
    }

    /** The position `remove.circle` splices: where the bound record is, or -1. */
    function RemovalIndex(identity: Identity): (k: int)
      requires Shaped() && uniforms != null
      reads this, uniforms
      ensures -1 <= k < limit
      ensures identity in circlesByIds && 0 <= k ==> uniforms.circles[k] == circlesByIds[identity]
      ensures k == -1 <==> identity !in circlesByIds || circlesByIds[identity] !in uniforms.circles
    {
      if identity in circlesByIds then IndexOf(uniforms.circles, circlesByIds[identity]) else -1
    }

    /**
     * `remove.circle`, as written: splices out the record found by identity, pushes
     * a fresh blank, and decrements the counter. The identity stays bound to its now
     * detached record, and no record's fields change. For an identity that is not
     * live, `findIndex` gives -1 and `splice(-1, 1)` drops the LAST slot while the
     * counter still goes down. Before setup the read of `uniforms['circles']` throws
     * and nothing changes. `RemovalKeepsValid` states that for a live identity the
     * pool invariant is kept.
     */
    method RemoveCircle(identity: Identity) returns (outcome: Outcome)
      requires Shaped()
      modifies this, uniforms
      ensures Shaped()
      ensures outcome == if old(uniforms) == null then Fail(UndefinedError) else Pass
      ensures old(uniforms) == null ==> unchanged(this)
      ensures uniforms == old(uniforms)
      ensures outcome.Pass? ==> uniforms != null && |uniforms.circles| == limit
      ensures outcome.Pass? ==> fresh(uniforms.circles[limit - 1]) && IsBlank(uniforms.circles[limit - 1])
      ensures outcome.Pass? ==> uniforms.circles == SpliceOne(old(uniforms.circles), old(RemovalIndex(identity))) + [uniforms.circles[limit - 1]]
      ensures outcome.Pass? ==> old(RemovalIndex(identity)) == -1 ==> uniforms.circles[..limit - 1] == old(uniforms.circles[..limit - 1])
      ensures outcome.Pass? ==> circlesCount == old(circlesCount) - 1 && uniforms.circlesCount == circlesCount
      ensures outcome.Pass? ==> circlesByIds == old(circlesByIds)
      ensures outcome.Pass? ==> forall id :: id in circlesByIds ==>
                circlesByIds[id].radius == old(circlesByIds[id].radius) &&
                circlesByIds[id].worldOrigin == old(circlesByIds[id].worldOrigin)
      ensures outcome.Pass? ==> live == if identity in old(live) then RemoveAt(old(live), IndexOf(old(live), identity)) else old(live)
      ensures outcome.Pass? ==> uniforms.shapesWorldToFrame == old(uniforms.shapesWorldToFrame)
      ensures outcome.Pass? ==> uniforms.shapesBufferSampler == old(uniforms.shapesBufferSampler)
      ensures outcome.Pass? ==> waitingForSetup == old(waitingForSetup) && resolved == old(resolved)
    {
      if uniforms == null {
        return Fail(UndefinedError);
      }
      ghost var before := uniforms.circles;
      var indexToRemove := RemovalIndex(identity);
      var circles := SpliceOne(uniforms.circles, indexToRemove);
      if indexToRemove == -1 {
        assert circles == before[..limit - 1];
      } else {
        DistinctRemoveAt(before, indexToRemove);
        assert circles == RemoveAt(before, indexToRemove);
      }
      var blank := new Circle.Blank();
      DistinctAppend(circles, blank);
      uniforms.circles := circles + [blank];
      circlesCount := circlesCount - 1;
      uniforms.circlesCount := circlesCount;
      if identity in live {
        live := RemoveAt(live, IndexOf(live, identity));
      }
      return Pass;
    }

    /**
     * What `RemoveCircle` does, applied to a live identity of a valid pool, keeps the
     * pool invariant, and the identity leaves the live sequence at the very position
     * its record was spliced from.
     */
    twostate lemma RemovalKeepsValid(identity: Identity)
      requires old(Valid()) && old(uniforms) != null && identity in old(live)
      requires uniforms == old(uniforms) && |uniforms.circles| == limit
      requires fresh(uniforms.circles[limit - 1]) && IsBlank(uniforms.circles[limit - 1])
      requires uniforms.circles == SpliceOne(old(uniforms.circles), old(RemovalIndex(identity))) + [uniforms.circles[limit - 1]]
      requires circlesCount == old(circlesCount) - 1 && uniforms.circlesCount == circlesCount
      requires circlesByIds == old(circlesByIds) && waitingForSetup == old(waitingForSetup) && resolved == old(resolved)
      requires live == RemoveAt(old(live), IndexOf(old(live), identity))
      requires forall c :: c in old(uniforms.circles) ==> unchanged(c)
      ensures Valid() && IndexOf(old(live), identity) == old(RemovalIndex(identity))
    {
      var j := IndexOf(old(live), identity);
      var before := old(uniforms.circles);
      LiveRecordIndex(before, old(live), old(circlesByIds), j);
      forall i | old(circlesCount) <= i < limit ensures IsBlank(before[i]) {
        assert before[i] in old(uniforms.circles);
        assert old(IsBlank(before[i]));
      }
      RemovalKeepsPool(before, old(live), old(circlesByIds), j, uniforms.circles[limit - 1]);
    }

    /**
     * The pool invariant on values: splicing out the `k`-th live record and pushing a
     * fresh blank keeps the layout, and every position from the new count on is blank.
     */
    static lemma RemovalKeepsPool(before: seq<Circle>, live: seq<Identity>, byId: map<Identity, Circle>, k: nat, blank: Circle)
      requires Layout(before, live, byId) && k < |live|
      requires forall i :: |live| <= i < |before| ==> IsBlank(before[i])
      requires IsBlank(blank) && blank !in before && blank !in byId.Values
      ensures Layout(SpliceOne(before, k) + [blank], RemoveAt(live, k), byId)
      ensures var after := SpliceOne(before, k) + [blank];
              forall i :: |live| - 1 <= i < |after| ==> IsBlank(after[i])
    {
      LayoutAfterRemoval(before, live, byId, k, blank);
      SplicePushKeepsPrefix(before, |live|, k, blank);
      var after := SpliceOne(before, k) + [blank];
      forall i | |live| - 1 <= i < |after| ensures IsBlank(after[i]) {
        if i < |after| - 1 {
          assert after[i] == after[|live| - 1..|after| - 1][i - (|live| - 1)] == before[i + 1];
        }
      }
    }

    /**
     * The evidently intended `remove.circle`: an identity that is not live, and so
     * every identity before setup, is refused (an unknown-identity error) and nothing
     * changes; a live one is removed
     * as above. The pool invariant holds after every call.
     */
    method RemoveCircleChecked(identity: Identity) returns (removed: bool)
      requires Valid()
      modifies this, uniforms
      ensures Valid()
      ensures removed == (identity in old(live))
      ensures uniforms == old(uniforms)
      ensures !removed ==> circlesCount == old(circlesCount) && Records() == old(Records()) && live == old(live)
      ensures !removed ==> unchanged(this) && (old(uniforms) != null ==> unchanged(old(uniforms)))
      ensures removed ==> uniforms != null && circlesCount == old(circlesCount) - 1
      ensures removed ==> live == RemoveAt(old(live), old(RemovalIndex(identity)))
      ensures removed ==> uniforms.shapesWorldToFrame == old(uniforms.shapesWorldToFrame)
      ensures removed ==> uniforms.shapesBufferSampler == old(uniforms.shapesBufferSampler)
      ensures circlesByIds == old(circlesByIds) && waitingForSetup == old(waitingForSetup) && resolved == old(resolved)
    {
      if uniforms == null {
        return false;
      }
      var k := RemovalIndex(identity);
      if identity in live {
        var j :| 0 <= j < |live| && live[j] == identity;
        LiveRecordIndex(uniforms.circles, live, circlesByIds, j);
      } else if identity in circlesByIds {
        assert circlesByIds[identity] !in uniforms.circles;
      }
      if k < 0 || k >= circlesCount {
        return false;
      }
      var outcome := RemoveCircle(identity);
      RemovalKeepsValid(identity);
      return true;
    }
  }

  // ---------------------------------------------------------------------------
  // Clients
  // ---------------------------------------------------------------------------

  /**
   * Two circles at capacity 2, a radius update, then removal of the first: one
   * circle stays live, its record now sits at position 0 with its radius intact.
   */
  method RemoveFirstOfTwo() returns (count: int, secondAtZero: bool, intactRadius: bool)
    ensures count == 1 && secondAtZero && intactRadius
  {
    var pool := new ShaderUniforms(2);
    var table := new UniformTable();
    var shader := new Shader(table);
    pool.AddShader(shader);
    var first := pool.CreateCircle("first");
    var second := pool.CreateCircle("second");
    var updated := pool.UpdateRadius(second.value, 500.0);
    updated := pool.UpdateRadius(first.value, 500.0);
    var removed := pool.RemoveCircle(first.value);
    count := pool.circlesCount;
    secondAtZero := pool.uniforms.circles[0] == pool.circlesByIds[second.value];
    intactRadius := pool.circlesByIds[second.value].radius == 500.0;
  }

  /**
   * Removing the same identity twice, as written: the second call drops a slot and
   * decrements the counter again, so the next creation is handed the record that a
   * live identity already owns.
   */
  method DoubleRemoveAliases() returns (countAfter: int, aliased: bool)
    ensures countAfter == 0 && aliased
  {
    var pool := new ShaderUniforms(2);
    var table := new UniformTable();
    var shader := new Shader(table);
    pool.AddShader(shader);
    var a := pool.CreateCircle("a");
    var b := pool.CreateCircle("b");
    var removed := pool.RemoveCircle(a.value);
    removed := pool.RemoveCircle(a.value);
    countAfter := pool.circlesCount;
    var c := pool.CreateCircle("c");
    aliased := pool.circlesByIds[c.value] == pool.circlesByIds[b.value];
  }

  /**
   * Before the first shader arrives every operation that touches the dictionary
   * throws, and an identity the pool never bound cannot be updated.
   */
  method CallsBeforeSetupThrow() returns (created: Result<Identity>, moved: Outcome, removed: Outcome, resized: Outcome)
    ensures created == Failure(UndefinedError) && moved == Fail(UndefinedError)
    ensures removed == Fail(UndefinedError) && resized == Fail(UndefinedWriteError)
  {
    var pool := new ShaderUniforms(2);
    created := pool.CreateCircle("a");
    moved := pool.UpdateWorldToFrameTransform(ZeroTransform);
    removed := pool.RemoveCircle("a");
    resized := pool.UpdateRadius("a", 1.0);
  }

  /** With the checked removal the second call is refused and the pool stays consistent. */
  method DoubleRemoveChecked() returns (countAfter: int, secondRefused: bool, distinct: bool)
    ensures countAfter == 1 && secondRefused && distinct
  {
    var pool := new ShaderUniforms(2);
    var table := new UniformTable();
    var shader := new Shader(table);
    pool.AddShader(shader);
    var a := pool.CreateCircle("a");
    var b := pool.CreateCircle("b");
    var first := pool.RemoveCircleChecked(a.value);
    var second := pool.RemoveCircleChecked(a.value);
    countAfter := pool.circlesCount;
    secondRefused := !second;
    var c := pool.CreateCircle("c");
    distinct := pool.circlesByIds[c.value] != pool.circlesByIds[b.value];
  }
}
