/**
 * `MapHeightNode`: a tile of the height-map quadtree. Its address is (level, x, y);
 * it becomes visible once both its texture and its height geometry have arrived;
 * it splits into four children one level down; its identity string names the tile.
 */
module MapHeightNodes {
  import opened Wrappers
  import opened Vectors

  // ---------------------------------------------------------------------------
  // Tile addresses
  // ---------------------------------------------------------------------------

  /** `MapNode.root`, `topLeft`, `topRight`, `bottomLeft`, `bottomRight`. */
  datatype Quadrant = Root | TopLeft | TopRight | BottomLeft | BottomRight

  /** The position of a tile in the quadtree. */
  datatype TileAddress = TileAddress(level: nat, x: nat, y: nat)

  /** The order in which `createChildNodes` adds the children. */
  const ChildQuadrants: seq<Quadrant> := [TopLeft, TopRight, BottomLeft, BottomRight]

  predicate IsRight(q: Quadrant)
  {
    q == TopRight || q == BottomRight
  }

  predicate IsBottom(q: Quadrant)
  {
    q == BottomLeft || q == BottomRight
  }

  /** The child in quadrant `q`: one level down, at (2x + dx, 2y + dy). */
  function ChildAddress(a: TileAddress, q: Quadrant): (c: TileAddress)
    requires q != Root
    ensures c.level == a.level + 1
  {
    TileAddress(a.level + 1, 2 * a.x + (if IsRight(q) then 1 else 0), 2 * a.y + (if IsBottom(q) then 1 else 0))
  }

  /** The tile one level up that covers `a`. */
  function ParentAddress(a: TileAddress): TileAddress
    requires a.level >= 1
  {
    TileAddress(a.level - 1, a.x / 2, a.y / 2)
  }

  /** The quadrant of its parent in which `a` lies. */
  function QuadrantOf(a: TileAddress): (q: Quadrant)
    requires a.level >= 1
    ensures q != Root
  {
    if a.y % 2 == 0 then (if a.x % 2 == 0 then TopLeft else TopRight)
    else (if a.x % 2 == 0 then BottomLeft else BottomRight)
  }

  /** A child's parent is the tile it was made from, and its quadrant is the one it was made for. */
  lemma ChildParentRoundTrip(a: TileAddress, q: Quadrant)
    requires q != Root
    ensures ParentAddress(ChildAddress(a, q)) == a
    ensures QuadrantOf(ChildAddress(a, q)) == q
  {
    var c := ChildAddress(a, q);
    var dx, dy := c.x - 2 * a.x, c.y - 2 * a.y;
    assert c.x == 2 * a.x + dx && 0 <= dx < 2;
    assert c.y == 2 * a.y + dy && 0 <= dy < 2;
    assert c.x / 2 == a.x && c.x % 2 == dx;
    assert c.y / 2 == a.y && c.y % 2 == dy;
  }

  /** Every tile below the root is a child of its parent. */
  lemma ParentChildRoundTrip(a: TileAddress)
    requires a.level >= 1
    ensures ChildAddress(ParentAddress(a), QuadrantOf(a)) == a
  {
  }

  /** The four children of a tile have four different addresses. */
  lemma ChildAddressesDistinct(a: TileAddress, i: nat, j: nat)
    requires i < 4 && j < 4 && i != j
    ensures ChildAddress(a, ChildQuadrants[i]) != ChildAddress(a, ChildQuadrants[j])
  {
  }

  // ---------------------------------------------------------------------------
  // Child placement
  // ---------------------------------------------------------------------------

  /** The scale every child gets: half the parent's extent in x and z. */
  const ChildScale: Vec3 := Vec3(0.5, 1.0, 0.5)

  /** The position of a child inside its parent, a quarter of the extent towards its quadrant. */
  function QuadrantOffset(q: Quadrant): Vec3
    requires q != Root
  {
    Vec3(if IsRight(q) then 0.25 else -0.25, 0.0, if IsBottom(q) then 0.25 else -0.25)
  }

  /**
   * A child is shifted right exactly when its x address is odd and down (+z) exactly
   * when its y address is odd, by a quarter of the parent in each direction.
   */
  lemma OffsetMatchesAddress(a: TileAddress, q: Quadrant)
    requires q != Root
    ensures var o := QuadrantOffset(q); var c := ChildAddress(a, q);
            && (o.x > 0.0 <==> c.x % 2 == 1) && (o.z > 0.0 <==> c.y % 2 == 1)
            && (o.x == 0.25 || o.x == -0.25) && o.y == 0.0 && (o.z == 0.25 || o.z == -0.25)
  {
    ChildParentRoundTrip(a, q);
  }

  // ---------------------------------------------------------------------------
  // Identity strings
  // ---------------------------------------------------------------------------

  /** The decimal digit of `d`. */
  function Digit(d: nat): (c: char)
    requires d < 10
    ensures '0' <= c <= '9'
  {
    (48 + d) as char
  }

  /** A string of decimal digits only. */
  predicate Decimal(s: string)
  {
    forall i :: 0 <= i < |s| ==> '0' <= s[i] <= '9'
  }

  /** JavaScript's `${n}` for a non-negative integer. */
  function NatToString(n: nat): (s: string)
    ensures Decimal(s) && 1 <= |s|
    ensures |s| == 1 <==> n < 10
  {
    if n < 10 then [Digit(n)] else NatToString(n / 10) + [Digit(n % 10)]
  }

  /** Different numbers have different decimal strings. */
  lemma {:induction false} NatToStringInjective(a: nat, b: nat)
    requires NatToString(a) == NatToString(b)
    ensures a == b
  {
    var s := NatToString(a);
    if a >= 10 && b >= 10 {
      assert NatToString(a / 10) == s[..|s| - 1] == NatToString(b / 10);
      NatToStringInjective(a / 10, b / 10);
      assert Digit(a % 10) == s[|s| - 1] == Digit(b % 10);
    } else {
      assert Digit(a) == s[0] == Digit(b);
    }
  }

  /** In `a + "/" + b` with `a` decimal, the first slash is at position |a|. */
  lemma FirstSlash(a: string, b: string)
    requires Decimal(a)
    ensures (a + "/" + b)[|a|] == '/'
    ensures forall i :: 0 <= i < |a| ==> (a + "/" + b)[i] != '/'
  {
    forall i | 0 <= i < |a| ensures (a + "/" + b)[i] != '/' {
      assert (a + "/" + b)[i] == a[i];
    }
  }

  /** Text before a separator that occurs in neither prefix splits the same way. */
  lemma SplitAtSlash(a: string, b: string, c: string, d: string)
    requires Decimal(a) && Decimal(c)
    requires a + "/" + b == c + "/" + d
    ensures a == c && b == d
  {
    var s := a + "/" + b;
    FirstSlash(a, b);
    FirstSlash(c, d);
    assert |a| == |c|;
    assert a == s[..|a|] == c;
    assert b == s[|a| + 1..] == d;
  }

  const IdentityPrefix: string := "MapHeighNode-"

  /** `{x}/{y}`. */
  function PairText(x: nat, y: nat): string
  {
    NatToString(x) + "/" + NatToString(y)
  }

  /** `{level}/{x}/{y}`. */
  function AddressText(a: TileAddress): string
  {
    NatToString(a.level) + "/" + PairText(a.x, a.y)
  }

  /** `identity()`: `MapHeighNode-{level}/{x}/{y}`. */
  function NodeIdentity(a: TileAddress): string
  {
    IdentityPrefix + AddressText(a)
  }

  /** `{x}/{y}` determines x and y. */
  lemma PairTextInjective(x: nat, y: nat, x': nat, y': nat)
    requires PairText(x, y) == PairText(x', y')
    ensures x == x' && y == y'
  {
    SplitAtSlash(NatToString(x), NatToString(y), NatToString(x'), NatToString(y'));
    NatToStringInjective(x, x');
    NatToStringInjective(y, y');
  }

  /** The identity string determines the tile: two tiles share one only if they are the same tile. */
  lemma IdentityInjective(a: TileAddress, b: TileAddress)
    requires NodeIdentity(a) == NodeIdentity(b)
    ensures a == b
  {
    var n := |IdentityPrefix|;
    assert AddressText(a) == NodeIdentity(a)[n..] == NodeIdentity(b)[n..] == AddressText(b);
    SplitAtSlash(NatToString(a.level), PairText(a.x, a.y), NatToString(b.level), PairText(b.x, b.y));
    NatToStringInjective(a.level, b.level);
    PairTextInjective(a.x, a.y, b.x, b.y);
  }

  /** The four children of a node have pairwise distinct identities. */
  lemma ChildIdentitiesDistinct(a: TileAddress)
    ensures forall i, j :: 0 <= i < 4 && 0 <= j < 4 && i != j ==>
              NodeIdentity(ChildAddress(a, ChildQuadrants[i])) != NodeIdentity(ChildAddress(a, ChildQuadrants[j]))
  {
    forall i, j | 0 <= i < 4 && 0 <= j < 4 && i != j
      ensures NodeIdentity(ChildAddress(a, ChildQuadrants[i])) != NodeIdentity(ChildAddress(a, ChildQuadrants[j]))
    {
      ChildAddressesDistinct(a, i, j);
      if NodeIdentity(ChildAddress(a, ChildQuadrants[i])) == NodeIdentity(ChildAddress(a, ChildQuadrants[j])) {
        IdentityInjective(ChildAddress(a, ChildQuadrants[i]), ChildAddress(a, ChildQuadrants[j]));
      }
    }
  }

  // ---------------------------------------------------------------------------
  // The node
  // ---------------------------------------------------------------------------

  /** `geometrySize`: the grid resolution of a height geometry. */
  const GeometrySize: nat := 16

  /** The geometry a node renders: the shared plane, or the height mesh built from its tile. */
  datatype NodeGeometry = PlaneGeometry | HeightGeometry(widthSegments: nat, heightSegments: nat)

  const HeightProviderNullError: string := "GeoThree: MapView.heightProvider provider is null."

  class MapHeightNode {
    const parentNode: MapHeightNode?
    const location: Quadrant
    const level: nat
    const x: nat
    const y: nat
    var isMesh: bool
    var visible: bool
    var matrixAutoUpdate: bool
    var heightLoaded: bool
    var textureLoaded: bool
    var geometry: NodeGeometry
    /** The name of the texture installed as the material's `map`, once one is. */
    var textureName: Option<string>
    var scale: Vec3
    var position: Vec3
    /** The nodes `this.add` attached, in order. */
    var children: seq<MapHeightNode>
    /** How many times `nodeReady` has been forwarded to the `MapNode` base class. */
    var readyNotices: nat

    function Address(): TileAddress
    {
      TileAddress(level, x, y)
    }

    function Identity(): string
    {
      NodeIdentity(Address())
    }

    predicate Loaded()
      reads this
    {
      heightLoaded && textureLoaded
    }

    /** A node is shown only once both of its loads have completed. */
    ghost predicate Valid()
      reads this
    {
      visible ==> Loaded()
    }

    /** The constructor: hidden, a mesh, nothing loaded, the shared plane geometry. */
    constructor (parentNode: MapHeightNode?, location: Quadrant, level: nat, x: nat, y: nat)
      ensures Valid()
      ensures this.parentNode == parentNode && this.location == location
      ensures this.level == level && this.x == x && this.y == y
      ensures isMesh && !visible && !matrixAutoUpdate && !heightLoaded && !textureLoaded
      ensures geometry == PlaneGeometry && textureName.None?
      ensures scale == Vec3(1.0, 1.0, 1.0) && position == Origin
      ensures children == [] && readyNotices == 0
    {
      this.parentNode := parentNode;
      this.location := location;
      this.level := level;
      this.x := x;
      this.y := y;
      heightLoaded := false;
      textureLoaded := false;
      geometry := PlaneGeometry;
      textureName := None;
      scale := Vec3(1.0, 1.0, 1.0);
      position := Origin;
      children := [];
      readyNotices := 0;
      isMesh := true;
      visible := false;
      matrixAutoUpdate := false;
    }

    /**
     * `nodeReady`: nothing happens until both loads are done; then the node is shown
     * and the base class is notified.
     */
    method NodeReady()
      requires Valid()
      modifies this
      ensures Valid()
      ensures old(Loaded()) ==> visible && readyNotices == old(readyNotices) + 1
      ensures !old(Loaded()) ==> visible == old(visible) && readyNotices == old(readyNotices)
      ensures heightLoaded == old(heightLoaded) && textureLoaded == old(textureLoaded) && isMesh == old(isMesh)
      ensures geometry == old(geometry) && textureName == old(textureName) && children == old(children)
      ensures scale == old(scale) && position == old(position) && matrixAutoUpdate == old(matrixAutoUpdate)
    {
      if !heightLoaded || !textureLoaded {
        return;
      }
      visible := true;
      readyNotices := readyNotices + 1;
    }

    /**
     * `loadTexture` once the tile image has arrived: the texture, named after the
     * node, becomes the material's map; the texture flag is set; then `nodeReady`.
     */
    method LoadTexture()
      requires Valid()
      modifies this
      ensures Valid()
      ensures textureName == Some(Identity() + "_texture") && textureLoaded
      ensures visible == (old(visible) || heightLoaded)
      ensures readyNotices == old(readyNotices) + (if heightLoaded then 1 else 0)
      ensures heightLoaded == old(heightLoaded) && geometry == old(geometry) && children == old(children)
      ensures scale == old(scale) && position == old(position) && isMesh == old(isMesh)
      ensures matrixAutoUpdate == old(matrixAutoUpdate)
    {
      var name := Identity() + "_texture";
      textureName := Some(name);
      textureLoaded := true;
      NodeReady();
    }

    /**
     * `loadHeightGeometry`: with no height provider it throws before fetching and
     * nothing changes; otherwise, once the tile has arrived, the height geometry is
     * built, the height flag set, then `nodeReady`.
     */
    method LoadHeightGeometry(hasHeightProvider: bool) returns (outcome: Outcome)
      requires Valid()
      modifies this
      ensures Valid()
      ensures !hasHeightProvider ==> outcome == Fail(HeightProviderNullError) && unchanged(this)
      ensures hasHeightProvider ==>
                && outcome == Pass
                && geometry == HeightGeometry(GeometrySize, GeometrySize) && heightLoaded
                && visible == (old(visible) || textureLoaded)
                && readyNotices == old(readyNotices) + (if textureLoaded then 1 else 0)
                && textureLoaded == old(textureLoaded) && textureName == old(textureName) && children == old(children)
                && scale == old(scale) && position == old(position) && isMesh == old(isMesh)
                && matrixAutoUpdate == old(matrixAutoUpdate)
    {
      if !hasHeightProvider {
        return Fail(HeightProviderNullError);
      }
      geometry := HeightGeometry(GeometrySize, GeometrySize);
      heightLoaded := true;
      NodeReady();
      return Pass;
    }

    /** `c` is the child of this node for quadrant `q`, as `createChildNodes` makes it. */
    ghost predicate IsChild(c: MapHeightNode, q: Quadrant)
      requires q != Root
      reads c
    {
      && c.parentNode == this && c.location == q
      && c.Address() == ChildAddress(Address(), q)
      && c.scale == ChildScale && c.position == QuadrantOffset(q)
      && c.Valid() && !c.visible && !c.heightLoaded && !c.textureLoaded
      && c.geometry == PlaneGeometry && c.children == []
    }

    /** One child: constructed for quadrant `q`, scaled and placed, then attached. */
    method AddChild(q: Quadrant, childX: nat, childY: nat)
      requires q != Root && TileAddress(level + 1, childX, childY) == ChildAddress(Address(), q)
      modifies this
      ensures |children| == |old(children)| + 1 && children[..|old(children)|] == old(children)
      ensures fresh(children[|children| - 1]) && IsChild(children[|children| - 1], q)
      ensures visible == old(visible) && heightLoaded == old(heightLoaded) && textureLoaded == old(textureLoaded)
      ensures isMesh == old(isMesh) && geometry == old(geometry) && textureName == old(textureName)
      ensures scale == old(scale) && position == old(position) && readyNotices == old(readyNotices)
      ensures matrixAutoUpdate == old(matrixAutoUpdate)
    {
      var node := new MapHeightNode(this, q, level + 1, childX, childY);
      node.scale := ChildScale;
      node.position := QuadrantOffset(q);
      children := children + [node];
    }

    /**
     * `createChildNodes`: four new nodes one level down, in the order top-left,
     * top-right, bottom-left, bottom-right, each scaled to a quarter of the tile and
     * moved into its quadrant.
     */
    method CreateChildNodes()
      modifies this
      ensures |children| == |old(children)| + 4 && children[..|old(children)|] == old(children)
      ensures forall i :: 0 <= i < 4 ==>
                fresh(children[|old(children)| + i]) && IsChild(children[|old(children)| + i], ChildQuadrants[i])
      ensures visible == old(visible) && heightLoaded == old(heightLoaded) && textureLoaded == old(textureLoaded)
      ensures isMesh == old(isMesh) && geometry == old(geometry) && textureName == old(textureName)
      ensures scale == old(scale) && position == old(position) && readyNotices == old(readyNotices)
      ensures matrixAutoUpdate == old(matrixAutoUpdate)
    {
      var k := |children|;
      ghost var before := children;
      var x := this.x * 2;
      var y := this.y * 2;
      AddChild(TopLeft, x, y);
      ghost var c1 := children;
      AddChild(TopRight, x + 1, y);
      ghost var c2 := children;
      AddChild(BottomLeft, x, y + 1);
      ghost var c3 := children;
      AddChild(BottomRight, x + 1, y + 1);
      assert children[..k + 3] == c3 && c3[..k + 2] == c2 && c2[..k + 1] == c1 && c1[..k] == before;
      assert children[k] == c3[k] == c2[k] == c1[k];
      assert children[k + 1] == c3[k + 1] == c2[k + 1];
      assert children[k + 2] == c3[k + 2];
      assert children[..k] == c3[..k] == c2[..k] == c1[..k] == before;
    }

    /**
     * `raycast`: the base-class hits are added only when the node is a mesh; the hits
     * already collected are kept in front.
     */
    function Raycast<H>(intersects: seq<H>, meshHits: seq<H>): (r: seq<H>)
      reads this
      ensures |intersects| <= |r| && r[..|intersects|] == intersects
      ensures |r| > |intersects| ==> isMesh
      ensures isMesh ==> r == intersects + meshHits
    {
      if isMesh == true then intersects + meshHits else intersects
    }
  }
}
