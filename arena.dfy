/** Placement arithmetic of the arena: entity centers (`calcCenter`), the
    four static boundary rectangles (`createWall`) and the spawn position
    of a piece (`randomPosition`). Display sizes are in pixels, body
    positions in meters. */
module Arena {
  import opened Vectors

  /** Thickness in pixels of a wall (`wallParameter.appear.width`) and of the
      floor and ceiling (`floorParameter.appear.height`): 0.3 m. */
  const Thickness: real := 0.3 * Scale

  /** Display size in pixels of an entity bound to a body. */
  datatype Entity = Entity(width: real, height: real)

  /** `calcCenter(obj)`: the geometric center of the entity, in meters,
      relative to its top-left corner. */
  function CalcCenter(e: Entity): (c: Vec)
    ensures 2.0 * c.x * Scale == e.width && 2.0 * c.y * Scale == e.height
  {
    Vec2(e.width / 2.0, e.height / 2.0)
  }

  /** The entity of a left or right wall in an arena `height` pixels high:
      0.3 m thick and as tall as the arena. */
  function WallEntity(height: real): (e: Entity)
    ensures e.width / Scale == 0.3 && e.height == height
  {
    Entity(Thickness, height)
  }

  /** The entity of the floor or the ceiling in an arena `width` pixels wide:
      as wide as the arena and 0.3 m thick. */
  function FloorEntity(width: real): (e: Entity)
    ensures e.width == width && e.height / Scale == 0.3
  {
    Entity(width, Thickness)
  }

  /** A static rectangle body: its display entity and its center position in meters. */
  datatype StaticRect = StaticRect(entity: Entity, pos: Vec)

  datatype Boundary = Boundary(left: StaticRect, right: StaticRect, floor: StaticRect, ceiling: StaticRect)

  /** A rectangle placed with its top-left corner at the pixel point
      (`px`, `py`): `physics.vec2(px, py)` plus `calcCenter(entity)`. Since
      the body is placed by its center, the rectangle then covers exactly
      [px, px + width] x [py, py + height] in pixels. */
  function PlaceAt(e: Entity, px: real, py: real): (r: StaticRect)
    ensures r.entity == e
    ensures LeftFace(r) * Scale == px && RightFace(r) * Scale == px + e.width
    ensures TopFace(r) * Scale == py && BottomFace(r) * Scale == py + e.height
  {
    StaticRect(e, Add(Vec2(px, py), CalcCenter(e)))
  }

  /** `createWall` in a `w` x `h` pixel arena: the positions given to
      `SetPosition` for the left wall, right wall, floor and ceiling. */
  function CreateWall(w: real, h: real): (b: Boundary)
    ensures b.left.entity == b.right.entity == WallEntity(h)
    ensures b.floor.entity == b.ceiling.entity == FloorEntity(w)
    ensures b.left.pos == Vec(Thickness / (2.0 * Scale), h / (2.0 * Scale))
    ensures b.right.pos == Vec((w - Thickness / 2.0) / Scale, h / (2.0 * Scale))
    ensures b.floor.pos == Vec(w / (2.0 * Scale), (h - Thickness / 2.0) / Scale)
    ensures b.ceiling.pos == Vec(w / (2.0 * Scale), Thickness / (2.0 * Scale))
  {
    var wall := WallEntity(h);
    var floor := FloorEntity(w);
    Boundary(
      PlaceAt(wall, 0.0, 0.0),
      PlaceAt(wall, w - wall.width, 0.0),
      PlaceAt(floor, 0.0, h - floor.height),
      PlaceAt(floor, 0.0, 0.0))
  }

  /** Left, right, top and bottom faces of a placed rectangle, in meters. */
  function LeftFace(r: StaticRect): real { r.pos.x - r.entity.width / (2.0 * Scale) }
  function RightFace(r: StaticRect): real { r.pos.x + r.entity.width / (2.0 * Scale) }
  function TopFace(r: StaticRect): real { r.pos.y - r.entity.height / (2.0 * Scale) }
  function BottomFace(r: StaticRect): real { r.pos.y + r.entity.height / (2.0 * Scale) }

  /** Each boundary rectangle lies flush with its arena edge, spans the whole
      edge, and reaches `Thickness` pixels into the arena. */
  lemma BoundaryFlush(w: real, h: real)
    ensures var b := CreateWall(w, h);
      && LeftFace(b.left) == 0.0 && RightFace(b.left) == Thickness / Scale
      && RightFace(b.right) == w / Scale && LeftFace(b.right) == (w - Thickness) / Scale
      && TopFace(b.ceiling) == 0.0 && BottomFace(b.ceiling) == Thickness / Scale
      && BottomFace(b.floor) == h / Scale && TopFace(b.floor) == (h - Thickness) / Scale
      && TopFace(b.left) == TopFace(b.right) == 0.0
      && BottomFace(b.left) == BottomFace(b.right) == h / Scale
      && LeftFace(b.floor) == LeftFace(b.ceiling) == 0.0
      && RightFace(b.floor) == RightFace(b.ceiling) == w / Scale
  {
  }

  /** The walls are mirror images about x = w / 2, the floor and ceiling
      about y = h / 2. */
  lemma BoundaryMirror(w: real, h: real)
    ensures var b := CreateWall(w, h);
      && b.left.pos.x + b.right.pos.x == w / Scale && b.left.pos.y == b.right.pos.y
      && b.floor.pos.y + b.ceiling.pos.y == h / Scale && b.floor.pos.x == b.ceiling.pos.x
  {
  }

  /** One coordinate of `randomPosition` in pixels, from a draw `r` of
      `g.game.random.generate()` over an arena side of `extent` pixels. */
  function RandomPixel(r: real, extent: real): (p: real)
    requires 0.0 <= r < 1.0
    ensures extent > Scale ==> Scale <= p < extent
  {
    var span := extent - Scale;
    var d := r * span;
    RandomDrawBelow(r, span, d);
    d + Scale
  }

  /** A draw in [0, 1) scaled by a positive span stays below the span. */
  lemma RandomDrawBelow(r: real, span: real, d: real)
    requires 0.0 <= r < 1.0 && d == r * span
    ensures span > 0.0 ==> 0.0 <= d < span
  {
    if span > 0.0 {
      assert r * span < 1.0 * span;
    }
  }

  /** Every pixel in [Scale, extent) is hit by exactly one draw, and larger
      draws give larger coordinates: the spawn coordinate is uniform over
      [Scale, extent) when the draw is uniform over [0, 1). */
  lemma RandomPixelOnto(p: real, extent: real)
    requires extent > Scale && Scale <= p < extent
    ensures 0.0 <= (p - Scale) / (extent - Scale) < 1.0
    ensures RandomPixel((p - Scale) / (extent - Scale), extent) == p
  {
    var span := extent - Scale;
    var r := (p - Scale) / span;
    FractionBelowOne(p - Scale, span);
    assert RandomPixel(r, extent) == r * span + Scale;
  }

  /** A quotient a / b with 0 <= a < b is a fraction in [0, 1). */
  lemma FractionBelowOne(a: real, b: real)
    requires 0.0 <= a < b
    ensures 0.0 <= a / b < 1.0 && (a / b) * b == a
  {
    var q := a / b;
    assert q * b == a;
    if q < 0.0 {
      MulStrictMonotone(q, 0.0, b);
    }
    if q >= 1.0 {
      MulMonotone(1.0, q, b);
    }
  }

  lemma RandomPixelMonotone(r1: real, r2: real, extent: real)
    requires extent > Scale && 0.0 <= r1 < r2 < 1.0
    ensures RandomPixel(r1, extent) < RandomPixel(r2, extent)
  {
    var span := extent - Scale;
    var d1, d2 := r1 * span, r2 * span;
    ProductsOrdered(r1, r2, span, d1, d2);
    assert RandomPixel(r1, extent) == d1 + Scale;
    assert RandomPixel(r2, extent) == d2 + Scale;
  }

  /** The products a * k < b * k of a < b by a positive k, named. */
  lemma ProductsOrdered(a: real, b: real, k: real, ak: real, bk: real)
    requires a < b && k > 0.0 && ak == a * k && bk == b * k
    ensures ak < bk
  {
    MulStrictMonotone(a, b, k);
  }

  lemma MulMonotone(a: real, b: real, k: real)
    requires a <= b && k > 0.0
    ensures a * k <= b * k
  {
  }

  lemma MulStrictMonotone(a: real, b: real, k: real)
    requires a < b && k > 0.0
    ensures a * k < b * k
  {
  }

  /** `randomPosition()` from two draws, in meters: at least 1 m from the
      top and left edges, but only strictly inside the bottom and right edges. */
  function RandomPosition(rx: real, ry: real, w: real, h: real): (v: Vec)
    requires 0.0 <= rx < 1.0 && 0.0 <= ry < 1.0
    ensures w > Scale ==> 1.0 <= v.x < w / Scale
    ensures h > Scale ==> 1.0 <= v.y < h / Scale
  {
    Vec2(RandomPixel(rx, w), RandomPixel(ry, h))
  }

  /** The 1 m inset that `randomPosition` announces is not kept on the high
      side: every draw above (extent - 2 Scale) / (extent - Scale) lands
      inside it. In a 500-pixel arena a draw of 0.99 lands 4.5 pixels from
      the edge. */
  lemma RandomPixelUpperInsetFails(r: real, extent: real)
    requires extent > 2.0 * Scale
    requires (extent - 2.0 * Scale) / (extent - Scale) < r < 1.0
    ensures RandomPixel(r, extent) > extent - Scale
    ensures RandomPixel(0.99, 500.0) > 500.0 - Scale
  {
    var span := extent - Scale;
    var q := (extent - 2.0 * Scale) / span;
    var d := r * span;
    assert q * span == extent - 2.0 * Scale;
    ProductsOrdered(q, r, span, q * span, d);
    assert RandomPixel(r, extent) == d + Scale;
  }

  /** The formula that keeps the announced 1 m inset on both sides. */
  function InsetRandomPixel(r: real, extent: real): (p: real)
    requires 0.0 <= r < 1.0
    ensures extent > 2.0 * Scale ==> Scale <= p < extent - Scale
  {
    var span := extent - 2.0 * Scale;
    var d := r * span;
    RandomDrawBelow(r, span, d);
    d + Scale
  }

  /** `randomPosition()` with the inset kept on every side. */
  function InsetRandomPosition(rx: real, ry: real, w: real, h: real): (v: Vec)
    requires 0.0 <= rx < 1.0 && 0.0 <= ry < 1.0
    ensures w > 2.0 * Scale ==> 1.0 <= v.x < w / Scale - 1.0
    ensures h > 2.0 * Scale ==> 1.0 <= v.y < h / Scale - 1.0
  {
    Vec2(InsetRandomPixel(rx, w), InsetRandomPixel(ry, h))
  }
}
