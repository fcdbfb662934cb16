/** Two-dimensional vectors in meters, the pixel/meter conversion of the
    physics binding (`physics.vec2`, `* worldProperty.scale`), and the
    rotation `b2Mat22.FromAngle` followed by `b2Vec2.MulM`. */
module Vectors {

  /** Pixels per meter (`worldProperty.scale`). */
  const Scale: real := 50.0

  datatype Vec = Vec(x: real, y: real)

  const Zero: Vec := Vec(0.0, 0.0)

  function Add(a: Vec, b: Vec): Vec { Vec(a.x + b.x, a.y + b.y) }

  function Sub(a: Vec, b: Vec): Vec { Vec(a.x - b.x, a.y - b.y) }

  /** `b2Vec2.Multiply(k)` */
  function Mul(a: Vec, k: real): Vec { Vec(a.x * k, a.y * k) }

  /** `b2Vec2.NegativeSelf()` */
  function Neg(a: Vec): Vec { Vec(-a.x, -a.y) }

  /** Squared Euclidean length; `b2Vec2.Length()` is its square root. */
  function NormSq(a: Vec): real { a.x * a.x + a.y * a.y }

  /** `len` is the Euclidean length of `v`. */
  predicate IsLength(len: real, v: Vec) { len >= 0.0 && len * len == NormSq(v) }

  /** `physics.vec2(px, py)`: a pixel pair converted to meters. */
  function Vec2(px: real, py: real): (v: Vec)
    ensures v.x * Scale == px && v.y * Scale == py
  {
    Vec(px / Scale, py / Scale)
  }

  /** A vector in meters converted back to pixels (`v.x * worldProperty.scale`). */
  function ToPixels(v: Vec): (p: Vec)
    ensures p.x / Scale == v.x && p.y / Scale == v.y
  {
    Vec(v.x * Scale, v.y * Scale)
  }

  /** Converting pixels to meters and back is the identity, and so is the other way round. */
  lemma PixelRoundTrip(px: real, py: real, v: Vec)
    ensures ToPixels(Vec2(px, py)) == Vec(px, py)
    ensures Vec2(ToPixels(v).x, ToPixels(v).y) == v
  {
  }

  /** A length measured in meters, scaled to pixels, is the pixel length. */
  lemma LengthToPixels(len: real, px: real, py: real)
    requires IsLength(len, Vec2(px, py))
    ensures IsLength(len * Scale, Vec(px, py))
  {
    var v := Vec2(px, py);
    calc {
      (len * Scale) * (len * Scale);
      (len * len) * (Scale * Scale);
      (v.x * v.x + v.y * v.y) * (Scale * Scale);
      (v.x * Scale) * (v.x * Scale) + (v.y * Scale) * (v.y * Scale);
      px * px + py * py;
    }
  }

  /** The matrix `b2Mat22.FromAngle(theta)`, kept as the pair (cos theta, sin theta). */
  datatype Rot = Rot(c: real, s: real)

  /** The pair is a cosine and sine of one angle. */
  predicate IsRotation(r: Rot) { r.c * r.c + r.s * r.s == 1.0 }

  /** `FromAngle(0)`. */
  const Identity: Rot := Rot(1.0, 0.0)

  /** `FromAngle(-theta)` for `r == FromAngle(theta)`. */
  function Inverse(r: Rot): Rot { Rot(r.c, -r.s) }

  /** `v.MulM(r)` in Box2DWeb: x' = c x - s y, y' = s x + c y. A rotation
      keeps the length of the vector it turns. */
  function MulM(v: Vec, r: Rot): (w: Vec)
    ensures IsRotation(r) ==> NormSq(w) == NormSq(v)
  {
    var w := Vec(r.c * v.x - r.s * v.y, r.s * v.x + r.c * v.y);
    assert IsRotation(r) ==> NormSq(w) == NormSq(v) by {
      calc {
        NormSq(w);
        (r.c * v.x - r.s * v.y) * (r.c * v.x - r.s * v.y) + (r.s * v.x + r.c * v.y) * (r.s * v.x + r.c * v.y);
        (r.c * r.c + r.s * r.s) * (v.x * v.x) + (r.c * r.c + r.s * r.s) * (v.y * v.y);
      }
    }
    w
  }

  lemma MulMIdentity(v: Vec)
    ensures MulM(v, Identity) == v
  {
  }

  /** Rotating the null offset gives the null offset, whatever the angle. */
  lemma MulMZero(r: Rot)
    ensures MulM(Zero, r) == Zero
  {
  }

  /** Rotating back by the opposite angle undoes a rotation. */
  lemma MulMInverse(v: Vec, r: Rot)
    requires IsRotation(r)
    ensures IsRotation(Inverse(r))
    ensures MulM(MulM(v, r), Inverse(r)) == v
  {
    var w := MulM(v, r);
    calc {
      r.c * w.x + r.s * w.y;
      r.c * (r.c * v.x - r.s * v.y) + r.s * (r.s * v.x + r.c * v.y);
      (r.c * r.c + r.s * r.s) * v.x;
      v.x;
    }
    calc {
      -r.s * w.x + r.c * w.y;
      -r.s * (r.c * v.x - r.s * v.y) + r.c * (r.s * v.x + r.c * v.y);
      (r.c * r.c + r.s * r.s) * v.y;
      v.y;
    }
  }
}
