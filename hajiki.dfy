/** One piece ("hajiki") of the game: its rigid body as the drag handlers
    see it, the two slots `arrow` and `anchor` that the handlers of
    `createHajiki` share, and the two sprites that `createCircle` swaps on
    touch. Pointer-down grabs the piece and plants an arrow at the touched
    point, pointer-move stretches the arrow along the drag, pointer-up flicks
    the piece with an impulse opposite to the drag. */
module Hajiki {
  import opened Vectors
  import Arena

  /** Strength of a flick (`power`). */
  const Power: real := 10.0

  /** Display size of a piece: 1 m square (`hajikiParameter.appear`). */
  const PieceEntity: Arena.Entity := Arena.Entity(1.0 * Scale, 1.0 * Scale)

  /** Linear and angular damping of every piece. */
  const Damping: real := 0.5

  datatype Option<T> = None | Some(value: T)

  /** One `ApplyImpulse(impulse, point)` command issued to the body, both in meters. */
  datatype ImpulseCommand = ImpulseCommand(impulse: Vec, point: Vec)

  /** The touched point, given in pixels relative to the piece's entity,
      as an offset in meters from the entity's center. */
  function TouchOffset(point: Vec): (o: Vec)
    ensures o.x * Scale == point.x - PieceEntity.width / 2.0
    ensures o.y * Scale == point.y - PieceEntity.height / 2.0
  {
    Sub(Vec2(point.x, point.y), Arena.CalcCenter(PieceEntity))
  }

  /** The world point, in meters, where a pointer-down at `point` grabs a
      body at `pos` turned by `rot`: the offset from the center turned with
      the body and added to its position. The anchor lies as far from the
      body position as the touch lies from the entity's center; on an
      unrotated body it is the body position plus that offset. */
  function AnchorFor(point: Vec, pos: Vec, rot: Rot): (a: Vec)
    ensures IsRotation(rot) ==> NormSq(Sub(a, pos)) == NormSq(TouchOffset(point))
    ensures rot == Identity ==>
      a == Vec(pos.x + (point.x - PieceEntity.width / 2.0) / Scale,
               pos.y + (point.y - PieceEntity.height / 2.0) / Scale)
  {
    MulMIdentity(TouchOffset(point));
    var a := Add(MulM(TouchOffset(point), rot), pos);
    assert Sub(a, pos) == MulM(TouchOffset(point), rot);
    a
  }

  /** Touching the exact center of the entity grabs the body at its
      position, whatever its rotation. */
  lemma AnchorAtCenter(pos: Vec, rot: Rot)
    ensures AnchorFor(Vec(PieceEntity.width / 2.0, PieceEntity.height / 2.0), pos, rot) == pos
  {
    assert TouchOffset(Vec(PieceEntity.width / 2.0, PieceEntity.height / 2.0)) == Zero;
    MulMZero(rot);
  }

  /** The touched point is recovered from the anchor by undoing the body's
      position, rotation and the recentring, and converting back to pixels. */
  lemma AnchorRecoversPoint(point: Vec, pos: Vec, rot: Rot)
    requires IsRotation(rot)
    ensures ToPixels(Add(MulM(Sub(AnchorFor(point, pos, rot), pos), Inverse(rot)),
                         Arena.CalcCenter(PieceEntity))) == point
  {
    var o := TouchOffset(point);
    assert Sub(AnchorFor(point, pos, rot), pos) == MulM(o, rot);
    MulMInverse(o, rot);
  }

  /** The impulse of a flick whose drag moved the pointer by `startDelta`
      pixels: the drag negated, times `Power`, in meters. */
  function LaunchImpulse(startDelta: Vec): (j: Vec)
    ensures j.x * Scale == -Power * startDelta.x
    ensures j.y * Scale == -Power * startDelta.y
  {
    Mul(Neg(Vec2(startDelta.x, startDelta.y)), Power)
  }

  /** A flick is a slingshot: each component of the impulse has the sign
      opposite to the drag's, and its length is `Power` times the drag's
      length in meters. */
  lemma LaunchImpulseOpposesDrag(startDelta: Vec)
    ensures var j := LaunchImpulse(startDelta);
      && (startDelta.x > 0.0 <==> j.x < 0.0) && (startDelta.x < 0.0 <==> j.x > 0.0)
      && (startDelta.y > 0.0 <==> j.y < 0.0) && (startDelta.y < 0.0 <==> j.y > 0.0)
    ensures NormSq(LaunchImpulse(startDelta)) == Power * Power * NormSq(Vec2(startDelta.x, startDelta.y))
  {
    var d := Vec2(startDelta.x, startDelta.y);
    var j := LaunchImpulse(startDelta);
    assert j == Vec(-Power * d.x, -Power * d.y);
    calc {
      NormSq(j);
      (Power * d.x) * (Power * d.x) + (Power * d.y) * (Power * d.y);
      Power * Power * (d.x * d.x + d.y * d.y);
    }
  }

  /** The arrow sprite that marks a drag. Its rotation (`angle`, from
      `Math.atan2`) is not modelled. */
  class ArrowSprite {
    var x: real
    var y: real
    var scaleX: real
    var scaleY: real
    const width: real
    const height: real
    var destroyed: bool

    /** A new arrow at pixel (`x`, `y`), shrunk to nothing; `width` and
        `height` are the size the host gives the arrow image. */
    constructor (x: real, y: real, width: real, height: real)
      ensures this.x == x && this.y == y && scaleX == 0.0 && scaleY == 0.0
      ensures this.width == width && this.height == height && !destroyed
    {
      this.x, this.y := x, y;
      scaleX, scaleY := 0.0, 0.0;
      this.width, this.height := width, height;
      destroyed := false;
    }

    /** `destroy()`: removes the sprite from the scene. */
    method Destroy()
      modifies this
      ensures destroyed
      ensures x == old(x) && y == old(y) && scaleX == old(scaleX) && scaleY == old(scaleY)
    {
      destroyed := true;
    }
  }

  /** A piece created by `createHajiki`. */
  class Piece {
    // The piece's rigid body.
    var position: Vec
    var rotation: Rot
    var linearVelocity: Vec
    var angularVelocity: real
    var linearDamping: real
    var angularDamping: real
    /** Every `ApplyImpulse` issued to the body, oldest first. */
    var impulses: seq<ImpulseCommand>

    /** Size in pixels the host gives the arrow image; no size is set in the
        game code, so the arrow's `width` and `height` are these. */
    const arrowWidth: real
    const arrowHeight: real

    // The slots the pointer handlers share.
    var arrow: ArrowSprite?
    var anchor: Option<Vec>
    /** Arrow sprites this piece created and has not destroyed. */
    var liveArrows: nat

    // The normal and the touched sprite of the piece.
    var circleVisible: bool
    var circleTouchVisible: bool

    /** The piece invariant: the body's rotation is a rotation; at most one
        arrow is alive, and it is the one in the slot; exactly one of the two
        sprites shows, the touched one exactly while a drag is on; a live
        arrow sits at the anchor, in pixels. */
    ghost predicate Valid()
      reads this, arrow
    {
      && IsRotation(rotation)
      && arrowWidth > 0.0 && arrowHeight > 0.0
      && linearDamping == Damping && angularDamping == Damping
      && liveArrows == (if arrow == null then 0 else 1)
      && circleVisible != circleTouchVisible
      && circleTouchVisible == (arrow != null)
      && (arrow != null ==>
            && !arrow.destroyed
            && anchor.Some?
            && arrow.x == anchor.value.x * Scale && arrow.y == anchor.value.y * Scale
            && arrow.width == arrowWidth && arrow.height == arrowHeight)
    }

    /** A pointer is down on the piece. */
    predicate Dragging()
      reads this
    {
      arrow != null
    }

    /** `createHajiki(scene, position)`: a resting, unrotated, untouched
        piece at `position` (meters) with damping 0.5, in a scene whose arrow
        image is `arrowWidth` x `arrowHeight` pixels. */
    constructor (position: Vec, arrowWidth: real, arrowHeight: real)
      requires arrowWidth > 0.0 && arrowHeight > 0.0
      ensures Valid() && !Dragging()
      ensures this.arrowWidth == arrowWidth && this.arrowHeight == arrowHeight
      ensures this.position == position && rotation == Identity
      ensures linearVelocity == Zero && angularVelocity == 0.0
      ensures impulses == [] && anchor == None && liveArrows == 0
      ensures circleVisible && !circleTouchVisible
    {
      this.position := position;
      this.arrowWidth, this.arrowHeight := arrowWidth, arrowHeight;
      rotation := Identity;
      linearVelocity, angularVelocity := Zero, 0.0;
      linearDamping := Damping;
      angularDamping := Damping;
      impulses := [];
      arrow, anchor, liveArrows := null, None, 0;
      circleVisible, circleTouchVisible := true, false;
    }

    /** Pointer-down at `point` (pixels, relative to the piece's entity):
        shows the touched sprite, destroys a leftover arrow, stops the body,
        computes the anchor and plants a new, empty arrow there. */
    method PointDown(point: Vec)
      requires Valid()
      modifies this, arrow
      ensures Valid() && Dragging() && fresh(arrow)
      ensures old(arrow) != null ==> old(arrow).destroyed
      ensures liveArrows == 1
      ensures linearVelocity == Zero && angularVelocity == 0.0
      ensures anchor == Some(AnchorFor(point, position, rotation))
      ensures arrow.scaleX == 0.0 && arrow.scaleY == 0.0
      ensures !circleVisible && circleTouchVisible
      ensures position == old(position) && rotation == old(rotation) && impulses == old(impulses)
    {
      circleVisible := false;
      circleTouchVisible := true;

      if arrow != null {
        arrow.Destroy();
        liveArrows := liveArrows - 1;
      }

      linearVelocity := Zero;
      angularVelocity := 0.0;

      var a := Vec2(point.x, point.y);
      a := Sub(a, Arena.CalcCenter(PieceEntity));
      a := MulM(a, rotation);
      a := Add(a, position);
      anchor := Some(a);

      arrow := new ArrowSprite(a.x * Scale, a.y * Scale, arrowWidth, arrowHeight);
      liveArrows := liveArrows + 1;
    }

    /** Pointer-move, `startDelta` pixels away from where the pointer went
        down: stretches the arrow to the drag's length. `deltaLength` is
        `b2Vec2.Length()` of the drag in meters. Nothing but the arrow changes. */
    method PointMove(startDelta: Vec, deltaLength: real)
      requires Valid() && Dragging()
      requires IsLength(deltaLength, Vec2(startDelta.x, startDelta.y))
      modifies arrow
      ensures Valid() && Dragging() && unchanged(this)
      ensures IsLength(arrow.scaleX * arrow.width, startDelta)
      ensures IsLength(arrow.scaleY * arrow.height, startDelta)
      ensures arrow.x == old(arrow.x) && arrow.y == old(arrow.y) && !arrow.destroyed
    {
      var mouseMovement := deltaLength * Scale;
      LengthToPixels(deltaLength, startDelta.x, startDelta.y);
      arrow.scaleX := mouseMovement / arrow.width;
      arrow.scaleY := mouseMovement / arrow.height;
    }

    /** Pointer-up, `startDelta` pixels away from where the pointer went
        down: shows the normal sprite, flicks the body at the anchor with the
        opposite of the drag, and destroys the arrow. The anchor is kept.
        The impulse changes the body's velocities at once; the solver computes
        them, so the velocities after the impulse are parameters. */
    method PointUp(startDelta: Vec, linearAfterImpulse: Vec, angularAfterImpulse: real)
      requires Valid() && Dragging()
      modifies this, arrow
      ensures Valid() && !Dragging()
      ensures old(arrow).destroyed
      ensures liveArrows == 0
      ensures impulses == old(impulses) + [ImpulseCommand(LaunchImpulse(startDelta), old(anchor).value)]
      ensures anchor == old(anchor)
      ensures circleVisible && !circleTouchVisible
      ensures position == old(position) && rotation == old(rotation)
      ensures linearVelocity == linearAfterImpulse && angularVelocity == angularAfterImpulse
    {
      circleVisible := true;
      circleTouchVisible := false;

      var delta := Vec2(startDelta.x, startDelta.y);
      delta := Neg(delta);
      delta := Mul(delta, Power);
      impulses := impulses + [ImpulseCommand(delta, anchor.value)];
      linearVelocity, angularVelocity := linearAfterImpulse, angularAfterImpulse;

      arrow.Destroy();
      arrow := null;
      liveArrows := liveArrows - 1;
    }

    /** One `physics.step` as this piece sees it: the solver moves and turns
        the body and changes its velocities (its new values are parameters);
        the drag state is untouched, so the anchor stays where it was planted. */
    method SolverStep(newPosition: Vec, newRotation: Rot, newLinearVelocity: Vec, newAngularVelocity: real)
      requires Valid() && IsRotation(newRotation)
      modifies this
      ensures Valid()
      ensures position == newPosition && rotation == newRotation
      ensures linearVelocity == newLinearVelocity && angularVelocity == newAngularVelocity
      ensures arrow == old(arrow) && anchor == old(anchor) && liveArrows == old(liveArrows)
      ensures impulses == old(impulses)
      ensures circleVisible == old(circleVisible) && circleTouchVisible == old(circleTouchVisible)
    {
      position, rotation := newPosition, newRotation;
      linearVelocity, angularVelocity := newLinearVelocity, newAngularVelocity;
    }
  }

  /** Two pointer-downs on a new piece with no pointer-up between them: the
      first arrow is destroyed, the second is alive and is the only one, and
      it is anchored at the second touch. */
  method RepeatedPointDown(position: Vec, arrowWidth: real, arrowHeight: real, first: Vec, second: Vec)
    returns (firstArrow: ArrowSprite, secondArrow: ArrowSprite, live: nat, anchor: Vec)
    requires arrowWidth > 0.0 && arrowHeight > 0.0
    ensures firstArrow != secondArrow
    ensures firstArrow.destroyed && !secondArrow.destroyed
    ensures live == 1
    ensures anchor == AnchorFor(second, position, Identity)
    ensures secondArrow.x == anchor.x * Scale && secondArrow.y == anchor.y * Scale
  {
    var piece := new Piece(position, arrowWidth, arrowHeight);
    piece.PointDown(first);
    firstArrow := piece.arrow;
    piece.PointDown(second);
    secondArrow := piece.arrow;
    live := piece.liveArrows;
    anchor := piece.anchor.value;
  }

  /** A whole gesture on a new piece: down at `point`, a move and an up
      `drag` pixels away. Exactly one impulse is issued, opposite to the
      drag, at the anchor of the touch, and the piece ends untouched with no
      arrow alive but its anchor kept. */
  method Flick(position: Vec, arrowWidth: real, arrowHeight: real, point: Vec, drag: Vec, dragLength: real,
               linearAfterImpulse: Vec, angularAfterImpulse: real)
    returns (impulses: seq<ImpulseCommand>, live: nat, touched: bool, anchor: Option<Vec>)
    requires arrowWidth > 0.0 && arrowHeight > 0.0
    requires IsLength(dragLength, Vec2(drag.x, drag.y))
    ensures impulses == [ImpulseCommand(LaunchImpulse(drag), AnchorFor(point, position, Identity))]
    ensures live == 0 && !touched
    ensures anchor == Some(AnchorFor(point, position, Identity))
  {
    var piece := new Piece(position, arrowWidth, arrowHeight);
    piece.PointDown(point);
    piece.PointMove(drag, dragLength);
    piece.PointUp(drag, linearAfterImpulse, angularAfterImpulse);
    impulses, live, touched, anchor := piece.impulses, piece.liveArrows, piece.circleTouchVisible, piece.anchor;
  }
}
