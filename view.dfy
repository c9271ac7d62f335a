/**
  The camera bookkeeping of the viewer widget: angles in 1/16 degree kept in
  [0, 5760] by qNormalizeAngle, the axis toggle, the mouse-drag rule that turns
  pointer movement into angle updates and the wheel rule that scales the model.
 */
module ViewState {
  import opened Geometry
  import opened MeshModel
  import opened AffineEngine

  /** One full turn in 1/16 degree: 360 * 16. */
  const FullTurn: int := 360 * 16

  /**
    The angle qNormalizeAngle leaves: a negative angle is raised by whole turns into
    [0, 5760), an angle above 5760 is lowered by whole turns into (0, 5760], and an
    angle in [0, 5760] stays as it is.
   */
  function NormalizedAngle(angle: int): (r: int)
    ensures 0 <= r <= FullTurn
  {
    if angle < 0 then angle % FullTurn
    else if angle > FullTurn then (angle - 1) % FullTurn + 1
    else angle
  }

  /** The remainder modulo a full turn is the only value in [0, 5760) congruent to x. */
  lemma RemainderUnique(x: int, r: int)
    requires 0 <= r < FullTurn && (x - r) % FullTurn == 0
    ensures r == x % FullTurn
  {
  }

  /** qNormalizeAngle: adds a full turn while the angle is negative, then subtracts one while it exceeds a full turn. */
  method QNormalizeAngle(angle: int) returns (r: int)
    ensures r == NormalizedAngle(angle)
  {
    r := angle;
    while r < 0
      invariant (r - angle) % FullTurn == 0
      invariant angle < 0 ==> r < FullTurn
      invariant 0 <= angle ==> r == angle
      decreases -r
    {
      r := r + FullTurn;
    }
    if angle < 0 {
      RemainderUnique(angle, r);
    }
    while r > FullTurn
      invariant (r - angle) % FullTurn == 0 && 0 <= r
      invariant angle <= FullTurn ==> r == NormalizedAngle(angle)
      invariant FullTurn < angle ==> 0 < r
      decreases r
    {
      r := r - FullTurn;
    }
    if angle > FullTurn {
      RemainderUnique(angle - 1, r - 1);
    }
  }

  /** The normalised angle differs from the input by whole turns. */
  lemma NormalizedCongruent(angle: int)
    ensures (NormalizedAngle(angle) - angle) % FullTurn == 0
  {
  }

  /** Exactly the angles in [0, 5760] are left unchanged; 5760 itself is kept, not wrapped to 0. */
  lemma NormalizedFixedPoints(angle: int)
    ensures NormalizedAngle(angle) == angle <==> 0 <= angle <= FullTurn
  {
  }

  /** Normalising twice is normalising once. */
  lemma NormalizedIdempotent(angle: int)
    ensures NormalizedAngle(NormalizedAngle(angle)) == NormalizedAngle(angle)
  {
    NormalizedFixedPoints(NormalizedAngle(angle));
  }

  /** on_checkAxes_clicked: a non-zero switch is incremented, a zero one decremented. */
  function Toggled(axisCheck: int): int {
    if axisCheck != 0 then axisCheck + 1 else axisCheck - 1
  }

  /** paintGL draws the axes exactly when the switch is non-zero. */
  predicate AxesShown(axisCheck: int) { axisCheck != 0 }

  /** From 0 the switch alternates 0, -1, 0: it stays in {0, -1}, each click flips whether the axes show, two clicks restore it. */
  lemma ToggleAlternates(axisCheck: int)
    requires axisCheck == 0 || axisCheck == -1
    ensures Toggled(axisCheck) == 0 || Toggled(axisCheck) == -1
    ensures AxesShown(Toggled(axisCheck)) <==> !AxesShown(axisCheck)
    ensures Toggled(Toggled(axisCheck)) == axisCheck
  {
  }

  /** The wheel factors 1.1 and 0.9 once scaleModel's float parameter has rounded them. */
  const ZoomIn: real := 9227469.0 / 8388608.0
  const ZoomOut: real := 7549747.0 / 8388608.0

  /** The scale factor a wheel turn of `delta` asks for; none for a zero delta. */
  datatype Zooming = NoZoom | ZoomBy(factor: real)

  function WheelZoom(delta: int): (z: Zooming)
    ensures delta > 0 <==> z == ZoomBy(ZoomIn)
    ensures delta < 0 <==> z == ZoomBy(ZoomOut)
    ensures delta == 0 <==> z == NoZoom
  {
    if delta > 0 then ZoomBy(ZoomIn) else if delta < 0 then ZoomBy(ZoomOut) else NoZoom
  }

  /** A widget position in whole pixels. */
  datatype Point = Point(x: int, y: int)

  /** The Paint widget's camera state, and the engine its wheel drives. */
  class Paint {
    var axisCheck: int
    var xRot: int
    var yRot: int
    var zRot: int
    var lastPos: Point
    const engine: Affine

    /** The switch starts at 0; the angles are never set by the widget, so they start at whatever they hold. */
    constructor(engine: Affine, x0: int, y0: int, z0: int)
      ensures this.engine == engine && axisCheck == 0
      ensures xRot == x0 && yRot == y0 && zRot == z0 && lastPos == Point(0, 0)
    {
      this.engine := engine;
      axisCheck := 0;
      xRot, yRot, zRot := x0, y0, z0;
      lastPos := Point(0, 0);
    }

    /** setXRotation: stores the normalised angle; `redrawn` tells whether it differed and update() ran. */
    method SetXRotation(angle: int) returns (redrawn: bool)
      modifies this`xRot
      ensures xRot == NormalizedAngle(angle)
      ensures redrawn <==> NormalizedAngle(angle) != old(xRot)
    {
      var a := QNormalizeAngle(angle);
      redrawn := a != xRot;
      if a != xRot {
        xRot := a;
      }
    }

    /** setYRotation: the same on yRot. */
    method SetYRotation(angle: int) returns (redrawn: bool)
      modifies this`yRot
      ensures yRot == NormalizedAngle(angle)
      ensures redrawn <==> NormalizedAngle(angle) != old(yRot)
    {
      var a := QNormalizeAngle(angle);
      redrawn := a != yRot;
      if a != yRot {
        yRot := a;
      }
    }

    /** setZRotation: the same on zRot. */
    method SetZRotation(angle: int) returns (redrawn: bool)
      modifies this`zRot
      ensures zRot == NormalizedAngle(angle)
      ensures redrawn <==> NormalizedAngle(angle) != old(zRot)
    {
      var a := QNormalizeAngle(angle);
      redrawn := a != zRot;
      if a != zRot {
        zRot := a;
      }
    }

    /** on_checkAxes_clicked. */
    method OnCheckAxesClicked()
      modifies this`axisCheck
      ensures axisCheck == Toggled(old(axisCheck))
    {
      if axisCheck != 0 {
        axisCheck := axisCheck + 1;
      } else {
        axisCheck := axisCheck - 1;
      }
    }

    /**
      mouseMoveEvent: with the left button held the vertical movement turns about X and
      the horizontal about Y, eight sixteenths of a degree per pixel; otherwise with the
      right button held the horizontal movement turns about Z instead; with neither no
      angle changes. The position is remembered in every case.
     */
    method MouseMoveEvent(pos: Point, left: bool, right: bool)
      modifies this`xRot, this`yRot, this`zRot, this`lastPos
      ensures var dx, dy := pos.x - old(lastPos.x), pos.y - old(lastPos.y);
        && (left || right ==> xRot == NormalizedAngle(old(xRot) + 8 * dy))
        && yRot == (if left then NormalizedAngle(old(yRot) + 8 * dx) else old(yRot))
        && zRot == (if !left && right then NormalizedAngle(old(zRot) + 8 * dx) else old(zRot))
        && (!left && !right ==> xRot == old(xRot))
      ensures lastPos == pos
    {
      var dx := pos.x - lastPos.x;
      var dy := pos.y - lastPos.y;
      if left {
        var _ := SetXRotation(xRot + 8 * dy);
        var _ := SetYRotation(yRot + 8 * dx);
      } else if right {
        var _ := SetXRotation(xRot + 8 * dy);
        var _ := SetZRotation(zRot + 8 * dx);
      }
      lastPos := pos;
    }

    /** scaleModel: scaling of the model by the factor. */
    method ScaleModel(factor: real)
      requires engine.model.Shaped()
      modifies engine.model.matrix
      ensures engine.model.Table() == Transformed(old(engine.model.Table()), Scale(factor))
    {
      engine.Scaling(factor);
    }

    /** wheelEvent: a positive delta scales the model by 1.1f, a negative one by 0.9f, a zero one leaves it alone. */
    method WheelEvent(delta: int)
      requires engine.model.Shaped()
      modifies engine.model.matrix
      ensures WheelZoom(delta).ZoomBy? ==>
                engine.model.Table() == Transformed(old(engine.model.Table()), Scale(WheelZoom(delta).factor))
      ensures WheelZoom(delta) == NoZoom ==> engine.model.Table() == old(engine.model.Table())
    {
      if delta > 0 {
        ScaleModel(ZoomIn);
      } else if delta < 0 {
        ScaleModel(ZoomOut);
      }
    }
  }
}
