/**
 * The interaction state of the scatter widget: the orbit camera, the clock
 * that drives auto-rotation, the cursor and drag flags, the bound vertex
 * records, and the uniforms last written to the GPU program.  Each event
 * handler is a method that updates these fields in place.
 */
module ScatWidget {
  import opened Wrappers
  import opened Orbit
  import opened Vertices

  /** How a mouse-move handler ends: normally, or with the exception it raises. */
  datatype MoveOutcome = Done | MissingCursor | DivisionByZero

  /**
   * The uniforms written to the GPU program so far (u_model, u_view, u_size,
   * u_linewidth, u_antialias); None for one never written.
   */
  datatype Uniforms = Uniforms(
    uModel: Option<ModelMatrix>, uView: Option<real>, uSize: Option<real>,
    uLinewidth: Option<real>, uAntialias: Option<real>)

  /** A freshly compiled program has no uniform set. */
  const NoUniforms := Uniforms(None, None, None, None, None)

  /**
   * A legal camera distance, and the size uniform, if written, equal to
   * 5 / translate (stated as a product so that no division is needed).
   */
  predicate SizeAgrees(uSize: Option<real>, translate: real)
  {
    translate >= MinTranslate && (uSize.Some? ==> uSize.value * translate == 5.0)
  }

  /** How the program builder ends. */
  datatype BindOutcome = NoData | Bound | Mismatch

  class QtScatVispyWidget {
    // camera
    var translate: real                 // camera distance
    var viewZ: real                     // z-translation of the view matrix
    var theta: real                     // rotation about the z-axis, degrees
    var phi: real                       // rotation about the y-axis, degrees
    var model: ModelMatrix
    // clock and auto-rotation
    var timerT: real
    var prevTimerT: real
    var prevTheta: real
    var prevPhi: real
    var rotateThetaSpeed: real
    var rotatePhiSpeed: real
    var timerStarted: bool
    // mouse
    var isDragging: bool
    var isMousePressed: bool
    var prevCursor: Option<(int, int)>  // absent until the first press
    // bound data and the uniforms of the GPU program
    var bindData: Option<seq<Vertex>>
    var program: Uniforms

    /**
     * The distance never drops below MinTranslate, the view matrix is the
     * translation by -translate, and every uniform that has been written
     * agrees with the state it is derived from.
     */
    ghost predicate Valid()
      reads this
    {
      SizeAgrees(program.uSize, translate) &&
      viewZ == -translate &&
      (program.uView.Some? ==> program.uView.value == viewZ) &&
      (program.uModel.Some? ==> program.uModel.value == model)
    }

    constructor ()
      ensures Valid()
      ensures translate == InitialTranslate && viewZ == -InitialTranslate
      ensures theta == 0.0 && phi == 0.0 && model == Rotation(0.0, 0.0)
      ensures timerT == 0.0 && prevTimerT == 0.0 && prevTheta == 0.0 && prevPhi == 0.0
      ensures rotateThetaSpeed == 0.0 && rotatePhiSpeed == 0.0 && !timerStarted
      ensures !isDragging && !isMousePressed && prevCursor == None
      ensures bindData == None
      ensures program == NoUniforms
    {
      model := Rotation(0.0, 0.0);
      translate := InitialTranslate;
      viewZ := -InitialTranslate;
      bindData := None;
      timerT := 0.0;
      timerStarted := false;
      isDragging, isMousePressed := false, false;
      theta, phi := 0.0, 0.0;
      prevPhi, prevTheta, prevTimerT := 0.0, 0.0, 0.0;
      rotateThetaSpeed, rotatePhiSpeed := 0.0, 0.0;
      prevCursor := None;
      program := NoUniforms;
    }

    /**
     * Builds the vertex records from the selected columns and binds them,
     * then writes every uniform.  With no data nothing happens; when a
     * position column does not fit the mass column numpy raises and nothing
     * changes either.  `draw` is the outcome of the random background draw.
     */
    method SetProgram(columns: Option<Columns>, draw: seq<Color>, cbrt: real -> real) returns (outcome: BindOutcome)
      requires Valid()
      requires columns.Some? ==> IsBackgroundDraw(draw, Count(columns.value))
      modifies this`bindData, this`program, this`timerStarted
      ensures Valid()
      ensures outcome == (if columns.None? then NoData else if Conformable(columns.value) then Bound else Mismatch)
      ensures outcome == Bound ==>
        bindData == Some(Bind(columns.value, draw, cbrt)) &&
        program == Uniforms(Some(model), Some(viewZ), Some(5.0 / translate), Some(1.0), Some(1.0)) &&
        timerStarted
      ensures outcome != Bound ==>
        bindData == old(bindData) && program == old(program) && timerStarted == old(timerStarted)
    {
      if columns.None? {
        return NoData;
      }
      var c := columns.value;
      if !Conformable(c) {
        return Mismatch;
      }
      var records := BuildVertices(c, draw, cbrt);
      bindData := Some(records);
      program := Uniforms(Some(model), Some(viewZ), Some(PointSize(translate)), Some(1.0), Some(1.0));
      timerStarted := true;
      outcome := Bound;
    }

    /**
     * One timer tick: the clock advances by TimerDt, the angles by the
     * auto-rotation speeds, and the model matrix is rebuilt and uploaded.
     */
    method OnTimer()
      requires Valid()
      modifies this`timerT, this`theta, this`phi, this`model, this`program
      ensures Valid()
      ensures timerT == old(timerT) + TimerDt
      ensures theta == old(theta) + rotateThetaSpeed && phi == old(phi) + rotatePhiSpeed
      ensures rotateThetaSpeed == 0.0 && rotatePhiSpeed == 0.0 ==> theta == old(theta) && phi == old(phi)
      ensures model == Rotation(theta, phi) && program == old(program).(uModel := Some(model))
    {
      timerT := timerT + TimerDt;
      theta := theta + rotateThetaSpeed;
      phi := phi + rotatePhiSpeed;
      model := Rotation(theta, phi);
      program := program.(uModel := Some(model));
    }

    /**
     * A wheel event with vertical delta `delta`: the camera distance becomes
     * Zoom(translate, delta), and the view matrix and the size uniform follow.
     */
    method OnMouseWheel(delta: real)
      requires Valid()
      modifies this`translate, this`viewZ, this`program
      ensures Valid()
      ensures translate == Zoom(old(translate), delta)
      ensures viewZ == -translate
      ensures program == old(program).(uView := Some(viewZ), uSize := Some(5.0 / translate))
      ensures 0.0 < program.uSize.value <= 5.0 / 2.0
    {
      translate := translate - delta;
      translate := if translate > MinTranslate then translate else MinTranslate;
      viewZ := -translate;
      program := program.(uView := Some(viewZ), uSize := Some(PointSize(translate)));
      PointSizeBounds(translate);
    }

    /** A press remembers the cursor and marks the button as held. */
    method OnMousePress(x: int, y: int)
      requires Valid()
      modifies this`prevCursor, this`isMousePressed
      ensures Valid()
      ensures prevCursor == Some((x, y)) && isMousePressed
    {
      prevCursor := Some((x, y));
      isMousePressed := true;
    }

    /**
     * A mouse move to (x, y).  It acts only when the event reports a drag:
     * then the widget is marked as dragging, phi turns by the horizontal and
     * theta by the vertical cursor displacement (each divided by the new
     * coordinate), the model matrix is rebuilt and uploaded, and the cursor
     * and the clock are remembered.  A drag before any press finds no
     * previous cursor, and a zero coordinate divides by zero: the handler
     * then stops at that point, keeping what it had already changed.
     */
    method OnMouseMove(eventDragging: bool, x: int, y: int) returns (outcome: MoveOutcome)
      requires Valid()
      modifies this`isDragging, this`phi, this`theta, this`model, this`prevCursor, this`prevTimerT, this`program
      ensures Valid()
      ensures outcome == (if !eventDragging then Done
                          else if old(prevCursor).None? then MissingCursor
                          else if x == 0 || y == 0 then DivisionByZero
                          else Done)
      ensures isDragging == (eventDragging || old(isDragging))
      ensures phi == if eventDragging && old(prevCursor).Some? && x != 0
                     then DragTurn(old(phi), x, old(prevCursor).value.0) else old(phi)
      ensures eventDragging && outcome == Done ==>
        theta == DragTurn(old(theta), y, old(prevCursor).value.1) &&
        model == Rotation(theta, phi) && program == old(program).(uModel := Some(model)) &&
        prevCursor == Some((x, y)) && prevTimerT == timerT
      ensures !(eventDragging && outcome == Done) ==>
        theta == old(theta) && model == old(model) && program == old(program) &&
        prevCursor == old(prevCursor) && prevTimerT == old(prevTimerT)
    {
      if !eventDragging {
        return Done;
      }
      isDragging := true;
      if prevCursor.None? {
        return MissingCursor;
      }
      var (px, py) := prevCursor.value;
      if x == 0 {
        return DivisionByZero;
      }
      phi := DragTurn(phi, x, px);
      if y == 0 {
        return DivisionByZero;
      }
      theta := DragTurn(theta, y, py);
      model := Rotation(theta, phi);
      prevCursor := Some((x, y));
      prevTimerT := timerT;
      program := program.(uModel := Some(model));
      outcome := Done;
    }

    /** A release ends the drag and the press, and touches nothing else. */
    method OnMouseRelease()
      requires Valid()
      modifies this`isDragging, this`isMousePressed
      ensures Valid()
      ensures !isDragging && !isMousePressed
    {
      isDragging := false;
      isMousePressed := false;
    }
  }

  /**
   * A client run: a fresh widget scrolled inwards three times by 5 ends at
   * distance 5 with point size 1; scrolling on past the floor stays at 2.
   */
  method ScrollSession() returns (w: QtScatVispyWidget)
    ensures w.Valid() && w.translate == MinTranslate && w.program.uSize == Some(5.0 / 2.0)
    ensures w.theta == 0.0 && w.phi == 0.0 && !w.isDragging && !w.isMousePressed
  {
    w := new QtScatVispyWidget();
    w.OnMouseWheel(5.0);
    w.OnMouseWheel(5.0);
    w.OnMouseWheel(5.0);
    assert w.translate == 5.0 && w.program.uSize == Some(1.0);
    w.OnMouseWheel(5.0);
    w.OnMouseWheel(5.0);
    assert w.translate == MinTranslate;
  }

  /**
   * A client run: press at (100, 50), drag to (200, 100), release.  phi turns
   * by (200 - 100) / 200 * 180 = 90 degrees, theta by (100 - 50) / 100 * 180 = 90.
   */
  method DragSession() returns (w: QtScatVispyWidget)
    ensures w.Valid() && w.phi == 90.0 && w.theta == 90.0 && w.model == Rotation(90.0, 90.0)
    ensures w.translate == InitialTranslate && !w.isDragging && !w.isMousePressed
    ensures w.prevCursor == Some((200, 100))
  {
    w := new QtScatVispyWidget();
    w.OnMousePress(100, 50);
    var outcome := w.OnMouseMove(true, 200, 100);
    assert outcome == Done;
    w.OnMouseRelease();
  }
}
