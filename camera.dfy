/** The fly camera: window events set movement flags and, while the right mouse button is held,
    turn the view; each frame the eye moves along the view direction for every flag set.
    Directions are symbolic (`Math.VecExpr`), angles are reals in degrees. */
module Cameras {
  import opened Wrappers
  import opened Math

  datatype ElementState = Pressed | Released

  datatype Key =
    | W | A | S | D | E | Q | ArrowUp | ArrowDown | ArrowLeft | ArrowRight
      /** any other virtual key code */
    | OtherKey(code: nat)

  datatype MouseButton = LeftButton | RightButton | MiddleButton | OtherButton(code: nat)

  /** The window events the camera looks at; cursor positions are taken as reals. */
  datatype WindowEvent =
    | KeyboardInput(state: ElementState, keycode: Option<Key>)
    | MouseInput(state: ElementState, button: MouseButton)
    | CursorMoved(x: real, y: real)
    | OtherEvent

  /** Every field of the camera, as one value. */
  datatype CameraState = CameraState(
    eye: VecExpr, front: VecExpr, up: Vec3,
    aspect: real, fovyDegrees: real, znear: real, zfar: real, speed: real,
    forward: bool, backward: bool, left: bool, right: bool, upward: bool, downward: bool,
    rightClick: bool, firstMouse: bool, lastX: real, lastY: real, pitch: real, yaw: real)

  const Sensitivity: real := 0.2
  const MaxPitch: real := 89.0

  function Clamp(v: real, lo: real, hi: real): (r: real)
    requires lo <= hi
    ensures lo <= r <= hi
    ensures lo <= v <= hi ==> r == v
  {
    if v < lo then lo else if v > hi then hi else v
  }

  /** The pitch stays within 89 degrees of the horizon. */
  predicate PitchInRange(s: CameraState)
  {
    -MaxPitch <= s.pitch <= MaxPitch
  }

  /** `Camera::default()`: eye (-3, 3, -3) looking at the origin, y up, 1600:900 aspect,
      45 degree field of view, no key or button held, and the next cursor move treated as the
      first. */
  function Default(): (s: CameraState)
    ensures !s.forward && !s.backward && !s.left && !s.right && !s.upward && !s.downward
    ensures !s.rightClick && s.firstMouse
    ensures s.pitch == 0.0 && s.yaw == 90.0 && PitchInRange(s)
  {
    CameraState(
      Lit(Vec3(-3.0, 3.0, -3.0)), Normalize(Minus(Lit(Vec3(0.0, 0.0, 0.0)), Lit(Vec3(-3.0, 3.0, -3.0)))),
      Vec3(0.0, 1.0, 0.0),
      1600.0 / 900.0, 45.0, 0.01, 100.0, 0.04,
      false, false, false, false, false, false,
      false, true, 0.0, 0.0, 0.0, 90.0)
  }

  /** The movement flags, and the key that drives each. */
  datatype Movement = Forward | Backward | MoveLeft | MoveRight | MoveUp | MoveDown

  function Flag(s: CameraState, m: Movement): bool
  {
    match m
    case Forward => s.forward
    case Backward => s.backward
    case MoveLeft => s.left
    case MoveRight => s.right
    case MoveUp => s.upward
    case MoveDown => s.downward
  }

  /** Which flag a key drives: W and the up arrow move forward, A and the left arrow left,
      S and the down arrow backward, D and the right arrow right, E up and Q down. */
  function MovementOf(k: Key): Option<Movement>
  {
    match k
    case W => Some(Forward)
    case ArrowUp => Some(Forward)
    case A => Some(MoveLeft)
    case ArrowLeft => Some(MoveLeft)
    case S => Some(Backward)
    case ArrowDown => Some(Backward)
    case D => Some(MoveRight)
    case ArrowRight => Some(MoveRight)
    case E => Some(MoveUp)
    case Q => Some(MoveDown)
    case OtherKey(_) => None
  }

  /** The same state with every movement flag taken from `t`. */
  function WithFlagsOf(s: CameraState, t: CameraState): CameraState
  {
    s.(forward := t.forward, backward := t.backward, left := t.left, right := t.right,
       upward := t.upward, downward := t.downward)
  }

  /** The unit direction for a yaw and a pitch. */
  function Direction(yaw: real, pitch: real): VecExpr
  {
    Normalize(YawPitchDirection(yaw, pitch))
  }

  /** The state with the flag of `m` set to `pressed`. */
  function WithMovement(s: CameraState, m: Movement, pressed: bool): CameraState
  {
    match m
    case Forward => s.(forward := pressed)
    case Backward => s.(backward := pressed)
    case MoveLeft => s.(left := pressed)
    case MoveRight => s.(right := pressed)
    case MoveUp => s.(upward := pressed)
    case MoveDown => s.(downward := pressed)
  }

  /** A key going down (`pressed`) or up. */
  function AfterKey(s: CameraState, pressed: bool, k: Key): CameraState
  {
    match k
    case W | ArrowUp => s.(forward := pressed)
    case A | ArrowLeft => s.(left := pressed)
    case S | ArrowDown => s.(backward := pressed)
    case D | ArrowRight => s.(right := pressed)
    case E => s.(upward := pressed)
    case Q => s.(downward := pressed)
    case OtherKey(_) => s
  }

  /** A cursor move: ignored (but arming `firstMouse`) unless the right button is held;
      otherwise the offsets from the last position, scaled by the sensitivity, turn the view. */
  function AfterCursor(s: CameraState, x: real, y: real): CameraState
  {
    if !s.rightClick then s.(firstMouse := true)
    else
      var lastX := if s.firstMouse then x else s.lastX;
      var lastY := if s.firstMouse then y else s.lastY;
      var yaw := s.yaw - (x - lastX) * Sensitivity;
      var pitch := Clamp(s.pitch - (y - lastY) * Sensitivity, -MaxPitch, MaxPitch);
      s.(firstMouse := false, lastX := x, lastY := y, yaw := yaw, pitch := pitch,
         front := Direction(yaw, pitch))
  }

  /** `Camera::input` as a state transition. */
  function AfterInput(s: CameraState, e: WindowEvent): CameraState
  {
    match e
    case KeyboardInput(state, Some(k)) => AfterKey(s, state == Pressed, k)
    case KeyboardInput(_, None) => s
    case MouseInput(state, RightButton) => s.(rightClick := state == Pressed)
    case MouseInput(_, _) => s
    case CursorMoved(x, y) => AfterCursor(s, x, y)
    case OtherEvent => s
  }

  /** `Camera::update` as a state transition: one step of `speed` along the view direction,
      the horizontal right-hand direction and the camera's own up direction, for every flag. */
  function AfterUpdate(s: CameraState): CameraState
  {
    var step := s.speed;
    var e0 := s.eye;
    var e1 := if s.forward then Plus(e0, Times(s.front, step)) else e0;
    var e2 := if s.backward then Minus(e1, Times(s.front, step)) else e1;
    var side := Normalize(Cross(Lit(s.up), s.front));
    var e3 := if s.left then Minus(e2, Times(side, step)) else e2;
    var e4 := if s.right then Plus(e3, Times(side, step)) else e3;
    var lift := Normalize(Cross(side, s.front));
    var e5 := if s.upward then Minus(e4, Times(lift, step)) else e4;
    var e6 := if s.downward then Plus(e5, Times(lift, step)) else e5;
    s.(eye := e6)
  }

  /** A key event changes no field but the movement flags. */
  lemma KeyChangesOnlyFlags(s: CameraState, pressed: bool, k: Key)
    ensures WithFlagsOf(AfterKey(s, pressed, k), s) == s
  {
  }

  /** A key event sets the flag its key drives to whether the key went down, and changes
      nothing else; a key that drives no flag changes nothing. */
  lemma KeySetsOneFlag(s: CameraState, state: ElementState, k: Key)
    ensures var r := AfterInput(s, KeyboardInput(state, Some(k)));
      && (forall m :: Flag(r, m) == if MovementOf(k) == Some(m) then state == Pressed else Flag(s, m))
      && WithFlagsOf(r, s) == s
  {
    var r := AfterKey(s, state == Pressed, k);
    assert AfterInput(s, KeyboardInput(state, Some(k))) == r;
    KeyChangesOnlyFlags(s, state == Pressed, k);
    forall m ensures Flag(r, m) == if MovementOf(k) == Some(m) then state == Pressed else Flag(s, m) {
      KeyFlag(s, state == Pressed, k, m);
    }
  }

  lemma KeyFlag(s: CameraState, pressed: bool, k: Key, m: Movement)
    ensures Flag(AfterKey(s, pressed, k), m) == if MovementOf(k) == Some(m) then pressed else Flag(s, m)
  {
    match m {
      case Forward =>
      case Backward =>
      case MoveLeft =>
      case MoveRight =>
      case MoveUp =>
      case MoveDown =>
    }
  }

  /** A right-button event records whether the button is held and changes nothing else;
      other buttons change nothing. */
  lemma RightButtonTracksHold(s: CameraState, state: ElementState, b: MouseButton)
    ensures AfterInput(s, MouseInput(state, b)) == if b == RightButton then s.(rightClick := state == Pressed) else s
  {
  }

  /** Without the right button held, a cursor move only arms `firstMouse`. */
  lemma CursorIgnoredWithoutRightClick(s: CameraState, x: real, y: real)
    requires !s.rightClick
    ensures AfterInput(s, CursorMoved(x, y)) == s.(firstMouse := true)
  {
  }

  /** The first move after arming takes the cursor position as the reference, so the view
      angles do not jump. */
  lemma FirstMoveKeepsAngles(s: CameraState, x: real, y: real)
    requires s.rightClick && s.firstMouse && PitchInRange(s)
    ensures var r := AfterInput(s, CursorMoved(x, y));
      r.yaw == s.yaw && r.pitch == s.pitch && r.front == Direction(s.yaw, s.pitch)
  {
  }

  /** Every cursor move that turns the view leaves the cursor position as the reference,
      disarms `firstMouse`, keeps the pitch within range and points `front` along the new
      angles. */
  lemma CursorMoveTracksPosition(s: CameraState, x: real, y: real)
    requires s.rightClick
    ensures var r := AfterInput(s, CursorMoved(x, y));
      && r.lastX == x && r.lastY == y && !r.firstMouse && PitchInRange(r)
      && r.front == Direction(r.yaw, r.pitch)
      && WithFlagsOf(r, s) == r && r.eye == s.eye
  {
  }

  /** No event moves the eye or takes the pitch out of range. */
  lemma InputKeepsEyeAndPitch(s: CameraState, e: WindowEvent)
    requires PitchInRange(s)
    ensures AfterInput(s, e).eye == s.eye && PitchInRange(AfterInput(s, e))
  {
    match e {
      case KeyboardInput(state, Some(k)) =>
        KeySetsOneFlag(s, state, k);
      case CursorMoved(x, y) =>
        assert AfterInput(s, e) == AfterCursor(s, x, y);
      case _ =>
    }
  }

  /** A frame update moves only the eye, and with no flag set not even that. */
  lemma UpdateMovesOnlyEye(s: CameraState)
    ensures AfterUpdate(s) == s.(eye := AfterUpdate(s).eye)
    ensures (forall m :: !Flag(s, m)) ==> AfterUpdate(s) == s
  {
    if forall m :: !Flag(s, m) {
      assert !Flag(s, Forward) && !Flag(s, Backward) && !Flag(s, MoveLeft);
      assert !Flag(s, MoveRight) && !Flag(s, MoveUp) && !Flag(s, MoveDown);
    }
  }

  /** The camera object. The projection parameters and the up vector never change. */
  class Camera {
    var eye: VecExpr
    var front: VecExpr
    const up: Vec3
    const aspect: real
    const fovyDegrees: real
    const znear: real
    const zfar: real
    const speed: real
    var forward: bool
    var backward: bool
    var left: bool
    var right: bool
    var upward: bool
    var downward: bool
    var rightClick: bool
    var firstMouse: bool
    var lastX: real
    var lastY: real
    var pitch: real
    var yaw: real

    function State(): CameraState
      reads this
    {
      CameraState(eye, front, up, aspect, fovyDegrees, znear, zfar, speed,
                  forward, backward, left, right, upward, downward,
                  rightClick, firstMouse, lastX, lastY, pitch, yaw)
    }

    constructor()
      ensures State() == Default()
    {
      eye := Lit(Vec3(-3.0, 3.0, -3.0));
      front := Normalize(Minus(Lit(Vec3(0.0, 0.0, 0.0)), Lit(Vec3(-3.0, 3.0, -3.0))));
      up := Vec3(0.0, 1.0, 0.0);
      aspect := 1600.0 / 900.0;
      fovyDegrees := 45.0;
      znear := 0.01;
      zfar := 100.0;
      speed := 0.04;
      forward, backward, left, right, upward, downward := false, false, false, false, false, false;
      rightClick := false;
      lastX, lastY := 0.0, 0.0;
      firstMouse := true;
      pitch, yaw := 0.0, 90.0;
    }

    method Input(e: WindowEvent)
      modifies this
      ensures State() == AfterInput(old(State()), e)
    {
      match e {
        case KeyboardInput(state, Some(k)) =>
          KeyInput(state == Pressed, k);
        case KeyboardInput(_, None) =>
        case MouseInput(state, RightButton) =>
          if state == Pressed {
            rightClick := true;
          } else {
            rightClick := false;
          }
        case MouseInput(_, _) =>
        case CursorMoved(x, y) =>
          CursorInput(x, y);
        case OtherEvent =>
      }
    }

    /** The keyboard arm of `input`. */
    method KeyInput(pressed: bool, k: Key)
      modifies this
      ensures State() == AfterKey(old(State()), pressed, k)
    {
      match k {
        case W | ArrowUp => SetMovement(Forward, pressed);
        case A | ArrowLeft => SetMovement(MoveLeft, pressed);
        case S | ArrowDown => SetMovement(Backward, pressed);
        case D | ArrowRight => SetMovement(MoveRight, pressed);
        case E => SetMovement(MoveUp, pressed);
        case Q => SetMovement(MoveDown, pressed);
        case OtherKey(_) =>
      }
    }

    /** The assignment of one arm of the keyboard match. */
    method SetMovement(m: Movement, pressed: bool)
      modifies this
      ensures State() == WithMovement(old(State()), m, pressed)
    {
      match m {
        case Forward => forward := pressed;
        case Backward => backward := pressed;
        case MoveLeft => left := pressed;
        case MoveRight => right := pressed;
        case MoveUp => upward := pressed;
        case MoveDown => downward := pressed;
      }
    }

    /** The cursor arm of `input`. */
    method CursorInput(x: real, y: real)
      modifies this
      ensures State() == AfterCursor(old(State()), x, y)
    {
      if !rightClick {
        firstMouse := true;
        return;
      }
      if firstMouse {
        lastX := x;
        lastY := y;
        firstMouse := false;
      }
      var xOffset := x - lastX;
      var yOffset := y - lastY;
      lastX := x;
      lastY := y;
      xOffset := xOffset * Sensitivity;
      yOffset := yOffset * Sensitivity;
      yaw := yaw - xOffset;
      pitch := pitch - yOffset;
      pitch := Clamp(pitch, -MaxPitch, MaxPitch);
      front := Normalize(YawPitchDirection(yaw, pitch));
    }

    method Update()
      modifies this
      ensures State() == AfterUpdate(old(State()))
    {
      if forward {
        eye := Plus(eye, Times(front, speed));
      }
      if backward {
        eye := Minus(eye, Times(front, speed));
      }
      if left {
        eye := Minus(eye, Times(Normalize(Cross(Lit(up), front)), speed));
      }
      if right {
        eye := Plus(eye, Times(Normalize(Cross(Lit(up), front)), speed));
      }
      if upward {
        var side := Normalize(Cross(Lit(up), front));
        eye := Minus(eye, Times(Normalize(Cross(side, front)), speed));
      }
      if downward {
        var side := Normalize(Cross(Lit(up), front));
        eye := Plus(eye, Times(Normalize(Cross(side, front)), speed));
      }
    }
  }

  /** `Camera::build_uniforms`: the perspective-times-view matrix and the eye as a point. */
  function BuildUniforms(s: CameraState): (r: (Mat4, Vec4Expr))
    ensures r.0.Mul? && r.0.rhs == LookToLh(s.eye, s.front, Lit(s.up))
    ensures r.0.lhs == PerspectiveLh(s.fovyDegrees, s.aspect, s.znear, s.zfar)
    ensures r.1 == Extend(s.eye, 1.0)
  {
    (Mul(PerspectiveLh(s.fovyDegrees, s.aspect, s.znear, s.zfar), LookToLh(s.eye, s.front, Lit(s.up))),
     Extend(s.eye, 1.0))
  }
}
